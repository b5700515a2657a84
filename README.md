# endoreg-usb-encrypter: the command planner, in Dafny

The encrypter prepares an external disk for sensitive data. It lists the
disks, cleans up the chosen device (unmounts its partitions, closes every
LUKS mapping, runs `partprobe`), writes a GPT label and one partition per
(name, size factor) pair, formats each partition, encrypts it with a fresh
32-byte key file, mounts the opened container and queries its LUKS UUID.
It then records one entry per partition and, in the runner, renders a Nix
configuration. Last, it unmounts everything under the mount directory and
decrypts and remounts every partition with the key files it wrote.

This project models that planner. Each shell command is a value of the
`Shell.Command` datatype. The world outside the program is an oracle: it
maps a trace position and a command to an exit status, the standard output
(of the listing program, for a `… | grep` pipeline) and the error text.
`Shell.Machine` holds:

- the trace of issued commands;
- the log entries `run_command` writes;
- the open mappings under `/dev/mapper`;
- the mounts, as a map from mount point to source;
- the existing directories;
- the key files written, as a map from path to 32-byte key.

`Shell.Exec` is `run_command`. Every procedure of the source has a
specification function from an oracle and a state to a `Step` (the new
state and a `Result`). Each also has a method on the class `Shell.Host`
(the same fields, updated in place) that is proved equal to its
specification. The lemmas state what the source promises: the order of
the commands, the names and paths it derives, which listing lines it
skips, what it raises, what it leaves open, mounted or written, and the
round trips between the names used at encryption and at remount.

Modules, one per source file or concern:

- `Shell` (base.py `run_command`, the machine and the host);
- `Text` (Python string methods);
- `Names` (path and name derivation);
- `Base` (base.py);
- `Listing` (the listing loops shared by cleanup_device.py and unmount_partitions.py);
- `Cleanup`, `Partitions`, `Encrypt`, `Decrypt`, `Unmount` and `Remount` (one per file under functions/);
- `Provision` (the per-partition loop that both entry points share);
- `Session` (cleanup, partitioning and that loop);
- `Nix`, `Runner` (runner.py);
- `PackageMain` (endoreg_usb_encrypter/main.py).

## Model

| member | source | states |
|---|---|---|
| Shell.Exec | endoreg_usb_encrypter/functions/base.py:5-12 | The command is appended to the trace exactly once. Exit status 0 returns the stdout stripped of surrounding whitespace and logs one debug entry. Any other status raises `CalledProcessError` with the command, status and error text, and logs one error entry. Only the mappings and mounts the command itself touches change. |
| Shell.Host.RunCommand | endoreg_usb_encrypter/functions/base.py:5-12 | The host's new state and the result are exactly `Exec` of the old state. |
| Shell.Host.constructor | endoreg_usb_encrypter/functions/base.py:5-12 | A host starts in the given state with the given oracle and entropy. |
| Shell.Host.MakeDirsIfAbsent | endoreg_usb_encrypter/functions/encrypt_partition.py:29-31 | `os.makedirs` guarded by `os.path.exists`: the new state is `WithDir` of the old one. |
| Shell.WithDir | endoreg_usb_encrypter/functions/decrypt_and_mount_partition.py:21-23 | After the guarded `makedirs` the path exists, exactly that path was added, and nothing else changed. |
| Shell.LinesContaining | endoreg_usb_encrypter/functions/cleanup_device.py:23 | `grep <pattern>`: every kept line is a listing line that contains the pattern, and no more lines are kept than listed. |
| Shell.PartitionNameLines | endoreg_usb_encrypter/functions/unmount_and_mount_all_partitions.py:19 | `grep -E '^[a-z]+[0-9]$'`: every kept line is a listing line that matches, and no more lines are kept than listed. |
| Shell.Detach | endoreg_usb_encrypter/functions/unmount_partitions.py:20 | After `umount t` nothing is mounted at `t` or from `t`, and every remaining mount was there before with the same source. |
| Shell.LinesContainingHas | endoreg_usb_encrypter/functions/cleanup_device.py:23 | `grep <pattern>` keeps every listing line that contains the pattern. |
| Shell.PartitionNameLinesHas | endoreg_usb_encrypter/functions/unmount_and_mount_all_partitions.py:19 | `grep -E '^[a-z]+[0-9]$'` keeps every listing line that matches. |
| Shell.DetachKeeps | endoreg_usb_encrypter/functions/unmount_partitions.py:20 | `umount t` keeps every mount that neither sits at `t` nor comes from `t`, with its source. |
| Shell.Effect | endoreg_usb_encrypter/functions/encrypt_partition.py:16-34 | A successful command changes only the mappings and the mounts (what each command does to them is stated by `ExecOpen`, `ExecClose`, `ExecMount` and `ExecUmount`). |
| Shell.ExecShrinks | endoreg_usb_encrypter/functions/cleanup_device.py:17 | A command other than `open` and `mount` never opens a mapping or adds a mount. |
| Shell.ExecClose | endoreg_usb_encrypter/functions/cleanup_device.py:40 | A successful `cryptsetup close` leaves its mapping closed. |
| Shell.ExecOpen | endoreg_usb_encrypter/functions/decrypt_and_mount_partition.py:17 | A successful `cryptsetup open` leaves its mapping open. |
| Shell.ExecMount | endoreg_usb_encrypter/functions/decrypt_and_mount_partition.py:26 | A successful `mount` records its source at its mount point. |
| Shell.ExecUmount | endoreg_usb_encrypter/functions/unmount_partitions.py:20 | A successful `umount` leaves its target detached. |
| Shell.DetachedSubmap | endoreg_usb_encrypter/functions/cleanup_device.py:10-19 | A detached target stays detached when further mounts go away. |
| Shell.FailedLastFrom | endoreg_usb_encrypter/functions/base.py:5-12 | A failure that ended the commands issued from a later state also ended those issued from any earlier one. |
| Shell.IssuedConcat | endoreg_usb_encrypter/functions/base.py:5-12 | The commands issued over two consecutive runs are those of the first, then those of the second. |
| Shell.ExecAllCons | endoreg_usb_encrypter/functions/base.py:10-12 | Running a plan runs its first command, and runs the rest only when that command succeeded, because a failure propagates. |
| Shell.ExecAllOne | endoreg_usb_encrypter/functions/base.py:10-12 | A plan of one command has that command's state and outcome. |
| Shell.ExecAllAt | endoreg_usb_encrypter/functions/base.py:10-12 | The run from position `k` is command `k`, then the rest only after a success. |
| Shell.SucceededConcat | endoreg_usb_encrypter/functions/base.py:10-12 | Two plans run one after the other both succeed exactly when each succeeds at its own trace positions. |
| Shell.ExecAllIssues | endoreg_usb_encrypter/functions/base.py:10-12 | Running a plan issues a prefix of it, in order, and stops at the first failure. |
| Shell.ExecAllOk | endoreg_usb_encrypter/functions/base.py:10-12 | Running a plan succeeds exactly when every command exits 0 at its position. |
| Shell.ExecAllExtends | endoreg_usb_encrypter/functions/base.py:10-12 | Running a plan extends the trace, by exactly the plan when it succeeds. |
| Shell.ThenOne | endoreg_usb_encrypter/functions/base.py:10-12 | A plan followed by one more command succeeds exactly when the plan succeeded and the command exited 0, and then both were issued. |
| Shell.SucceededOne | endoreg_usb_encrypter/functions/base.py:10-12 | One command succeeds exactly when it exits 0. |
| Shell.SucceededCons | endoreg_usb_encrypter/functions/base.py:10-12 | A plan succeeds exactly when its first command exits 0 and the rest succeeds from the next position. |
| Shell.RanInOrderAs | endoreg_usb_encrypter/functions/base.py:10-12 | A step with the same state and failure as running a plan ran that plan in order, whatever value it returns. |
| Shell.ExecAllContinues | endoreg_usb_encrypter/functions/base.py:5-9 | A first command that succeeds is followed by the rest of the plan. |
| Shell.ExecAllStops | endoreg_usb_encrypter/functions/base.py:10-12 | A first command that fails is the only one issued, and its failure is the plan's. |
| Shell.RanInOrderCons | endoreg_usb_encrypter/functions/base.py:5-12 | A successful first command prepends itself to what the rest issues. |
| Text.Strip | endoreg_usb_encrypter/functions/base.py:9 | `str.strip()`: the result is the input without its leading and trailing whitespace, and neither starts nor ends with whitespace. |
| Text.Leading | endoreg_usb_encrypter/functions/base.py:9 | The count of whitespace characters opening the text, all of them whitespace and the next one not. |
| Text.Trailing | endoreg_usb_encrypter/functions/base.py:9 | The count of whitespace characters closing the text, all of them whitespace and the one before them not. |
| Text.TrimLeft | endoreg_usb_encrypter/functions/base.py:9 | `str.lstrip()`: the result is empty or does not start with whitespace. |
| Text.StripWord | endoreg_usb_encrypter/functions/base.py:9 | Stripping text without whitespace changes nothing. |
| Text.StripUnchanged | endoreg_usb_encrypter/functions/base.py:9 | Text that neither starts nor ends with whitespace is its own strip. |
| Text.Find | endoreg_usb_encrypter/functions/cleanup_device.py:11 | The index of the first occurrence of a character, or the length when there is none; no earlier character is it. |
| Text.FindSpace | endoreg_usb_encrypter/functions/cleanup_device.py:11 | The index of the first whitespace character, or the length; nothing before it is whitespace. |
| Text.FindPast | endoreg_usb_encrypter/functions/cleanup_device.py:11 | `Find` stops at the first occurrence. |
| Text.FindSpacePast | endoreg_usb_encrypter/functions/cleanup_device.py:11 | `FindSpace` stops at the first whitespace. |
| Text.ContainsMiddle | endoreg_usb_encrypter/functions/cleanup_device.py:23 | A text contains every text placed inside it. |
| Text.Lines | endoreg_usb_encrypter/functions/cleanup_device.py:10 | `str.splitlines()` on `'\n'`: no line holds a newline, and there are no lines exactly when the text is empty. |
| Text.LinesOfJoinLines | endoreg_usb_encrypter/functions/unmount_and_mount_all_partitions.py:19 | Lines round trip: newline-free lines with a non-empty last line, joined and split again, give back the same lines. |
| Text.JoinedWordsEnds | endoreg_usb_encrypter/functions/unmount_and_mount_all_partitions.py:19 | Words joined by newlines neither start nor end with whitespace. |
| Text.StripJoinLines | endoreg_usb_encrypter/functions/unmount_and_mount_all_partitions.py:19 | Words joined by newlines are their own strip. |
| Text.Fields | endoreg_usb_encrypter/functions/cleanup_device.py:11 | `str.split()`: every field is a non-empty run without whitespace, and there are no fields exactly when the text is all whitespace. |
| Text.FieldsOfWordThen | endoreg_usb_encrypter/functions/cleanup_device.py:11-13 | A word, a space and more text split into the word followed by the fields of the rest. |
| Text.FieldsOfUnwords | endoreg_usb_encrypter/functions/cleanup_device.py:11 | Fields round trip: words joined by spaces split back into the words. |
| Text.Split | endoreg_usb_encrypter/main.py:34 | `str.split(sep)`: at least one part, none holding the separator. |
| Text.JoinSplit | endoreg_usb_encrypter/main.py:34 | Split round trip: joining the parts with the separator restores the text. |
| Text.SplitJoin | endoreg_usb_encrypter/main.py:34 | Split round trip the other way: parts without the separator, joined by it, split back into themselves. |
| Text.Lower | endoreg_usb_encrypter/main.py:89 | `str.lower()`: same length, each ASCII capital mapped to its small letter and every other character kept. |
| Text.Decimal | endoreg_usb_encrypter/functions/create_partitions.py:18 | `str(n)`: a non-empty string of digits, of two or more digits exactly when `n >= 10`. |
| Text.ParseDecimal | endoreg_usb_encrypter/functions/create_partitions.py:18 | Decimal round trip: reading the rendering of `n` back gives `n`. |
| Text.DecimalInjective | endoreg_usb_encrypter/functions/create_partitions.py:18 | Distinct numbers render to distinct strings. |
| Names.Basename | endoreg_usb_encrypter/functions/encrypt_partition.py:10 | `os.path.basename`: the result holds no `'/'`. |
| Names.BasenameIsLastComponent | endoreg_usb_encrypter/functions/encrypt_partition.py:10 | The basename is exactly what follows the last `'/'`, or the whole path when it has none. |
| Names.BasenameAppend | endoreg_usb_encrypter/functions/create_partitions.py:18 | Appending slash-free text to a path appends it to the basename. |
| Names.BasenameUnder | endoreg_usb_encrypter/functions/unmount_and_mount_all_partitions.py:21 | The basename of `dir/name` is `name` when the name has no `'/'`. |
| Names.PartitionNameIsWord | endoreg_usb_encrypter/functions/unmount_and_mount_all_partitions.py:19 | A name the pattern accepts holds no `'/'` and no whitespace. |
| Names.PartitionNameLine | endoreg_usb_encrypter/functions/unmount_and_mount_all_partitions.py:19 | A name the pattern accepts is one line that neither starts nor ends with whitespace. |
| Names.PartitionNameSingleDigit | endoreg_usb_encrypter/functions/unmount_and_mount_all_partitions.py:19 | `<letters><n>` matches `^[a-z]+[0-9]$` exactly when `n < 10`, so partition 10 and later are not remounted. |
| Names.KeyFileRoundTrip | endoreg_usb_encrypter/functions/unmount_and_mount_all_partitions.py:21-23 | For a partition listed as `name`, the key path the remount derives equals the one encryption wrote for `/dev/<name>`; the mapping name and the mount path agree too. |
| Names.PartitionBasename | endoreg_usb_encrypter/functions/create_partitions.py:18 | The basename of partition `i` is the device's basename followed by the decimal of `i+1`. |
| Names.MountPathLaw | endoreg_usb_encrypter/functions/decrypt_and_mount_partition.py:20 | The mount path is `mount_dir/luks-<basename>`, a child of the mount directory named by the mapping, whatever the state. |
| Names.DistinctKeyFiles | endoreg_usb_encrypter/functions/encrypt_partition.py:10 | Distinct partitions of one device get distinct key files. |
| Names.KeyFileOfPartition | endoreg_usb_encrypter/functions/encrypt_partition.py:10 | The key file of partition `i` is `<key_dir>/key-<device basename><i+1>.key`. |
| Base.ListDevices | endoreg_usb_encrypter/functions/base.py:15-20 | The method's new state and result equal running the disk listing once. |
| Base.ListDevicesIssuesOne | endoreg_usb_encrypter/functions/base.py:17-20 | `list_devices` issues exactly the disk listing and returns its stripped output; a failure propagates. |
| Base.FormatPartition | endoreg_usb_encrypter/functions/base.py:23-28 | The method's new state and result equal the specification of `format_partition`. |
| Base.FormatIssues | endoreg_usb_encrypter/functions/base.py:25-26 | A successful format issued `mkfs.ext4 p`, then `blkid … p`, and nothing else. |
| Base.FormatOrder | endoreg_usb_encrypter/functions/base.py:25-28 | What is issued is a prefix of `mkfs`, `blkid`, so `mkfs` comes strictly first; on success the UUID is the stripped `blkid` output. |
| Listing.UmountPlan | endoreg_usb_encrypter/functions/cleanup_device.py:10-19 | The `umount` commands a listing calls for, in line order: one per line with a second field, by device or by mount point. |
| Listing.UmountListedIsPlan | endoreg_usb_encrypter/functions/cleanup_device.py:10-19 | A listing without blank lines is handled by running its plan in order, stopping at the first failure. |
| Listing.UmountListedBlank | endoreg_usb_encrypter/functions/cleanup_device.py:11-12 | A blank line stops the loop with `IndexError` (`parts[0]`), unless an earlier `umount` failed first. |
| Listing.UmountPlanMembers | endoreg_usb_encrypter/functions/cleanup_device.py:13-17 | `umount t` is in the plan exactly when some line has a second field and names `t` as its target. |
| Listing.UmountPlanListed | endoreg_usb_encrypter/functions/cleanup_device.py:13-17 | Every planned command comes from a line with a mount point; lines without one issue nothing. |
| Listing.UmountPlanHas | endoreg_usb_encrypter/functions/unmount_partitions.py:16-20 | Every line with a mount point puts its `umount` in the plan. |
| Listing.UmountListedAt | endoreg_usb_encrypter/functions/cleanup_device.py:10-19 | One turn of the loop over line `k`, from its state before. |
| Listing.UmountLines | endoreg_usb_encrypter/functions/unmount_partitions.py:13-20 | The loop on the host equals its specification on the listed lines. |
| Listing.UmountListedShrinks | endoreg_usb_encrypter/functions/cleanup_device.py:10-19 | The loop never opens a mapping and never adds or changes a mount. |
| Listing.UmountListedDetaches | endoreg_usb_encrypter/functions/cleanup_device.py:10-19 | After a successful loop every listed mount target is detached, and no mount was added or changed. |
| Listing.UmountListedIssuesUmounts | endoreg_usb_encrypter/functions/cleanup_device.py:10-19 | The loop issues nothing but `umount` commands, however it ends. |
| Listing.UmountListedFailures | endoreg_usb_encrypter/functions/cleanup_device.py:10-19 | The loop raises only `IndexError` or a command failure. |
| Listing.UmountListedSucceeds | endoreg_usb_encrypter/functions/unmount_partitions.py:13-20 | A successful loop saw no blank line and issued exactly its plan, in listing order. |
| Cleanup.CleanupDevice | endoreg_usb_encrypter/functions/cleanup_device.py:5-47 | The method's new state and result equal the specification of `cleanup_device`. |
| Cleanup.CloseMappings | endoreg_usb_encrypter/functions/cleanup_device.py:27-40 | The closing loop on the host equals its specification; a failing command leaves the loop. |
| Cleanup.CloseListedAt | endoreg_usb_encrypter/functions/cleanup_device.py:27-40 | One turn of the closing loop over line `k`, from its state before. |
| Cleanup.CloseOneIsPlan | endoreg_usb_encrypter/functions/cleanup_device.py:32-40 | Closing one mapping runs its plan (listing, `umount` when mounted, `close`) in order, stopping at the first failure. |
| Cleanup.CloseRestIsPlan | endoreg_usb_encrypter/functions/cleanup_device.py:33-40 | After the mapping's listing, the rest is its plan. |
| Cleanup.CloseOneFrame | endoreg_usb_encrypter/functions/cleanup_device.py:32-40 | Closing one mapping never opens a mapping or adds a mount and raises only a command failure; on success the mapping is closed. |
| Cleanup.CloseOneShrinks | endoreg_usb_encrypter/functions/cleanup_device.py:32-40 | Closing one mapping never opens a mapping or adds a mount and raises only a command failure. |
| Cleanup.UmountIfMounted | endoreg_usb_encrypter/functions/cleanup_device.py:33-37 | `umount /dev/mapper/<name>` is issued exactly when the mapping's listing has a second field. |
| Cleanup.CloseOneRemoves | endoreg_usb_encrypter/functions/cleanup_device.py:40 | A successful close of one mapping leaves it closed. |
| Cleanup.CloseOneOutcome | endoreg_usb_encrypter/functions/cleanup_device.py:32-40 | A mapping is unmounted exactly when its listing shows a mount point; on success its listing, that `umount` and the `close` were issued in that order. |
| Cleanup.Closes | endoreg_usb_encrypter/functions/cleanup_device.py:40 | The `close` commands of a list: every command it keeps is a `close`. |
| Cleanup.ClosesOne | endoreg_usb_encrypter/functions/cleanup_device.py:40 | One command contributes itself when it is a `close`, and nothing otherwise. |
| Cleanup.ClosesConcat | endoreg_usb_encrypter/functions/cleanup_device.py:27-40 | The closes of two lists are those of the first, then those of the second. |
| Cleanup.ListedNames | endoreg_usb_encrypter/functions/cleanup_device.py:28 | The mapping each crypt-listing line names, its first field, one per line. |
| Cleanup.CloseCommands | endoreg_usb_encrypter/functions/cleanup_device.py:40 | One `close` per name, the k-th closing the k-th name. |
| Cleanup.CloseListedFrame | endoreg_usb_encrypter/functions/cleanup_device.py:27-40 | Closing the listed mappings never opens a mapping or adds a mount, and raises only `IndexError` or a command failure. |
| Cleanup.CloseListedCloses | endoreg_usb_encrypter/functions/cleanup_device.py:27-40 | After a successful close loop the listing had no blank line, and the `close` commands issued are one per listed mapping, in listing order. |
| Cleanup.CloseListedClosed | endoreg_usb_encrypter/functions/cleanup_device.py:27-40 | After a successful close loop no listed mapping is open. |
| Cleanup.CloseOneCloses | endoreg_usb_encrypter/functions/cleanup_device.py:40 | Closing one mapping issues exactly one `close`, its own. |
| Cleanup.CryptPhaseOutcome | endoreg_usb_encrypter/functions/cleanup_device.py:22-43 | The LUKS phase starts with the system-wide crypt listing, never opens a mapping or adds a mount, and never raises a command failure, which it swallows. It ends normally or with the `IndexError` of a blank line. |
| Cleanup.CryptPhaseEmpty | endoreg_usb_encrypter/functions/cleanup_device.py:24-25 | A blank crypt listing issues nothing more. |
| Cleanup.CryptPhaseIsClosing | endoreg_usb_encrypter/functions/cleanup_device.py:26-40 | A non-blank crypt listing whose mappings all close successfully is that closing, after the listing. |
| Cleanup.CryptPhaseCloses | endoreg_usb_encrypter/functions/cleanup_device.py:23-40 | Then every listed mapping, on any disk, was closed in listing order and none is open afterwards. |
| Cleanup.ClosesAfter | endoreg_usb_encrypter/functions/cleanup_device.py:23-40 | A first command that is not a `close` adds no `close`. |
| Cleanup.CleanupTailFrame | endoreg_usb_encrypter/functions/cleanup_device.py:22-47 | The end of cleanup never opens a mapping or adds a mount and raises only `IndexError` or a command failure; on success its last command is `partprobe <device>`. Whenever the LUKS phase ends normally, including after a swallowed failure, `partprobe <device>` is the one command issued after it. |
| Cleanup.CleanupFrame | endoreg_usb_encrypter/functions/cleanup_device.py:9-47 | Cleanup begins with the device listing, never opens a mapping or adds a mount, and raises only `IndexError` or a command failure. A failing device listing propagates at once with nothing else issued; a failure of the partition loop (a failing `umount` or a blank line) is cleanup's own outcome, state and error. |
| Cleanup.CleanupUmountFails | endoreg_usb_encrypter/functions/cleanup_device.py:9-19 | When the partition loop fails, cleanup raises, and it issued only the device listing and `umount`s: no crypt listing and no `partprobe`. |
| Cleanup.CloseOneStops | endoreg_usb_encrypter/functions/cleanup_device.py:32-40 | A command failing while one mapping is closed is the last command issued, and its exit status and stderr are the ones raised. |
| Cleanup.CloseListedStops | endoreg_usb_encrypter/functions/cleanup_device.py:27-40 | A command failing in the closing loop ends it: it is the last command issued, so no later mapping is listed, unmounted or closed. |
| Cleanup.CryptPhaseSwallows | endoreg_usb_encrypter/functions/cleanup_device.py:22-43 | A failing crypt listing ends the LUKS phase normally at once; a command failing in the closing loop ends the phase normally right after that command. |
| Cleanup.CleanupTailSwallows | endoreg_usb_encrypter/functions/cleanup_device.py:22-47 | After either swallowed failure `partprobe <device>` is issued next, and cleanup succeeds exactly when `partprobe` exits 0. |
| Cleanup.CleanupDetaches | endoreg_usb_encrypter/functions/cleanup_device.py:9-47 | A successful cleanup ended with `partprobe <device>`, and every partition its listing showed mounted is detached. |
| Partitions.Trunc | endoreg_usb_encrypter/functions/create_partitions.py:20 | `int()` of a float truncates toward zero: the result is within 1 of the value, on the zero side. |
| Partitions.TruncMonotone | endoreg_usb_encrypter/functions/create_partitions.py:20 | Truncation is monotone. |
| Partitions.BoundStep | endoreg_usb_encrypter/functions/create_partitions.py:17 | The next bound is the current one plus the factor times 100. |
| Partitions.Count | endoreg_usb_encrypter/functions/create_partitions.py:16 | `zip` makes `min(len(names), len(factors))` pairs: no more than either list has, and as many as one of them. |
| Partitions.Walk | endoreg_usb_encrypter/functions/create_partitions.py:16-22 | The `mkpart` commands from pair `i` on: all `mkpart`, one per remaining pair. |
| Partitions.WalkUnfold | endoreg_usb_encrypter/functions/create_partitions.py:17-22 | One pair: `mkpart name ext4 int(start)% int(end)%` with `end = start + factor*100`, then the walk from `end`. |
| Partitions.MkpartStep | endoreg_usb_encrypter/functions/create_partitions.py:17-22 | After one turn's `mkpart`, the rest of the run is the walk from the next pair, or the failure. |
| Partitions.MkpartPlan | endoreg_usb_encrypter/functions/create_partitions.py:13-22 | The `mkpart` commands: all `mkpart`, one per (name, factor) pair. |
| Partitions.PartitionPaths | endoreg_usb_encrypter/functions/create_partitions.py:18-21 | The paths of the first `n` partitions, the i-th being the device followed by the decimal of `i+1`. |
| Partitions.PartitionPathsDistinct | endoreg_usb_encrypter/functions/create_partitions.py:18 | Distinct partitions get distinct paths. |
| Partitions.CreatePartitions | endoreg_usb_encrypter/functions/create_partitions.py:4-25 | The method's new state and result equal the specification of `create_partitions`. |
| Partitions.MakePartitions | endoreg_usb_encrypter/functions/create_partitions.py:16-22 | The loop on the host equals the walk from the current pair and start, appending one path per `mkpart`. |
| Partitions.WalkAt | endoreg_usb_encrypter/functions/create_partitions.py:16-22 | The walk from pair `i` started at the running bound has one command per remaining pair, with the matching name and the truncated bounds of its slot. |
| Partitions.PlanShape | endoreg_usb_encrypter/functions/create_partitions.py:16-20 | The i-th `mkpart` has the i-th name and bounds `int(1 + 100*sum(factors[:i]))` and `int(1 + 100*sum(factors[:i+1]))`. |
| Partitions.Contiguous | endoreg_usb_encrypter/functions/create_partitions.py:13-22 | The first partition starts at 1%, each starts where the previous ended, and the last ends at `int(1 + 100*sum(factors))`. |
| Partitions.NonDecreasing | endoreg_usb_encrypter/functions/create_partitions.py:17-20 | With non-negative factors each partition ends no earlier than it starts. |
| Partitions.CreateIsPlan | endoreg_usb_encrypter/functions/create_partitions.py:8-22 | `create_partitions` has the state and failure of running label, `partprobe` and the `mkpart`s in order, and succeeds exactly when all of them do. |
| Partitions.CreatePaths | endoreg_usb_encrypter/functions/create_partitions.py:18-25 | On success it returns one path per created partition, in order. |
| Partitions.CreateOrder | endoreg_usb_encrypter/functions/create_partitions.py:8-25 | Label, then `partprobe`, then the `mkpart`s, stopping at the first failure, with no factor checked first; on success one path per partition. |
| Partitions.ProbeBeforeMkpart | endoreg_usb_encrypter/functions/create_partitions.py:8-20 | In every prefix of the plan each `mkpart` comes after the label and the `partprobe`. |
| Encrypt.EncryptPartition | endoreg_usb_encrypter/functions/encrypt_partition.py:6-41 | The method's new state and result equal the specification of `encrypt_partition`. |
| Encrypt.SetUp | endoreg_usb_encrypter/functions/encrypt_partition.py:16-25 | `luksFormat`, `open`, `mkfs.ext4` on the host equal their plan run. |
| Encrypt.MountAndQueryOn | endoreg_usb_encrypter/functions/encrypt_partition.py:28-38 | Creating the mount path when absent, `mount` and `luksUUID` on the host equal their specification. |
| Encrypt.EncryptOrder | endoreg_usb_encrypter/functions/encrypt_partition.py:10-38 | Without the key directory only `FileNotFoundError`. Otherwise the key file `<key_dir>/key-<base>.key` holds the key drawn first, no other key file changes, and the commands issued are a prefix of luksFormat, open, mkfs, mount, luksUUID, all of them exactly when every one succeeds. |
| Encrypt.EncryptIssuesPlan | endoreg_usb_encrypter/functions/encrypt_partition.py:16-38 | A successful encryption issued its whole plan and nothing else. |
| Encrypt.EncryptRunOrder | endoreg_usb_encrypter/functions/encrypt_partition.py:16-38 | After the key file is written the commands run in plan order. |
| Encrypt.TailOrder | endoreg_usb_encrypter/functions/encrypt_partition.py:28-38 | The mount and the UUID query continue a setup that succeeded. |
| Encrypt.MountAndQueryIsPlan | endoreg_usb_encrypter/functions/encrypt_partition.py:34-38 | The mount and the query are issued in order, stopping at the first failure. |
| Encrypt.EncryptWritesKeyFirst | endoreg_usb_encrypter/functions/encrypt_partition.py:10-16 | The key file is written before any command: the run is its commands from the state holding the new key. |
| Encrypt.EncryptRunLeaves | endoreg_usb_encrypter/functions/encrypt_partition.py:19-34 | On success the container is open as `luks-<base>`, mounted from `/dev/mapper/luks-<base>` at `join(mount_dir, luks-<base>)`, which exists; no key file changes. |
| Encrypt.EncryptRunAnswer | endoreg_usb_encrypter/functions/encrypt_partition.py:38-41 | On success the answer is the stripped `luksUUID` output of the fifth command and the key file path. |
| Encrypt.MountAndQueryResult | endoreg_usb_encrypter/functions/encrypt_partition.py:28-34 | A successful mount-and-query keeps the mappings and key files and mounts the container at its mount path. |
| Encrypt.MountAndQueryAnswer | endoreg_usb_encrypter/functions/encrypt_partition.py:34-38 | It issued two commands and answers the stripped output of the second, the `luksUUID` query. |
| Encrypt.SetupOpens | endoreg_usb_encrypter/functions/encrypt_partition.py:16-25 | A successful setup leaves the container open under its mapping name. |
| Encrypt.MkfsKeeps | endoreg_usb_encrypter/functions/encrypt_partition.py:25 | `mkfs.ext4` changes no mapping and no key file. |
| Decrypt.DecryptAndMount | endoreg_usb_encrypter/functions/decrypt_and_mount_partition.py:5-29 | The method's new state and result equal the specification of `decrypt_and_mount_partition`. |
| Decrypt.ReopenOn | endoreg_usb_encrypter/functions/decrypt_and_mount_partition.py:10-17 | The close-if-open and `open` step on the host equals its specification. |
| Decrypt.ReopenIsPlan | endoreg_usb_encrypter/functions/decrypt_and_mount_partition.py:10-17 | That step runs `close` (only when `/dev/mapper/luks-<base>` exists) and `open`, in order, stopping at the first failure. |
| Decrypt.ReopenOpens | endoreg_usb_encrypter/functions/decrypt_and_mount_partition.py:17 | A successful step leaves the mapping open and no other mapping changed. |
| Decrypt.DecryptOrder | endoreg_usb_encrypter/functions/decrypt_and_mount_partition.py:10-26 | Decryption issues a prefix of its plan in order and closes first exactly when the mapping was open; `open` uses the given key file and derived name; no key file changes. |
| Decrypt.DecryptSucceeds | endoreg_usb_encrypter/functions/decrypt_and_mount_partition.py:10-26 | Decryption succeeds exactly when every command of its plan does, and then it issued the whole plan. |
| Decrypt.DecryptSteps | endoreg_usb_encrypter/functions/decrypt_and_mount_partition.py:10-26 | Decryption is the close-then-open step, then creating the mount path when absent, then the `mount`. |
| Decrypt.MountAfter | endoreg_usb_encrypter/functions/decrypt_and_mount_partition.py:20-26 | The `mount` is issued after the step succeeded and the mount path exists. |
| Decrypt.DecryptResult | endoreg_usb_encrypter/functions/decrypt_and_mount_partition.py:20-29 | On success the result is `join(mount_dir, luks-<base>)`, which exists and holds the opened container; the mapping is open and no other mapping changed. |
| Decrypt.DecryptTwice | endoreg_usb_encrypter/functions/decrypt_and_mount_partition.py:10-12 | Decrypting again after a success closes the mapping first. |
| Unmount.UnmountPartitions | endoreg_usb_encrypter/functions/unmount_partitions.py:4-22 | The method's new state and result equal the specification of `unmount_partitions`. |
| Unmount.UnmountFrame | endoreg_usb_encrypter/functions/unmount_partitions.py:8-20 | The mount listing comes first and its failure stops everything; an empty listing issues nothing more; no mapping is opened or mount added; only `IndexError` or a command failure is raised. |
| Unmount.UnmountIssuesPlan | endoreg_usb_encrypter/functions/unmount_partitions.py:8-20 | A successful run issued the listing, then one `umount <mountpoint>` per listed mount point, in listing order. |
| Unmount.UnmountDetaches | endoreg_usb_encrypter/functions/unmount_partitions.py:13-20 | After a successful run each listed mount point is detached. |
| Unmount.UnmountIssuesOnly | endoreg_usb_encrypter/functions/unmount_partitions.py:8-20 | A successful run issued nothing but the listing and `umount`s. |
| Remount.UnmountAndMountAll | endoreg_usb_encrypter/functions/unmount_and_mount_all_partitions.py:8-25 | The method's new state and result equal the specification of `unmount_and_mount_all_partitions`. |
| Remount.DecryptAllAt | endoreg_usb_encrypter/functions/unmount_and_mount_all_partitions.py:20-23 | One turn of the decryption loop over name `k`, from its state before. |
| Remount.RemountNames | endoreg_usb_encrypter/functions/unmount_and_mount_all_partitions.py:19 | The names walked are exactly the listing lines matching `^[a-z]+[0-9]$`, in listing order. |
| Remount.JoinedNames | endoreg_usb_encrypter/functions/unmount_and_mount_all_partitions.py:19 | Matching names joined by newlines are their own strip and split back into the names. |
| Remount.JoinedNamesUnstripped | endoreg_usb_encrypter/functions/unmount_and_mount_all_partitions.py:19 | Matching names joined by newlines are their own strip. |
| Remount.DecryptAllOutcome | endoreg_usb_encrypter/functions/unmount_and_mount_all_partitions.py:20-23 | No key file is written; the `open` commands issued are, in order, a prefix of one `open` per listed partition in listing order, each with `<key_dir>/key-<name>.key` (the path encryption stored its key under), and all of them on success, when each listed partition's mapping is open. |
| Remount.Opens | endoreg_usb_encrypter/functions/unmount_and_mount_all_partitions.py:23 | The `open` commands of a list: every command it keeps is an `open`. |
| Remount.OpensConcat | endoreg_usb_encrypter/functions/unmount_and_mount_all_partitions.py:20-23 | The opens of two lists are those of the first, then those of the second. |
| Remount.OpensPrefix | endoreg_usb_encrypter/functions/unmount_and_mount_all_partitions.py:20-23 | The opens of a prefix are a prefix of the opens. |
| Remount.OpenCommands | endoreg_usb_encrypter/functions/unmount_and_mount_all_partitions.py:20-23 | One `open` per listed name, the k-th opening `/dev/<name>` as its mapping with `<key_dir>/key-<name>.key`. |
| Remount.DecryptPlanOpens | endoreg_usb_encrypter/functions/decrypt_and_mount_partition.py:10-26 | One partition's decryption plan holds exactly one `open`, that of its own container with the given key file. |
| Remount.DecryptAllOpens | endoreg_usb_encrypter/functions/unmount_and_mount_all_partitions.py:20-23 | The `open`s issued follow the listing, stopping where a decryption failed, and are all of them on success. |
| Remount.DecryptAllKeepsMappings | endoreg_usb_encrypter/functions/unmount_and_mount_all_partitions.py:20-23 | Every mapping open before a successful loop is open after it. |
| Remount.RemountOrder | endoreg_usb_encrypter/functions/unmount_and_mount_all_partitions.py:16-23 | The unmount's commands come first and its failure stops everything; then the partition listing, so nothing is opened before everything was unmounted; no key file is written. |
| Remount.RemountAfterUnmount | endoreg_usb_encrypter/functions/unmount_and_mount_all_partitions.py:19-23 | After the unmount the partition listing comes next and decryption writes no key file. |
| Provision.RecordedAppend | endoreg_usb_encrypter/main.py:116-123 | Appending one partition's entries to `result`, `hdd_info` and `key_files` keeps the three in step. |
| Provision.RecordedRecords | endoreg_usb_encrypter/main.py:116-123 | Lists in step are determined by the `hdd_info` entries. |
| Provision.ProvisionPartitions | endoreg_usb_encrypter/main.py:113-123 | The per-partition loop on the host equals its specification. |
| Provision.ProvisionFromAt | runner.py:131-141 | One turn of the loop over partition `k`, from its state before. |
| Provision.ProvisionOnePlan | runner.py:132-133 | A turn means to issue `mkfs.ext4`, `blkid`, then the five commands of the encryption: seven in all. |
| Provision.ProvisionPlan | runner.py:131-133 | The whole loop's commands, partition by partition. |
| Provision.ProvisionOneResult | runner.py:132-141 | A successful turn issued its seven commands in order and records the partition with its own `blkid` and `luksUUID` answers and key file, holding the key drawn after the format. |
| Provision.ProvisionOneIssues | runner.py:132-133 | A successful turn issued its seven commands in order. |
| Provision.ProvisionOneInfo | runner.py:136-141 | A successful turn's entry carries the partition, the UUIDs its own commands answered and its key file. |
| Provision.ProvisionOneKey | runner.py:133 | After a successful turn the partition's key file holds the key drawn after its format, and no other key file changed. |
| Provision.ProvisionOneNoKeyDir | runner.py:132-133 | Without the key directory a turn whose format succeeded raises `FileNotFoundError` and issues nothing after `blkid`. |
| Provision.ProvisionFromIssues | runner.py:131-141 | A successful loop issued every turn's commands in partition order, kept every key file and left each partition's key file in place. |
| Provision.Strided | runner.py:136-141 | The entries for a list of partitions whose turns start seven commands apart, one per partition. |
| Provision.StridedAt | runner.py:136-141 | The k-th entry is the k-th partition's, its turn starting `7*k` commands after the first. |
| Provision.ProvisionFromValues | runner.py:131-141 | A successful loop appended the expected entry of every partition, in order, after those it started with. |
| Provision.ProvisionEachValues | endoreg_usb_encrypter/main.py:113-123 | After the loop `hdd_info["partitions"]` has one entry per partition, in order, each with its own `blkid` and `luksUUID` answers and key file. |
| Provision.InfoOfFields | endoreg_usb_encrypter/main.py:118-123 | A partition's entry names that partition and its key file. |
| Provision.StridedFields | endoreg_usb_encrypter/main.py:118-123 | Entries laid out partition by partition each name their partition and key file. |
| Provision.ProvisionEachFields | endoreg_usb_encrypter/main.py:113-123 | After the loop the k-th entry names the k-th partition and its own key file. |
| Session.Prepare | endoreg_usb_encrypter/main.py:95-123 | Cleanup, partitioning and the per-partition loop on the host equal their specification. |
| Session.PrepareOrder | runner.py:114-141 | On success: cleanup's commands (the listing first, `partprobe` last), then label, `partprobe` and one `mkpart` per partition, then each partition's seven commands. |
| Session.PrepareRecords | runner.py:131-141 | On success one entry per created partition, in order, each with its partition path, key file and own UUIDs; `result` and `key_files` agree entry by entry. |
| Nix.Terminated | runner.py:32-48 | Each line followed by its newline. |
| Nix.BlockLines | runner.py:38-48 | The eleven lines of one block: comment, name, label, device by UUID and by label, the fixed `/mnt/sensitive-hdd-mount/` mount point, both UUIDs, the LUKS device and `fsType = "ext4"`. |
| Nix.Blocks | runner.py:36-48 | The pieces for the first `len(partitions)` partitions, the i-th block named `partition_names[i]`. |
| Nix.WriteNixConfiguration | runner.py:29-57 | The loop on a growing list of pieces returns the specified text, or `IndexError` when a partition has no name. |
| Nix.BlocksStep | runner.py:36-48 | One more turn appends the next partition's block. |
| Nix.NixLines | runner.py:32-51 | The configuration lines: three header lines, eleven per partition in order, two closing lines. |
| Nix.BlockLinesOf | runner.py:36-48 | The block lines of all partitions, eleven each. |
| Nix.BlocksTerminated | runner.py:36-48 | The block pieces are the block lines, each with its newline. |
| Nix.ConcatTerminated | runner.py:55 | Newline-terminated lines followed by a last piece join into all of them joined by newlines. |
| Nix.NixTextJoined | runner.py:32-55 | The text is the configuration lines joined by newlines. |
| Nix.BlockLinesOfAt | runner.py:36-48 | The i-th block is the i-th partition's, named by the i-th name, carrying its UUIDs. |
| Nix.NixBlockAt | runner.py:36-48 | Lines `3+11i` to `3+11i+10` are the block of partition `i`, in partition order. |
| Nix.NixTextFrame | runner.py:32-51 | The text begins with `{ ... }:\nlet\n  sensitive-hdd = {\n` and ends with `  };\nin sensitive-hdd`. |
| Nix.HeadText | runner.py:32-34 | The header pieces join into the opening text. |
| Nix.FootText | runner.py:50-51 | The footer pieces join into the closing text. |
| Nix.HeaderTerminated | runner.py:32-34 | The header pieces are the header lines with newlines. |
| Nix.FooterTerminated | runner.py:50-51 | The footer is one terminated line and the unterminated last one. |
| Nix.NixTextFails | runner.py:37 | `IndexError` exactly when there are more partitions than names. |
| Runner.PathText | runner.py:77-78 | `str(Path(p))` drops leading `./` components. |
| Runner.PathTextDropsDot | runner.py:24 | The default key directory `./sensitive-hdd-keys` is rendered `sensitive-hdd-keys`. |
| Runner.ChosenDevice | runner.py:103-106 | The fixed `/dev/sdb` in a test run, otherwise the stripped answer. |
| Runner.RunnerMain | runner.py:61-157 | The entry point on the host equals its specification. |
| Runner.FinishSteps | runner.py:154-157 | The end succeeds only when session, configuration and remount all did, and reports the records and the text in the remount's state. |
| Runner.RunnerChecksFirst | runner.py:81-101 | A missing mount directory raises `FileNotFoundError`, then a wrong owner or group `PermissionError`, before anything is created or issued; past them the key directory exists before the listing. |
| Runner.ListedSteps | runner.py:101-111 | Without a `yes` the run stops right after the listing; with one it continues from the state after the listing. |
| Runner.ConfirmedProvisions | runner.py:108-157 | After the confirmation the run never reports a cancel. |
| Runner.CancelReaches | runner.py:81-111 | A canceled run passed the checks and the listing and was not confirmed. |
| Runner.RunnerCancel | runner.py:108-111 | A canceled run's confirmation, stripped and lower-cased, is not `yes`; it created the key directory, issued only the listing and changed nothing else. |
| Runner.ListingOnly | runner.py:91-101 | Creating the key directory and listing the disks issue only the listing and change only the directories. |
| Runner.RunnerCancelWhen | runner.py:108-111 | A run past the checks and the listing is canceled when the confirmation is not `yes`. |
| Runner.RunnerDevice | runner.py:87-114 | A provisioned run formatted the device the test flag or answer named, only after a `yes` and with the right owner and group. |
| Runner.RunnerReaches | runner.py:81-157 | A provisioned run passed the checks, listed and was confirmed, and the rest ran from the state after the listing. |
| Runner.PrepareNixText | runner.py:117-154 | After a successful session the configuration step cannot raise `IndexError`. |
| Runner.ConfirmedOrder | runner.py:114-157 | After the confirmation: session, then remount; the records are the session's and the text is built from them and the names. |
| Runner.RunnerOrder | runner.py:101-157 | A provisioned run issued the listing, then the session's commands, then the remount's, and nothing else. |
| Runner.RunnerRecords | runner.py:131-154 | The records name the created partitions in order with their key files, and the text is header, one block per partition named by the matching name, and footer. |
| PackageMain.PartitionNames | endoreg_usb_encrypter/main.py:34-38 | Three comma fields are each stripped; any other count gives `dropoff`, `pseudo`, `processed`. |
| PackageMain.StripWithout | endoreg_usb_encrypter/main.py:38 | A stripped field holds no character its text does not. |
| PackageMain.NamesFallback | endoreg_usb_encrypter/main.py:35-36 | An answer without a comma gives the default names. |
| PackageMain.NamesRoundTrip | endoreg_usb_encrypter/main.py:34-38 | Three clean comma-free names joined by commas read back as themselves. |
| PackageMain.ParseFloat | endoreg_usb_encrypter/main.py:43 | `float(s)` on decimal text: whitespace, an optional sign, digits with at most one point; anything else is `ValueError`. |
| PackageMain.ReadNumber | endoreg_usb_encrypter/main.py:43 | A signed decimal number without surrounding whitespace reads as its value. |
| PackageMain.ReadDigits | endoreg_usb_encrypter/main.py:43 | Unsigned digits read as their value. |
| PackageMain.ParseFloatDecimal | endoreg_usb_encrypter/main.py:43 | A whole number written in decimal reads back as itself. |
| PackageMain.DecimalPlain | endoreg_usb_encrypter/main.py:43 | A decimal rendering has no whitespace, sign, point or comma. |
| PackageMain.ParseFloatBlank | endoreg_usb_encrypter/main.py:43 | Blank text is not a number. |
| PackageMain.StripBlank | endoreg_usb_encrypter/main.py:41-42 | Stripping blank text leaves nothing. |
| PackageMain.ParseEach | endoreg_usb_encrypter/main.py:43 | Each comma field parsed and divided by 100, in order, or the first parse error. |
| PackageMain.ParseEachOk | endoreg_usb_encrypter/main.py:43 | Fields that parse to 100 times the given values give those values. |
| PackageMain.SizeFactors | endoreg_usb_encrypter/main.py:41-48 | A blank answer gives the defaults; a bad field raises `ValueError`; otherwise the parsed fractions when there are three summing to 1, else the defaults. |
| PackageMain.SizeBlank | endoreg_usb_encrypter/main.py:42-48 | A blank answer gives the defaults. |
| PackageMain.SizeRoundTrip | endoreg_usb_encrypter/main.py:41-46 | Three whole percentages written and joined by commas give the percentages over 100 when they add up to 100, the defaults otherwise. |
| PackageMain.PercentSum | endoreg_usb_encrypter/main.py:44 | Three percentages over 100 add up to 1 exactly when they add up to 100. |
| PackageMain.SizeFactorsOfThree | endoreg_usb_encrypter/main.py:43-46 | An answer whose three fields read as `p`, `q`, `r` over 100 gives those fractions when `p+q+r = 100`, the defaults otherwise. |
| PackageMain.JoinedFields | endoreg_usb_encrypter/main.py:41-43 | Three decimals joined by commas are their own strip and split back into themselves. |
| PackageMain.JoinedThree | endoreg_usb_encrypter/main.py:41-43 | Three comma-free fields with clean outer ends, joined by commas, are their own strip and split back into themselves. |
| PackageMain.ParseEachThree | endoreg_usb_encrypter/main.py:43 | `ParseEachOk` for three fields. |
| PackageMain.ParseEachWhole | endoreg_usb_encrypter/main.py:43 | Three fields read as whole numbers give those numbers over 100. |
| PackageMain.FractionsDecimal | endoreg_usb_encrypter/main.py:43 | Three decimals read as the percentages they write. |
| PackageMain.SizeBlankField | endoreg_usb_encrypter/main.py:43 | An answer with a blank field, such as `33,,67`, raises `ValueError`. |
| PackageMain.ChosenDir | endoreg_usb_encrypter/main.py:51-53 | The stripped answer, or the default when it is blank. |
| PackageMain.MainRun | endoreg_usb_encrypter/main.py:17-136 | The entry point on the host equals its specification. |
| PackageMain.Setup | endoreg_usb_encrypter/main.py:51-92 | The directories, the confirmation and what follows on the host equal their specification. |
| PackageMain.Proceed | endoreg_usb_encrypter/main.py:95-136 | The session and then the remount on the host equal their specification. |
| PackageMain.MainSteps | endoreg_usb_encrypter/main.py:30-51 | The run is the listing, then the setup from the state after it, once the listing and the size answer succeeded; otherwise it fails. |
| PackageMain.MainUserMountDir | endoreg_usb_encrypter/main.py:51-62 | A user-named mount directory is never created: if absent the run raises `FileNotFoundError` right after the listing. |
| PackageMain.DirsReadyState | endoreg_usb_encrypter/main.py:51-79 | The key directory exists; exactly the default mount directory (when chosen) and the key directory were added; nothing else changed. |
| PackageMain.MainCancel | endoreg_usb_encrypter/main.py:89-92 | A canceled run was not confirmed, issued only the listing, created only those directories and changed nothing else. |
| PackageMain.SetupCancel | endoreg_usb_encrypter/main.py:89-92 | The setup cancels only without a `yes`, in the state with the directories in place. |
| PackageMain.ConcludeSteps | endoreg_usb_encrypter/main.py:113-136 | The end succeeds only when the session and the remount did, reporting the session's records in the remount's state. |
| PackageMain.MainReaches | endoreg_usb_encrypter/main.py:30-136 | A formatted run listed, read the sizes, had its mount directory, was confirmed, and ran session and remount from the state with the directories in place. |
| PackageMain.ProceedOrder | endoreg_usb_encrypter/main.py:95-136 | A formatted run ran the session, then the remount, which was last. |
| PackageMain.MainOrder | endoreg_usb_encrypter/main.py:30-136 | A formatted run formatted the stripped device answer after a `yes` and issued the listing, the session's commands and the remount's, and nothing else. |
| PackageMain.MainRecords | endoreg_usb_encrypter/main.py:113-123 | The records have one entry per created partition, at most three, in order, each naming its partition and its key file under the chosen key directory. |

## Left out

- Subprocesses and the shell: `lsblk`, `grep`, `parted`, `partprobe`, `cryptsetup`, `mkfs.ext4`, `blkid` and `mount` are not simulated. An oracle indexed by trace position gives each command's exit status and output. The model applies grep's line filter to the listing's output itself, as a substring match for `disk`, `crypt` and the mount directory (see `Shell.Output` below) and as `^[a-z]+[0-9]$` for the partition names. Grep's exit status 1 when nothing matches is left to the oracle, so the empty-listing branches are reachable in the model even where the real pipeline fails.
- `Shell.Output`: grep's pattern is matched as a plain substring of each line. The mount directory is passed to grep unquoted as a basic regular expression, so its regex metacharacters, word splitting of a directory with spaces, and a directory that reads as a grep option are not modelled. For the fixed patterns `disk` and `crypt` the two readings coincide.
- `Shell.Effect`: the effect of a successful command on mappings and mounts is an abstraction of the devices; the actual kernel state is not modelled.
- Logging: only the one debug or error entry of `run_command` is modelled, with its command and text; `logger.info`, `warning` and the setup in custom_logging.py are not part of this model.
- Prompts, argparse and `print`: every `input()` answer is a parameter; the argparse blocks and printed text are not modelled.
- JSON output and the nix file write: the `result` and `hdd_info` lists are returned as `Provision.Records`, and the nix text is returned as a string rather than written.
- Ownership and permissions: `chown`, `chmod`, `Path.owner()` and `Path.group()` are not modelled. In runner.py the mount directory's owner and group are parameters. In main.py the `chown` of an absent user-named mount directory raises `FileNotFoundError`, and the `chown` of the key directory (line 83) and a missing user or group (`LookupError`) are not modelled.
- Randomness: `secrets.token_bytes(32)` is an entropy parameter, a function from trace position to a 32-byte key.
- `Partitions.Trunc`: floats are exact reals, so Python's rounding is not reproduced; `int()` truncates the exact value, and `sum(...) != 1.0` in `PackageMain.SizeFactors` compares exact sums (0.33 three times is not 1 either way).
- `PackageMain.ParseFloat`: accepts an optional sign, digits and at most one point; exponents, `inf`, `nan` and underscores are rejected here although Python accepts them.
- `Runner.PathText`: `Path` normalisation is modelled only for leading `./`; other forms (doubled or trailing slashes) are not normalised.
- `Shell.Host.MakeDirsIfAbsent`: creates the one directory asked for; the parent directories `makedirs` also creates are not tracked.
- `Text.Lines`: `splitlines()` is modelled for `'\n'` only; UTF-8 decoding is not modelled (output is already text).
- `Text.Lower`: only ASCII letters are lower-cased.
- `Provision.ProvisionEachValues`: the per-entry UUIDs are stated through `Provision.Strided` and `Provision.StridedAt` (the k-th entry's answers come from trace positions `at + 7k + 1` and `at + 7k + 6`) rather than as one closed formula per entry.
- The package `__init__.py` only re-exports; the logging and `list_devices` tests are not part of this model, the latter having its assertions commented out.
