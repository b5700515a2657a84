/** `run_command` (endoreg_usb_encrypter/functions/base.py): every external
    utility the encrypter calls, the world that answers it, and the one
    abstract step that issues a command, records it and either returns its
    stripped output or raises the failure. */
module Shell {
  import opened Text
  import opened Names

  /** The commands the encrypter issues, one constructor per command line. */
  datatype Command =
    | ListDisks                                        // lsblk ... -dn | grep 'disk'
    | Mkfs(target: string)                             // mkfs.ext4 <target>
    | Blkid(partition: string)                         // blkid -s UUID -o value <partition>
    | Mklabel(device: string)                          // parted -s <device> mklabel gpt
    | Partprobe(device: string)                        // partprobe <device>
    | Mkpart(device: string, name: string, startPercent: int, endPercent: int)
    | ListMounts(target: string)                       // lsblk -ln -o NAME,MOUNTPOINT <target>
    | Umount(target: string)                           // umount <target>
    | ListCrypt                                        // lsblk -ln -o NAME,TYPE | grep crypt
    | Close(name: string)                              // cryptsetup close <name>
    | LuksFormat(partition: string, keyFile: string)   // cryptsetup luksFormat <p> <key> -q
    | Open(partition: string, name: string, keyFile: string)
    | Mount(source: string, mountPath: string)         // mount <source> <path>
    | LuksUuid(partition: string)                      // cryptsetup luksUUID <partition>
    | ListMountsUnder(mountDir: string)                // lsblk ... | grep <mount_dir>
    | ListPartitionNames(device: string)               // lsblk -ln -o NAME <device> | grep -E ...

  function IntText(i: int): string
  {
    if i < 0 then "-" + Decimal(-i) else Decimal(i)
  }

  /** The shell text `run_command` is given for each command. */
  function CommandLine(c: Command): string
  {
    match c
    case ListDisks => "lsblk -o NAME,SIZE,TYPE,MOUNTPOINT -dn | grep 'disk'"
    case Mkfs(t) => "mkfs.ext4 " + t
    case Blkid(p) => "blkid -s UUID -o value " + p
    case Mklabel(d) => "parted -s " + d + " mklabel gpt"
    case Partprobe(d) => "partprobe " + d
    case Mkpart(d, n, a, b) =>
      "parted -s " + d + " mkpart " + n + " ext4 " + IntText(a) + "% " + IntText(b) + "%"
    case ListMounts(t) => "lsblk -ln -o NAME,MOUNTPOINT " + t
    case Umount(t) => "umount " + t
    case ListCrypt => "lsblk -ln -o NAME,TYPE | grep crypt"
    case Close(n) => "cryptsetup close " + n
    case LuksFormat(p, k) => "cryptsetup luksFormat " + p + " " + k + " -q"
    case Open(p, n, k) => "cryptsetup open " + p + " " + n + " --key-file=" + k
    case Mount(s, t) => "mount " + s + " " + t
    case LuksUuid(p) => "cryptsetup luksUUID " + p
    case ListMountsUnder(d) => "lsblk -ln -o NAME,MOUNTPOINT | grep " + d
    case ListPartitionNames(d) => "lsblk -ln -o NAME " + d + " | grep -E '^[a-z]+[0-9]$'"
  }

  // ---------------------------------------------------------------------
  // The world

  /** What the shell reports for one command: its exit status, its standard
      output (for a pipeline: that of the listing program before `grep`)
      and its standard error. */
  datatype Reply = Reply(code: int, stdout: string, stderr: string)

  /** The answer to the command issued at each position of the trace. */
  type Oracle = (nat, Command) -> Reply

  /** 32 bytes, the length `secrets.token_bytes(32)` returns. */
  type Key = k: seq<bv8> | |k| == 32 witness seq(32, _ => 0)

  /** The random key drawn when the trace has a given length. */
  type Entropy = nat -> Key

  /** The lines of a listing that contain `pattern` (`grep <pattern>`). */
  function LinesContaining(ls: seq<string>, pattern: string): (r: seq<string>)
    ensures |r| <= |ls|
    ensures forall i :: 0 <= i < |r| ==> r[i] in ls && Contains(r[i], pattern)
  {
    if ls == [] then []
    else (if Contains(ls[0], pattern) then [ls[0]] else []) + LinesContaining(ls[1..], pattern)
  }

  /** The lines of a listing that match `^[a-z]+[0-9]$` (`grep -E`). */
  function PartitionNameLines(ls: seq<string>): (r: seq<string>)
    ensures |r| <= |ls|
    ensures forall i :: 0 <= i < |r| ==> r[i] in ls && IsPartitionName(r[i])
  {
    if ls == [] then []
    else (if IsPartitionName(ls[0]) then [ls[0]] else []) + PartitionNameLines(ls[1..])
  }

  /** `grep` keeps every listing line that contains the pattern. */
  lemma {:induction false} LinesContainingHas(ls: seq<string>, pattern: string, l: string)
    requires l in ls && Contains(l, pattern)
    ensures l in LinesContaining(ls, pattern)
    decreases |ls|
  {
    if l != ls[0] {
      assert l in ls[1..];
      LinesContainingHas(ls[1..], pattern, l);
    }
  }

  /** `grep -E '^[a-z]+[0-9]$'` keeps every listing line that matches. */
  lemma {:induction false} PartitionNameLinesHas(ls: seq<string>, l: string)
    requires l in ls && IsPartitionName(l)
    ensures l in PartitionNameLines(ls)
    decreases |ls|
  {
    if l != ls[0] {
      assert l in ls[1..];
      PartitionNameLinesHas(ls[1..], l);
    }
  }

  /** The standard output of a command: the `grep` stage of a pipeline keeps
      the matching lines of the listing (its final newline is left out, as
      `run_command` strips it anyway). */
  function Output(c: Command, raw: string): string
  {
    match c
    case ListDisks => JoinLines(LinesContaining(Lines(raw), "disk"))
    case ListCrypt => JoinLines(LinesContaining(Lines(raw), "crypt"))
    case ListMountsUnder(dir) => JoinLines(LinesContaining(Lines(raw), dir))
    case ListPartitionNames(_) => JoinLines(PartitionNameLines(Lines(raw)))
    case _ => raw
  }

  // ---------------------------------------------------------------------
  // State

  /** The entries `run_command` writes to the logger: a debug entry for a
      command that succeeded, an error entry for one that failed. */
  datatype LogEntry = Debug(command: Command, output: string) | Error(command: Command, stderr: string)

  /** The text of a log entry. */
  function Message(e: LogEntry): string
  {
    match e
    case Debug(c, output) => "Command '" + CommandLine(c) + "' succeeded with output: " + output
    case Error(c, stderr) => "Command '" + CommandLine(c) + "' failed with error: " + stderr
  }

  /** The exceptions that leave the encrypter's functions. */
  datatype Failure =
    | CalledProcessError(command: Command, code: int, stderr: string)
    | IndexError
    | FileNotFoundError(path: string)
    | PermissionError(path: string)
    | ValueError(text: string)

  datatype Result<T> = Ok(value: T) | Err(error: Failure)

  /** Everything the encrypter can observe or change: the commands issued so
      far, the log, the open device-mapper names, the mounts (mount point to
      mounted source), the existing directories and the key files. */
  datatype Machine = Machine(
    trace: seq<Command>,
    log: seq<LogEntry>,
    mappings: set<string>,
    mounts: map<string, string>,
    dirs: set<string>,
    keys: map<string, Key>)

  /** A state together with what an operation returned or raised. */
  datatype Step<T> = Step(state: Machine, result: Result<T>)

  /** The commands issued between two states. */
  function Issued(before: Machine, after: Machine): seq<Command>
  {
    if |before.trace| <= |after.trace| then after.trace[|before.trace|..] else []
  }

  /** Commands issued from `a` to `b` and then from `b` to `c` are those
      issued from `a` to `c`. */
  lemma IssuedConcat(a: Machine, b: Machine, c: Machine)
    requires a.trace <= b.trace <= c.trace
    ensures a.trace <= c.trace
    ensures Issued(a, c) == Issued(a, b) + Issued(b, c)
  {
    assert c.trace[..|b.trace|] == b.trace;
  }

  /** `umount <target>` detaches every mount whose mount point or source is `target`. */
  function Detach(mounts: map<string, string>, target: string): (r: map<string, string>)
    ensures target !in r && forall p :: p in r ==> p in mounts && r[p] == mounts[p] && r[p] != target
  {
    map p | p in mounts && p != target && mounts[p] != target :: mounts[p]
  }

  /** `umount <target>` keeps every mount that neither sits at nor comes from `target`. */
  lemma DetachKeeps(mounts: map<string, string>, target: string, p: string)
    requires p in mounts && p != target && mounts[p] != target
    ensures p in Detach(mounts, target) && Detach(mounts, target)[p] == mounts[p]
  {
  }

  /** What a successful command does to the mappings and mounts. */
  function Effect(m: Machine, c: Command): (m': Machine)
    ensures m' == m.(mappings := m'.mappings, mounts := m'.mounts)
  {
    match c
    case Open(_, name, _) => m.(mappings := m.mappings + {name})
    case Close(name) => m.(mappings := m.mappings - {name})
    case Mount(source, path) => m.(mounts := m.mounts[path := source])
    case Umount(target) => m.(mounts := Detach(m.mounts, target))
    case _ => m
  }

  /** What `run_command(c)` returns if `c`, issued at trace position `at`,
      succeeds. */
  function AnswerAt(w: Oracle, at: nat, c: Command): string
  {
    Strip(Output(c, w(at, c).stdout))
  }

  /** What `run_command(c)` returns if `c`, issued next from `m`, succeeds. */
  function Answer(w: Oracle, m: Machine, c: Command): string
  {
    AnswerAt(w, |m.trace|, c)
  }

  /** `run_command(c)`: the command is issued exactly once; a zero exit
      status returns its output stripped of surrounding whitespace and logs
      one debug entry; any other status raises `CalledProcessError` carrying
      the command, status and error text, and logs one error entry. */
  function Exec(w: Oracle, m: Machine, c: Command): (s: Step<string>)
    ensures s.state.trace == m.trace + [c]
    ensures s.state.dirs == m.dirs && s.state.keys == m.keys
    ensures !c.Open? && !c.Close? ==> s.state.mappings == m.mappings
    ensures !c.Mount? && !c.Umount? ==> s.state.mounts == m.mounts
    ensures var reply := w(|m.trace|, c);
      if reply.code == 0 then
        && s.result == Ok(Answer(w, m, c))
        && s.state.log == m.log + [Debug(c, s.result.value)]
      else
        && s.result == Err(CalledProcessError(c, reply.code, reply.stderr))
        && s.state.log == m.log + [Error(c, reply.stderr)]
        && s.state.mappings == m.mappings && s.state.mounts == m.mounts
  {
    var reply := w(|m.trace|, c);
    if reply.code == 0 then
      var out := Answer(w, m, c);
      Step(Effect(m, c).(trace := m.trace + [c], log := m.log + [Debug(c, out)]), Ok(out))
    else
      Step(m.(trace := m.trace + [c], log := m.log + [Error(c, reply.stderr)]),
           Err(CalledProcessError(c, reply.code, reply.stderr)))
  }

  /** Every mount of `small` is a mount of `big`. */
  predicate Submap(small: map<string, string>, big: map<string, string>)
  {
    forall p :: p in small ==> p in big && small[p] == big[p]
  }

  /** Nothing is mounted at `target` and nothing mounted comes from `target`. */
  predicate Detached(mounts: map<string, string>, target: string)
  {
    target !in mounts && forall p :: p in mounts ==> mounts[p] != target
  }

  /** From `m` to `m'` commands were only added to the trace, no directory
      or key file changed, no mapping was opened and no mount added. */
  ghost predicate Shrinks(m: Machine, m': Machine)
  {
    && m.trace <= m'.trace
    && m'.dirs == m.dirs && m'.keys == m.keys
    && m'.mappings <= m.mappings
    && Submap(m'.mounts, m.mounts)
  }

  lemma ShrinksTrans(a: Machine, b: Machine, c: Machine)
    requires Shrinks(a, b) && Shrinks(b, c)
    ensures Shrinks(a, c)
  {
    assert c.trace[..|a.trace|] == b.trace[..|a.trace|];
  }

  /** A command that neither opens a mapping nor mounts anything can only
      close mappings and detach mounts. */
  lemma ExecShrinks(w: Oracle, m: Machine, c: Command)
    requires !c.Open? && !c.Mount?
    ensures Shrinks(m, Exec(w, m, c).state)
  {
  }

  /** A successful `cryptsetup close` leaves its mapping closed. */
  lemma ExecClose(w: Oracle, m: Machine, name: string)
    ensures var s := Exec(w, m, Close(name));
      s.result.Ok? ==> s.state.mappings == m.mappings - {name}
  {
  }

  /** A successful `cryptsetup open` leaves its mapping open. */
  lemma ExecOpen(w: Oracle, m: Machine, partition: string, name: string, keyFile: string)
    ensures var s := Exec(w, m, Open(partition, name, keyFile));
      s.result.Ok? ==> s.state.mappings == m.mappings + {name}
  {
  }

  /** A successful `mount` records its source at its mount point. */
  lemma ExecMount(w: Oracle, m: Machine, source: string, path: string)
    ensures var s := Exec(w, m, Mount(source, path));
      s.result.Ok? ==> s.state.mounts == m.mounts[path := source]
  {
  }

  /** A successful `umount` leaves its target detached. */
  lemma ExecUmount(w: Oracle, m: Machine, target: string)
    ensures var s := Exec(w, m, Umount(target));
      s.result.Ok? ==> Detached(s.state.mounts, target)
  {
  }

  /** Detaching survives the loss of further mounts. */
  lemma DetachedSubmap(small: map<string, string>, big: map<string, string>, target: string)
    requires Submap(small, big) && Detached(big, target)
    ensures Detached(small, target)
  {
  }

  /** Issuing a list of commands in order, stopping at the first that fails. */
  function ExecAll(w: Oracle, m: Machine, cmds: seq<Command>): Step<()>
    decreases |cmds|
  {
    if cmds == [] then Step(m, Ok(()))
    else
      var s := Exec(w, m, cmds[0]);
      if s.result.Err? then Step(s.state, Err(s.result.error))
      else ExecAll(w, s.state, cmds[1..])
  }

  /** One step of `ExecAll`: the first command, then the rest if it succeeded. */
  lemma ExecAllCons(w: Oracle, m: Machine, c: Command, rest: seq<Command>)
    ensures var s := Exec(w, m, c);
      ExecAll(w, m, [c] + rest)
        == if s.result.Err? then Step(s.state, Err(s.result.error)) else ExecAll(w, s.state, rest)
  {
    assert ([c] + rest)[1..] == rest;
  }

  /** A plan of one command is that command, without its output. */
  lemma ExecAllOne(w: Oracle, m: Machine, c: Command)
    ensures var s := Exec(w, m, c);
      ExecAll(w, m, [c]) == Step(s.state, if s.result.Err? then Err(s.result.error) else Ok(()))
  {
    assert [c][1..] == [];
  }

  /** The remaining run of a plan from position `k`: command `k`, then the
      rest if it succeeded. */
  lemma ExecAllAt(w: Oracle, m: Machine, cmds: seq<Command>, k: nat)
    requires k < |cmds|
    ensures var s := Exec(w, m, cmds[k]);
      ExecAll(w, m, cmds[k..])
        == if s.result.Err? then Step(s.state, Err(s.result.error)) else ExecAll(w, s.state, cmds[k + 1..])
  {
    assert cmds[k..][0] == cmds[k];
    assert cmds[k..][1..] == cmds[k + 1..];
  }

  /** Every command of `cmds`, issued from trace position `at` on, exits 0. */
  ghost predicate Succeeded(w: Oracle, at: nat, cmds: seq<Command>)
  {
    forall j :: 0 <= j < |cmds| ==> w(at + j, cmds[j]).code == 0
  }

  /** Two command lists issued one after the other all succeed exactly when
      each does at its own positions. */
  lemma SucceededConcat(w: Oracle, at: nat, a: seq<Command>, b: seq<Command>)
    ensures Succeeded(w, at, a + b) <==> Succeeded(w, at, a) && Succeeded(w, at + |a|, b)
  {
    var ab := a + b;
    if Succeeded(w, at, ab) {
      forall j | 0 <= j < |a| ensures w(at + j, a[j]).code == 0 {
        assert ab[j] == a[j];
      }
      forall j | 0 <= j < |b| ensures w(at + |a| + j, b[j]).code == 0 {
        assert ab[|a| + j] == b[j];
      }
    }
    if Succeeded(w, at, a) && Succeeded(w, at + |a|, b) {
      forall j | 0 <= j < |ab| ensures w(at + j, ab[j]).code == 0 {
        if j >= |a| {
          assert ab[j] == b[j - |a|];
        }
      }
    }
  }

  /** The failure of the last command issued between `m` and `after`. */
  ghost predicate FailedLast(w: Oracle, m: Machine, after: Machine, e: Failure)
  {
    var issued := Issued(m, after);
    && issued != []
    && var last := issued[|issued| - 1];
    && var reply := w(|after.trace| - 1, last);
    && reply.code != 0
    && e == CalledProcessError(last, reply.code, reply.stderr)
  }

  /** A failure that ended the commands issued from `b` also ended those
      issued from any earlier `a`. */
  lemma FailedLastFrom(w: Oracle, a: Machine, b: Machine, c: Machine, e: Failure)
    requires a.trace <= b.trace <= c.trace
    requires FailedLast(w, b, c, e)
    ensures FailedLast(w, a, c, e)
  {
    IssuedConcat(a, b, c);
    var tail := Issued(b, c);
    assert Issued(a, c)[|Issued(a, c)| - 1] == tail[|tail| - 1];
  }

  /** `s` is what running `cmds` from `m` may end in: a prefix of `cmds` was
      issued, all of it exactly when every command exits 0, otherwise up to
      and including the first command that fails, whose failure is raised;
      directories and key files are untouched. */
  ghost predicate RanInOrder<T>(w: Oracle, m: Machine, cmds: seq<Command>, s: Step<T>)
  {
    var issued := Issued(m, s.state);
    && m.trace <= s.state.trace
    && issued <= cmds
    && (s.result.Ok? <==> Succeeded(w, |m.trace|, cmds))
    && (s.result.Ok? ==> issued == cmds)
    && (s.result.Err? ==>
          && FailedLast(w, m, s.state, s.result.error)
          && Succeeded(w, |m.trace|, issued[..|issued| - 1]))
    && s.state.dirs == m.dirs && s.state.keys == m.keys
  }

  /** Running a command list issues a prefix of it, in order, stopping at
      the first command that fails. */
  lemma {:induction false} ExecAllIssues(w: Oracle, m: Machine, cmds: seq<Command>)
    ensures RanInOrder(w, m, cmds, ExecAll(w, m, cmds))
    decreases |cmds|
  {
    if cmds != [] {
      var s1 := Exec(w, m, cmds[0]);
      if s1.result.Ok? {
        ExecAllIssues(w, s1.state, cmds[1..]);
        ExecAllContinues(w, m, cmds);
      } else {
        ExecAllStops(w, m, cmds);
      }
    }
  }

  /** Running a command list succeeds exactly when every command does. */
  lemma ExecAllOk(w: Oracle, m: Machine, cmds: seq<Command>)
    ensures ExecAll(w, m, cmds).result.Ok? <==> Succeeded(w, |m.trace|, cmds)
  {
    ExecAllIssues(w, m, cmds);
  }

  /** Running a command list extends the trace, by the whole list when it
      succeeds. */
  lemma ExecAllExtends(w: Oracle, m: Machine, cmds: seq<Command>)
    ensures var t := ExecAll(w, m, cmds);
      && m.trace <= t.state.trace
      && (t.result.Ok? ==> Issued(m, t.state) == cmds)
  {
    ExecAllIssues(w, m, cmds);
  }

  /** A run `t` of a command list, followed by one more command: `done`
      holds exactly when the list ran to the end and the command after it
      exited 0, and then both were issued. */
  lemma ThenOne(w: Oracle, m: Machine, cmds: seq<Command>, t: Step<()>, c: Command, last: Machine, done: bool)
    requires t.result.Ok? <==> Succeeded(w, |m.trace|, cmds)
    requires m.trace <= t.state.trace && (t.result.Ok? ==> Issued(m, t.state) == cmds)
    requires t.result.Err? ==> !done
    requires t.result.Ok? ==> last.trace == t.state.trace + [c] && (done <==> w(|t.state.trace|, c).code == 0)
    ensures done <==> Succeeded(w, |m.trace|, cmds + [c])
    ensures done ==> m.trace <= last.trace && Issued(m, last) == cmds + [c]
  {
    SucceededConcat(w, |m.trace|, cmds, [c]);
    if t.result.Ok? {
      assert |t.state.trace| == |m.trace| + |cmds|;
      SucceededOne(w, |m.trace| + |cmds|, c);
      assert last.trace[|m.trace|..] == t.state.trace[|m.trace|..] + [c];
    }
  }

  /** One command succeeds at `at` exactly when it exits 0 there. */
  lemma SucceededOne(w: Oracle, at: nat, c: Command)
    ensures Succeeded(w, at, [c]) <==> w(at, c).code == 0
  {
    assert [c][0] == c;
  }

  /** A procedure that ends like running `cmds` (same state, same outcome,
      same failure) ran `cmds` in order, whatever value it returns. */
  lemma RanInOrderAs<T>(w: Oracle, m: Machine, cmds: seq<Command>, run: Step<()>, s: Step<T>)
    requires RanInOrder(w, m, cmds, run)
    requires s.state == run.state && (s.result.Ok? <==> run.result.Ok?)
    requires s.result.Err? ==> s.result.error == run.result.error
    ensures RanInOrder(w, m, cmds, s)
  {
  }

  /** A first command that succeeds is followed by the rest of the list. */
  lemma ExecAllContinues(w: Oracle, m: Machine, cmds: seq<Command>)
    requires cmds != [] && Exec(w, m, cmds[0]).result.Ok?
    requires var m1 := Exec(w, m, cmds[0]).state;
      RanInOrder(w, m1, cmds[1..], ExecAll(w, m1, cmds[1..]))
    ensures RanInOrder(w, m, cmds, ExecAll(w, m, cmds))
  {
    var m1 := Exec(w, m, cmds[0]).state;
    assert cmds == [cmds[0]] + cmds[1..];
    RanInOrderCons(w, m, m1, cmds[0], cmds[1..], ExecAll(w, m1, cmds[1..]));
  }

  /** A first command that fails is the only one issued. */
  lemma ExecAllStops(w: Oracle, m: Machine, cmds: seq<Command>)
    requires cmds != [] && Exec(w, m, cmds[0]).result.Err?
    ensures RanInOrder(w, m, cmds, ExecAll(w, m, cmds))
  {
    var s1 := Exec(w, m, cmds[0]);
    assert Issued(m, s1.state) == [cmds[0]];
  }

  /** A first command that succeeds prepends itself to what the rest issues. */
  lemma RanInOrderCons(w: Oracle, m: Machine, m1: Machine, c: Command, rest: seq<Command>, s: Step<()>)
    requires m1.trace == m.trace + [c] && m1.dirs == m.dirs && m1.keys == m.keys
    requires w(|m.trace|, c).code == 0
    requires RanInOrder(w, m1, rest, s)
    ensures RanInOrder(w, m, [c] + rest, s)
  {
    var tail := Issued(m1, s.state);
    var all := Issued(m, s.state);
    assert m.trace <= s.state.trace by {
      assert s.state.trace[..|m.trace|] == m1.trace[..|m.trace|];
    }
    assert all == [c] + tail by {
      assert s.state.trace[|m.trace|..] == [s.state.trace[|m.trace|]] + s.state.trace[|m1.trace|..];
    }
    SucceededCons(w, |m.trace|, c, rest);
    if s.result.Err? {
      assert all[|all| - 1] == tail[|tail| - 1];
      assert FailedLast(w, m, s.state, s.result.error);
      assert all[..|all| - 1] == [c] + tail[..|tail| - 1];
      SucceededCons(w, |m.trace|, c, tail[..|tail| - 1]);
    }
  }

  lemma SucceededCons(w: Oracle, at: nat, c: Command, rest: seq<Command>)
    ensures Succeeded(w, at, [c] + rest) <==> w(at, c).code == 0 && Succeeded(w, at + 1, rest)
  {
    var cmds := [c] + rest;
    if w(at, c).code == 0 && Succeeded(w, at + 1, rest) {
      forall j | 0 <= j < |cmds| ensures w(at + j, cmds[j]).code == 0 {
        if j > 0 {
          assert cmds[j] == rest[j - 1];
        }
      }
    }
    if Succeeded(w, at, cmds) {
      assert cmds[0] == c;
      forall j | 0 <= j < |rest| ensures w(at + 1 + j, rest[j]).code == 0 {
        assert rest[j] == cmds[j + 1];
      }
    }
  }

  /** The computer the encrypter runs on, as the encrypter sees it. */
  class Host {
    const answer: Oracle
    const entropy: Entropy
    var trace: seq<Command>
    var log: seq<LogEntry>
    var mappings: set<string>
    var mounts: map<string, string>
    var dirs: set<string>
    var keys: map<string, Key>

    function State(): Machine
      reads this
    {
      Machine(trace, log, mappings, mounts, dirs, keys)
    }

    constructor (answer: Oracle, entropy: Entropy, start: Machine)
      ensures this.answer == answer && this.entropy == entropy && State() == start
    {
      this.answer := answer;
      this.entropy := entropy;
      trace := start.trace;
      log := start.log;
      mappings := start.mappings;
      mounts := start.mounts;
      dirs := start.dirs;
      keys := start.keys;
    }

    /** `run_command`. */
    method RunCommand(c: Command) returns (r: Result<string>)
      modifies this
      ensures Step(State(), r) == Exec(answer, old(State()), c)
    {
      var reply := answer(|trace|, c);
      trace := trace + [c];
      if reply.code == 0 {
        var out := Strip(Output(c, reply.stdout));
        log := log + [Debug(c, out)];
        var effect := Effect(State(), c);
        mappings, mounts := effect.mappings, effect.mounts;
        r := Ok(out);
      } else {
        log := log + [Error(c, reply.stderr)];
        r := Err(CalledProcessError(c, reply.code, reply.stderr));
      }
    }

    /** `os.makedirs(path)` when `os.path.exists(path)` is false. */
    method MakeDirsIfAbsent(path: string)
      modifies this
      ensures State() == WithDir(old(State()), path)
    {
      if path !in dirs {
        dirs := dirs + {path};
      }
    }
  }

  /** The state after `os.makedirs(path)` guarded by `os.path.exists(path)`. */
  function WithDir(m: Machine, path: string): (m': Machine)
    ensures path in m'.dirs && m'.dirs - {path} == m.dirs - {path}
    ensures m'.dirs == m.dirs + {path}
    ensures m'.trace == m.trace && m'.keys == m.keys && m'.mappings == m.mappings && m'.mounts == m.mounts
  {
    if path in m.dirs then m else m.(dirs := m.dirs + {path})
  }
}
