/** The names and paths the encrypter derives from a partition path, a key
    directory and a mount directory, and the partition-name pattern that
    the remount step greps for. */
module Names {
  import opened Text

  /** `os.path.basename`: what follows the last `'/'`. */
  function Basename(p: string): (b: string)
    ensures '/' !in b
  {
    if p == [] || p[|p| - 1] == '/' then [] else Basename(p[..|p| - 1]) + [p[|p| - 1]]
  }

  /** The basename is the suffix of the path that follows its last `'/'`
      (all of the path when it has none). */
  lemma {:induction false} BasenameIsLastComponent(p: string)
    ensures var b := Basename(p);
      && |b| <= |p| && p[|p| - |b|..] == b
      && (|b| < |p| ==> p[|p| - |b| - 1] == '/')
  {
    if p != [] && p[|p| - 1] != '/' {
      var q := p[..|p| - 1];
      BasenameIsLastComponent(q);
      var b := Basename(p);
      assert b == Basename(q) + [p[|p| - 1]];
      assert p[|p| - |b|..] == q[|q| - |Basename(q)|..] + [p[|p| - 1]];
    }
  }

  /** Appending slash-free text to a path appends it to the basename. */
  lemma {:induction false} BasenameAppend(p: string, s: string)
    requires '/' !in s
    ensures Basename(p + s) == Basename(p) + s
    decreases |s|
  {
    if s != [] {
      var q := p + s;
      var s' := s[..|s| - 1];
      var c := s[|s| - 1];
      assert q[..|q| - 1] == p + s';
      assert q[|q| - 1] == c && c != '/';
      assert Basename(q) == Basename(p + s') + [c];
      assert '/' !in s' by {
        assert forall k :: 0 <= k < |s'| ==> s'[k] == s[k];
      }
      BasenameAppend(p, s');
      assert s == s' + [c];
    } else {
      assert p + s == p;
    }
  }

  /** The basename of `dir/name` is `name` when `name` holds no `'/'`. */
  lemma BasenameUnder(dir: string, name: string)
    requires '/' !in name
    ensures Basename(dir + "/" + name) == name
  {
    BasenameAppend(dir + "/", name);
  }

  /** `os.path.join(a, b)` for two components. */
  function JoinPath(a: string, b: string): string
  {
    if b != [] && b[0] == '/' then b
    else if a == [] || a[|a| - 1] == '/' then a + b
    else a + "/" + b
  }

  /** `/dev/<name>`: the device node of a block device listed by name. */
  function DevicePath(name: string): string
  {
    "/dev/" + name
  }

  /** `luks-<basename>`: the device-mapper name of a partition's container. */
  function MappingName(partition: string): string
  {
    "luks-" + Basename(partition)
  }

  /** `/dev/mapper/<name>`: the device node of an open mapping. */
  function MapperPath(name: string): string
  {
    "/dev/mapper/" + name
  }

  /** `<key_dir>/key-<basename>.key`: where encryption stores a partition's key. */
  function KeyFilePath(keyDir: string, partition: string): string
  {
    keyDir + "/key-" + Basename(partition) + ".key"
  }

  /** `<key_dir>/key-<name>.key`: where the remount step looks for the key of
      the partition listed as `name`. */
  function RemountKeyPath(keyDir: string, name: string): string
  {
    keyDir + "/key-" + name + ".key"
  }

  /** `os.path.join(mount_dir, luks-<basename>)`: where a partition is mounted. */
  function MountPath(mountDir: string, partition: string): string
  {
    JoinPath(mountDir, MappingName(partition))
  }

  /** `<device><i+1>`: the node of the i-th partition created on a device. */
  function PartitionPath(device: string, i: nat): string
  {
    device + Decimal(i + 1)
  }

  predicate IsLower(c: char)
  {
    'a' <= c <= 'z'
  }

  /** The extended regular expression `^[a-z]+[0-9]$`. */
  predicate IsPartitionName(s: string)
  {
    && |s| >= 2
    && (forall k :: 0 <= k < |s| - 1 ==> IsLower(s[k]))
    && IsDigit(s[|s| - 1])
  }

  /** A name the pattern accepts is a bare word: no `'/'`, no whitespace. */
  lemma PartitionNameIsWord(s: string)
    requires IsPartitionName(s)
    ensures '/' !in s && IsWord(s)
  {
    assert forall k :: 0 <= k < |s| ==> IsLower(s[k]) || IsDigit(s[k]);
  }

  /** A name the pattern accepts is a line of its own that neither starts
      nor ends with whitespace. */
  lemma PartitionNameLine(s: string)
    requires IsPartitionName(s)
    ensures s != [] && '\n' !in s && !IsSpace(s[0]) && !IsSpace(s[|s| - 1])
  {
    PartitionNameIsWord(s);
    assert IsSpace('\n');
  }

  /** The pattern accepts `<letters><n>` exactly when `n` has one digit, so the
      tenth partition of a disk and every later one are not matched. */
  lemma {:induction false} PartitionNameSingleDigit(base: string, n: nat)
    requires base != [] && forall k :: 0 <= k < |base| ==> IsLower(base[k])
    ensures IsPartitionName(base + Decimal(n)) <==> n < 10
  {
    var s := base + Decimal(n);
    if n >= 10 {
      var d := Decimal(n);
      assert s[|s| - 2] == d[|d| - 2];
      assert IsDigit(d[|d| - 2]);
      assert !IsPartitionName(s);
    } else {
      assert Decimal(n) == [DigitChar(n)];
      assert forall k :: 0 <= k < |s| - 1 ==> s[k] == base[k];
    }
  }

  /** Key-file round trip: for a partition listed as `name`, the key path the
      remount step derives is the path encryption wrote, and both steps use
      the same mapping name and mount path. */
  lemma KeyFileRoundTrip(keyDir: string, mountDir: string, name: string)
    requires '/' !in name
    ensures KeyFilePath(keyDir, DevicePath(name)) == RemountKeyPath(keyDir, name)
    ensures MappingName(DevicePath(name)) == "luks-" + name
    ensures MountPath(mountDir, DevicePath(name)) == JoinPath(mountDir, "luks-" + name)
  {
    assert DevicePath(name) == "/dev" + "/" + name;
    BasenameUnder("/dev", name);
  }

  /** The basename of the i-th partition is the device's basename followed by
      the partition number. */
  lemma PartitionBasename(device: string, i: nat)
    ensures Basename(PartitionPath(device, i)) == Basename(device) + Decimal(i + 1)
  {
    BasenameAppend(device, Decimal(i + 1));
  }

  /** Deterministic mount path: the directory mounted for a partition is a
      child of the mount directory named by the mapping, whatever the state. */
  lemma {:induction false} MountPathLaw(mountDir: string, partition: string)
    ensures Basename(MountPath(mountDir, partition)) == MappingName(partition)
    ensures mountDir != [] && mountDir[|mountDir| - 1] != '/' ==>
              MountPath(mountDir, partition) == mountDir + "/" + MappingName(partition)
  {
    var name := MappingName(partition);
    assert '/' !in name by {
      assert forall k :: 0 <= k < 5 ==> name[k] == "luks-"[k];
      assert forall k :: 5 <= k < |name| ==> name[k] == Basename(partition)[k - 5];
    }
    if mountDir == [] || mountDir[|mountDir| - 1] == '/' {
      BasenameAppend(mountDir, name);
    } else {
      BasenameUnder(mountDir, name);
    }
  }

  /** Equal texts with a common prefix and suffix have equal middles. */
  lemma CancelAffixes(pre: string, x: string, y: string, suf: string)
    ensures pre + x + suf == pre + y + suf ==> x == y
  {
    if pre + x + suf == pre + y + suf {
      assert x == (pre + x + suf)[|pre|..|pre| + |x|];
      assert y == (pre + y + suf)[|pre|..|pre| + |y|];
    }
  }

  /** Distinct partitions of one device get distinct key files. */
  lemma DistinctKeyFiles(keyDir: string, device: string, i: nat, j: nat)
    requires i != j
    ensures KeyFilePath(keyDir, PartitionPath(device, i)) != KeyFilePath(keyDir, PartitionPath(device, j))
  {
    var pre := keyDir + "/key-" + Basename(device);
    KeyFileOfPartition(keyDir, device, i);
    KeyFileOfPartition(keyDir, device, j);
    DecimalInjective(i + 1, j + 1);
    CancelAffixes(pre, Decimal(i + 1), Decimal(j + 1), ".key");
  }

  lemma KeyFileOfPartition(keyDir: string, device: string, i: nat)
    ensures KeyFilePath(keyDir, PartitionPath(device, i))
         == (keyDir + "/key-" + Basename(device)) + Decimal(i + 1) + ".key"
  {
    PartitionBasename(device, i);
  }
}
