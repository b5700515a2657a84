/** `decrypt_and_mount_partition`
    (endoreg_usb_encrypter/functions/decrypt_and_mount_partition.py): close
    the partition's mapping if it is already open, open the container with
    the given key file and mount it under the mount directory. */
module Decrypt {
  import opened Names
  import opened Shell

  /** The commands decryption means to issue: `close` only when the
      mapping is already open. */
  function DecryptPlan(isOpen: bool, partition: string, keyFile: string, mountDir: string): seq<Command>
  {
    var name := MappingName(partition);
    (if isOpen then [Close(name)] else [])
      + [Open(partition, name, keyFile), Mount(MapperPath(name), MountPath(mountDir, partition))]
  }

  /** Close the mapping when it is open (`os.path.exists` of its mapper
      device), then open it with the key file. */
  function Reopen(w: Oracle, m: Machine, partition: string, keyFile: string): Step<string>
  {
    var name := MappingName(partition);
    var s0 := if name in m.mappings then Exec(w, m, Close(name)) else Step(m, Ok(""));
    if s0.result.Err? then s0
    else Exec(w, s0.state, Open(partition, name, keyFile))
  }

  /** `decrypt_and_mount_partition(partition, key_file, mount_dir)`: on
      success the mount path. */
  function DecryptSpec(w: Oracle, m: Machine, partition: string, keyFile: string, mountDir: string): Step<string>
  {
    var s1 := Reopen(w, m, partition, keyFile);
    if s1.result.Err? then Step(s1.state, Err(s1.result.error))
    else
      var mountPath := MountPath(mountDir, partition);
      var s2 := Exec(w, WithDir(s1.state, mountPath), Mount(MapperPath(MappingName(partition)), mountPath));
      if s2.result.Err? then Step(s2.state, Err(s2.result.error))
      else Step(s2.state, Ok(mountPath))
  }

  method DecryptAndMount(h: Host, partition: string, keyFile: string, mountDir: string) returns (r: Result<string>)
    modifies h
    ensures Step(h.State(), r) == DecryptSpec(h.answer, old(h.State()), partition, keyFile, mountDir)
  {
    var unlocked := ReopenOn(h, partition, keyFile);
    if unlocked.Err? {
      return Err(unlocked.error);
    }
    var mountPath := MountPath(mountDir, partition);
    h.MakeDirsIfAbsent(mountPath);
    var mounted := h.RunCommand(Mount(MapperPath(MappingName(partition)), mountPath));
    if mounted.Err? {
      return Err(mounted.error);
    }
    r := Ok(mountPath);
  }

  /** The close-then-open step on the host. */
  method ReopenOn(h: Host, partition: string, keyFile: string) returns (r: Result<string>)
    modifies h
    ensures Step(h.State(), r) == Reopen(h.answer, old(h.State()), partition, keyFile)
  {
    var name := MappingName(partition);
    if name in h.mappings {
      r := h.RunCommand(Close(name));
      if r.Err? {
        return;
      }
    }
    r := h.RunCommand(Open(partition, name, keyFile));
  }

  // ---------------------------------------------------------------------
  // Properties

  /** The commands of the close-then-open step. */
  function ReopenPlan(isOpen: bool, partition: string, keyFile: string): seq<Command>
  {
    var name := MappingName(partition);
    (if isOpen then [Close(name)] else []) + [Open(partition, name, keyFile)]
  }

  /** The close-then-open step issues its plan in order, stopping at the
      first failure. */
  lemma ReopenIsPlan(w: Oracle, m: Machine, partition: string, keyFile: string)
    ensures var s := Reopen(w, m, partition, keyFile);
      var t := ExecAll(w, m, ReopenPlan(MappingName(partition) in m.mappings, partition, keyFile));
      s.state == t.state && (s.result.Ok? <==> t.result.Ok?)
  {
    var name := MappingName(partition);
    var opening := Open(partition, name, keyFile);
    if name in m.mappings {
      assert ReopenPlan(true, partition, keyFile) == [Close(name)] + [opening];
      ExecAllCons(w, m, Close(name), [opening]);
      ExecAllOne(w, Exec(w, m, Close(name)).state, opening);
    } else {
      assert ReopenPlan(false, partition, keyFile) == [opening];
      ExecAllOne(w, m, opening);
    }
  }

  /** A successful close-then-open step leaves the mapping open and no
      other mapping changed. */
  lemma ReopenOpens(w: Oracle, m: Machine, partition: string, keyFile: string)
    ensures var s := Reopen(w, m, partition, keyFile);
      s.result.Ok? ==> s.state.mappings == m.mappings + {MappingName(partition)}
  {
    var name := MappingName(partition);
    if name in m.mappings {
      var s0 := Exec(w, m, Close(name));
      if s0.result.Ok? {
        ExecClose(w, m, name);
        ExecOpen(w, s0.state, partition, name, keyFile);
        assert m.mappings - {name} + {name} == m.mappings + {name};
      }
    } else {
      ExecOpen(w, m, partition, name, keyFile);
    }
  }

  /** Decryption issues a prefix of its plan, in order; it closes the
      mapping first exactly when the mapping was open. No key file changes. */
  lemma DecryptOrder(w: Oracle, m: Machine, partition: string, keyFile: string, mountDir: string)
    ensures var s := DecryptSpec(w, m, partition, keyFile, mountDir);
      var isOpen := MappingName(partition) in m.mappings;
      var plan := DecryptPlan(isOpen, partition, keyFile, mountDir);
      var issued := Issued(m, s.state);
      && m.trace <= s.state.trace
      && s.state.keys == m.keys
      && issued <= plan && issued != []
      && (issued[0] == Close(MappingName(partition)) <==> isOpen)
  {
    var name := MappingName(partition);
    var isOpen := name in m.mappings;
    var head := ReopenPlan(isOpen, partition, keyFile);
    var mountPath := MountPath(mountDir, partition);
    var mount := Mount(MapperPath(name), mountPath);
    assert DecryptPlan(isOpen, partition, keyFile, mountDir) == head + [mount];
    ReopenIsPlan(w, m, partition, keyFile);
    ExecAllIssues(w, m, head);
    DecryptSteps(w, m, partition, keyFile, mountDir);
    var s1 := Reopen(w, m, partition, keyFile);
    if s1.result.Ok? {
      MountAfter(w, m, s1.state, head, mount, mountPath);
    }
  }

  /** Decryption succeeds exactly when every command of its plan does, and
      then it issued the whole plan. */
  lemma DecryptSucceeds(w: Oracle, m: Machine, partition: string, keyFile: string, mountDir: string)
    ensures var s := DecryptSpec(w, m, partition, keyFile, mountDir);
      var plan := DecryptPlan(MappingName(partition) in m.mappings, partition, keyFile, mountDir);
      && (s.result.Ok? <==> Succeeded(w, |m.trace|, plan))
      && (s.result.Ok? ==> Issued(m, s.state) == plan)
  {
    var name := MappingName(partition);
    var isOpen := name in m.mappings;
    var head := ReopenPlan(isOpen, partition, keyFile);
    var mountPath := MountPath(mountDir, partition);
    var mount := Mount(MapperPath(name), mountPath);
    assert DecryptPlan(isOpen, partition, keyFile, mountDir) == head + [mount];
    var t := ExecAll(w, m, head);
    ReopenIsPlan(w, m, partition, keyFile);
    ExecAllOk(w, m, head);
    ExecAllExtends(w, m, head);
    DecryptSteps(w, m, partition, keyFile, mountDir);
    var s := DecryptSpec(w, m, partition, keyFile, mountDir);
    ThenOne(w, m, head, t, mount, s.state, s.result.Ok?);
  }

  /** Decryption is the close-then-open step, then the `mount`. */
  lemma DecryptSteps(w: Oracle, m: Machine, partition: string, keyFile: string, mountDir: string)
    ensures var s := DecryptSpec(w, m, partition, keyFile, mountDir);
      var s1 := Reopen(w, m, partition, keyFile);
      var mountPath := MountPath(mountDir, partition);
      var s2 := Exec(w, WithDir(s1.state, mountPath), Mount(MapperPath(MappingName(partition)), mountPath));
      && (s1.result.Err? ==> s.state == s1.state && s.result.Err?)
      && (s1.result.Ok? ==> s.state == s2.state && (s.result.Ok? <==> s2.result.Ok?))
  {
  }

  /** The `mount` after a successful close-then-open step. */
  lemma MountAfter(w: Oracle, m: Machine, m1: Machine, head: seq<Command>, mount: Command, mountPath: string)
    requires m.trace <= m1.trace && Issued(m, m1) == head
    ensures var s2 := Exec(w, WithDir(m1, mountPath), mount);
      var issued := Issued(m, s2.state);
      && m.trace <= s2.state.trace
      && s2.state.keys == m1.keys
      && issued == head + [mount]
      && (s2.result.Ok? <==> Succeeded(w, |m.trace| + |head|, [mount]))
  {
    var m2 := WithDir(m1, mountPath);
    var s2 := Exec(w, m2, mount);
    assert s2.state.trace == m1.trace + [mount];
    assert |m2.trace| == |m.trace| + |head|;
    SucceededOne(w, |m2.trace|, mount);
  }

  /** A successful decryption returns the mount path, which exists, holds
      the opened container, and is named after the mapping; the mapping is
      open and no other mapping changed. */
  lemma DecryptResult(w: Oracle, m: Machine, partition: string, keyFile: string, mountDir: string)
    ensures var s := DecryptSpec(w, m, partition, keyFile, mountDir);
      var name := MappingName(partition);
      s.result.Ok? ==>
        && s.result.value == MountPath(mountDir, partition)
        && Basename(s.result.value) == name
        && s.state.mappings == m.mappings + {name}
        && s.result.value in s.state.dirs
        && s.result.value in s.state.mounts && s.state.mounts[s.result.value] == MapperPath(name)
  {
    var name := MappingName(partition);
    var mountPath := MountPath(mountDir, partition);
    ReopenOpens(w, m, partition, keyFile);
    MountPathLaw(mountDir, partition);
    var s1 := Reopen(w, m, partition, keyFile);
    if s1.result.Ok? {
      ExecMount(w, WithDir(s1.state, mountPath), MapperPath(name), mountPath);
    }
  }

  /** Decrypting a partition again after a successful decryption closes its
      mapping first: the second call's first command is `close`. */
  lemma DecryptTwice(w: Oracle, m: Machine, partition: string, keyFile: string, mountDir: string)
    requires DecryptSpec(w, m, partition, keyFile, mountDir).result.Ok?
    ensures var s := DecryptSpec(w, m, partition, keyFile, mountDir);
      var again := DecryptSpec(w, s.state, partition, keyFile, mountDir);
      Issued(s.state, again.state)[0] == Close(MappingName(partition))
  {
    var s := DecryptSpec(w, m, partition, keyFile, mountDir);
    DecryptResult(w, m, partition, keyFile, mountDir);
    DecryptOrder(w, s.state, partition, keyFile, mountDir);
  }
}
