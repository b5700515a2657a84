/** `encrypt_partition` (endoreg_usb_encrypter/functions/encrypt_partition.py):
    write a fresh 32-byte key file, format the partition as a LUKS
    container with it, open the container, make an ext4 file system inside,
    mount it under the mount directory and read the container's UUID. */
module Encrypt {
  import opened Names
  import opened Shell

  /** The commands that put the container in place, in order. */
  function SetupPlan(partition: string, keyFile: string): seq<Command>
  {
    var name := MappingName(partition);
    [LuksFormat(partition, keyFile), Open(partition, name, keyFile), Mkfs(MapperPath(name))]
  }

  /** The commands that mount the container and read its UUID. */
  function TailPlan(partition: string, mountDir: string): seq<Command>
  {
    [Mount(MapperPath(MappingName(partition)), MountPath(mountDir, partition)), LuksUuid(partition)]
  }

  /** Everything `encrypt_partition` means to issue, in order. */
  function EncryptPlan(partition: string, mountDir: string, keyDir: string): seq<Command>
  {
    SetupPlan(partition, KeyFilePath(keyDir, partition)) + TailPlan(partition, mountDir)
  }

  /** The state after writing the key drawn now to the key file; opening the
      file for writing fails when the key directory does not exist. */
  function WriteKey(e: Entropy, m: Machine, keyFile: string, keyDir: string): Result<Machine>
  {
    if keyDir !in m.dirs then Err(FileNotFoundError(keyFile))
    else Ok(m.(keys := m.keys[keyFile := e(|m.trace|)]))
  }

  /** The end of `encrypt_partition` once the container holds a file
      system: create the mount path if absent, mount the container there and
      ask for the container's UUID. */
  function MountAndQuery(w: Oracle, m: Machine, partition: string, mountDir: string): Step<string>
  {
    var mapped := MapperPath(MappingName(partition));
    var mountPath := MountPath(mountDir, partition);
    var s2 := Exec(w, WithDir(m, mountPath), Mount(mapped, mountPath));
    if s2.result.Err? then s2
    else Exec(w, s2.state, LuksUuid(partition))
  }

  /** `encrypt_partition(partition, mount_dir, key_dir)`: on success the
      container's UUID and the key file's path. */
  function EncryptSpec(w: Oracle, e: Entropy, m: Machine, partition: string, mountDir: string, keyDir: string)
    : Step<(string, string)>
  {
    var keyFile := KeyFilePath(keyDir, partition);
    var written := WriteKey(e, m, keyFile, keyDir);
    if written.Err? then Step(m, Err(written.error))
    else EncryptRun(w, written.value, partition, mountDir, keyFile)
  }

  /** Everything after the key file was written. */
  function EncryptRun(w: Oracle, m: Machine, partition: string, mountDir: string, keyFile: string)
    : Step<(string, string)>
  {
    var s1 := ExecAll(w, m, SetupPlan(partition, keyFile));
    if s1.result.Err? then Step(s1.state, Err(s1.result.error))
    else
      var s2 := MountAndQuery(w, s1.state, partition, mountDir);
      if s2.result.Err? then Step(s2.state, Err(s2.result.error))
      else Step(s2.state, Ok((s2.result.value, keyFile)))
  }

  method EncryptPartition(h: Host, partition: string, mountDir: string, keyDir: string)
    returns (r: Result<(string, string)>)
    modifies h
    ensures Step(h.State(), r) == EncryptSpec(h.answer, h.entropy, old(h.State()), partition, mountDir, keyDir)
  {
    var keyFile := KeyFilePath(keyDir, partition);
    if keyDir !in h.dirs {
      return Err(FileNotFoundError(keyFile));
    }
    h.keys := h.keys[keyFile := h.entropy(|h.trace|)];
    assert h.State() == WriteKey(h.entropy, old(h.State()), keyFile, keyDir).value;
    ghost var run := EncryptRun(h.answer, h.State(), partition, mountDir, keyFile);
    var setup := SetUp(h, partition, keyFile);
    if setup.Err? {
      return Err(setup.error);
    }
    var luksUuid := MountAndQueryOn(h, partition, mountDir);
    if luksUuid.Err? {
      return Err(luksUuid.error);
    }
    r := Ok((luksUuid.value, keyFile));
  }

  /** `luksFormat`, `open`, `mkfs.ext4` of `encrypt_partition`. */
  method SetUp(h: Host, partition: string, keyFile: string) returns (r: Result<()>)
    modifies h
    ensures Step(h.State(), r) == ExecAll(h.answer, old(h.State()), SetupPlan(partition, keyFile))
  {
    var name := MappingName(partition);
    ghost var plan := SetupPlan(partition, keyFile);
    ExecAllAt(h.answer, h.State(), plan, 0);
    var x := h.RunCommand(LuksFormat(partition, keyFile));
    if x.Err? {
      return Err(x.error);
    }
    ExecAllAt(h.answer, h.State(), plan, 1);
    x := h.RunCommand(Open(partition, name, keyFile));
    if x.Err? {
      return Err(x.error);
    }
    ExecAllAt(h.answer, h.State(), plan, 2);
    x := h.RunCommand(Mkfs(MapperPath(name)));
    if x.Err? {
      return Err(x.error);
    }
    assert plan[3..] == [];
    r := Ok(());
  }

  /** The mount and the `luksUUID` query of `encrypt_partition`. */
  method MountAndQueryOn(h: Host, partition: string, mountDir: string) returns (r: Result<string>)
    modifies h
    ensures Step(h.State(), r) == MountAndQuery(h.answer, old(h.State()), partition, mountDir)
  {
    var mapped := MapperPath(MappingName(partition));
    var mountPath := MountPath(mountDir, partition);
    h.MakeDirsIfAbsent(mountPath);
    r := h.RunCommand(Mount(mapped, mountPath));
    if r.Err? {
      return;
    }
    r := h.RunCommand(LuksUuid(partition));
  }

  // ---------------------------------------------------------------------
  // Properties

  /** Without the key directory nothing happens but `FileNotFoundError` for
      the key file. Otherwise the key file holds the key drawn at the start
      and no other key file changes; the commands issued are a prefix of the
      plan, in order: all of it exactly when every command succeeds. */
  lemma EncryptOrder(w: Oracle, e: Entropy, m: Machine, partition: string, mountDir: string, keyDir: string)
    ensures var s := EncryptSpec(w, e, m, partition, mountDir, keyDir);
      var keyFile := KeyFilePath(keyDir, partition);
      var plan := EncryptPlan(partition, mountDir, keyDir);
      var issued := Issued(m, s.state);
      && m.trace <= s.state.trace
      && (keyDir !in m.dirs ==> s == Step(m, Err(FileNotFoundError(keyFile))))
      && (keyDir in m.dirs ==>
            && s.state.keys == m.keys[keyFile := e(|m.trace|)]
            && issued <= plan
            && issued != []
            && (s.result.Ok? <==> Succeeded(w, |m.trace|, plan))
            && (s.result.Ok? ==> issued == plan))
  {
    var keyFile := KeyFilePath(keyDir, partition);
    if keyDir in m.dirs {
      var m0 := WriteKey(e, m, keyFile, keyDir).value;
      EncryptRunOrder(w, m0, partition, mountDir, keyFile);
      var s := EncryptRun(w, m0, partition, mountDir, keyFile);
      assert Issued(m, s.state) == Issued(m0, s.state);
    }
  }

  /** A successful encryption issued its whole plan and nothing else. */
  lemma EncryptIssuesPlan(w: Oracle, e: Entropy, m: Machine, partition: string, mountDir: string, keyDir: string)
    ensures var s := EncryptSpec(w, e, m, partition, mountDir, keyDir);
      s.result.Ok? ==> m.trace <= s.state.trace && Issued(m, s.state) == EncryptPlan(partition, mountDir, keyDir)
  {
    EncryptOrder(w, e, m, partition, mountDir, keyDir);
  }

  /** The commands after the key file was written run in plan order. */
  lemma EncryptRunOrder(w: Oracle, m: Machine, partition: string, mountDir: string, keyFile: string)
    ensures var s := EncryptRun(w, m, partition, mountDir, keyFile);
      var plan := SetupPlan(partition, keyFile) + TailPlan(partition, mountDir);
      var issued := Issued(m, s.state);
      && m.trace <= s.state.trace
      && s.state.keys == m.keys
      && issued <= plan
      && issued != []
      && (s.result.Ok? <==> Succeeded(w, |m.trace|, plan))
      && (s.result.Ok? ==> issued == plan)
  {
    var setup := SetupPlan(partition, keyFile);
    var tail := TailPlan(partition, mountDir);
    SucceededConcat(w, |m.trace|, setup, tail);
    var s1 := ExecAll(w, m, setup);
    ExecAllIssues(w, m, setup);
    if s1.result.Ok? {
      TailOrder(w, m, s1.state, partition, mountDir, setup);
    }
  }

  /** The mount and the UUID query continue a setup that succeeded. */
  lemma TailOrder(w: Oracle, m: Machine, m1: Machine, partition: string, mountDir: string, setup: seq<Command>)
    requires m.trace <= m1.trace && Issued(m, m1) == setup
    ensures var s := MountAndQuery(w, m1, partition, mountDir);
      var tail := TailPlan(partition, mountDir);
      var issued := Issued(m, s.state);
      && m.trace <= s.state.trace
      && s.state.keys == m1.keys
      && issued <= setup + tail
      && |issued| > |setup|
      && (s.result.Ok? <==> Succeeded(w, |m.trace| + |setup|, tail))
      && (s.result.Ok? ==> issued == setup + tail)
  {
    var tail := TailPlan(partition, mountDir);
    var m2 := WithDir(m1, MountPath(mountDir, partition));
    var s2 := ExecAll(w, m2, tail);
    MountAndQueryIsPlan(w, m1, partition, mountDir);
    ExecAllIssues(w, m2, tail);
    IssuedConcat(m, m2, s2.state);
    assert Issued(m, m2) == setup;
    assert |m2.trace| == |m.trace| + |setup|;
    var s := MountAndQuery(w, m1, partition, mountDir);
    assert s.state == s2.state;
    assert Issued(m, s.state) == setup + Issued(m2, s2.state);
  }

  /** The end of `encrypt_partition` issues its two commands in order,
      stopping at the first failure. */
  lemma MountAndQueryIsPlan(w: Oracle, m: Machine, partition: string, mountDir: string)
    ensures var s := MountAndQuery(w, m, partition, mountDir);
      var t := ExecAll(w, WithDir(m, MountPath(mountDir, partition)), TailPlan(partition, mountDir));
      s.state == t.state && (s.result.Ok? <==> t.result.Ok?)
  {
    var tail := TailPlan(partition, mountDir);
    var m1 := WithDir(m, MountPath(mountDir, partition));
    ExecAllAt(w, m1, tail, 0);
    var s2 := Exec(w, m1, tail[0]);
    if s2.result.Ok? {
      ExecAllAt(w, s2.state, tail, 1);
      assert tail[2..] == [];
    }
  }

  /** The key file is written before any command: with the key directory
      present, `encrypt_partition` is its commands run from the state whose
      key file holds the key drawn at the start. */
  lemma EncryptWritesKeyFirst(w: Oracle, e: Entropy, m: Machine, partition: string, mountDir: string, keyDir: string)
    requires keyDir in m.dirs
    ensures var keyFile := KeyFilePath(keyDir, partition);
      EncryptSpec(w, e, m, partition, mountDir, keyDir)
        == EncryptRun(w, m.(keys := m.keys[keyFile := e(|m.trace|)]), partition, mountDir, keyFile)
  {
  }

  /** What a successful encryption leaves behind, from the state after the
      key file was written: the container is open under its mapping name
      and mounted at its mount path, which exists, and no key file
      changes. */
  lemma EncryptRunLeaves(w: Oracle, m: Machine, partition: string, mountDir: string, keyFile: string)
    ensures var s := EncryptRun(w, m, partition, mountDir, keyFile);
      var name := MappingName(partition);
      var mountPath := MountPath(mountDir, partition);
      s.result.Ok? ==>
        && s.state.keys == m.keys
        && name in s.state.mappings
        && mountPath in s.state.dirs
        && mountPath in s.state.mounts && s.state.mounts[mountPath] == MapperPath(name)
  {
    var s1 := ExecAll(w, m, SetupPlan(partition, keyFile));
    if s1.result.Ok? {
      SetupOpens(w, m, partition, keyFile);
      MountAndQueryResult(w, s1.state, partition, mountDir);
    }
  }

  /** A successful encryption answers the stripped output of `luksUUID`,
      the fifth command after the key file was written (the trace held `at`
      commands then), and the key file's path. */
  lemma EncryptRunAnswer(w: Oracle, m: Machine, partition: string, mountDir: string, keyFile: string, at: nat)
    requires at == |m.trace|
    ensures var s := EncryptRun(w, m, partition, mountDir, keyFile);
      s.result.Ok? ==> s.result.value.0 == AnswerAt(w, at + 4, LuksUuid(partition)) && s.result.value.1 == keyFile
  {
    var s1 := ExecAll(w, m, SetupPlan(partition, keyFile));
    if s1.result.Ok? {
      SetupOpens(w, m, partition, keyFile);
      MountAndQueryAnswer(w, s1.state, partition, mountDir, at + 3);
    }
  }

  /** A successful mount-and-query keeps the open mappings and the key
      files and mounts the container at its mount path. */
  lemma MountAndQueryResult(w: Oracle, m: Machine, partition: string, mountDir: string)
    ensures var s := MountAndQuery(w, m, partition, mountDir);
      var name := MappingName(partition);
      var mountPath := MountPath(mountDir, partition);
      s.result.Ok? ==>
        && s.state.keys == m.keys
        && s.state.mappings == m.mappings
        && mountPath in s.state.dirs
        && mountPath in s.state.mounts && s.state.mounts[mountPath] == MapperPath(name)
  {
    var name := MappingName(partition);
    var mountPath := MountPath(mountDir, partition);
    var m1 := WithDir(m, mountPath);
    var s2 := Exec(w, m1, Mount(MapperPath(name), mountPath));
    ExecMount(w, m1, MapperPath(name), mountPath);
    assert s2.state.mappings == m.mappings;
  }

  /** A successful mount-and-query issued two commands and answers the
      stripped output of the second, the `luksUUID` query, which is the
      command at position `at + 1` when `at` commands came before it. */
  lemma MountAndQueryAnswer(w: Oracle, m: Machine, partition: string, mountDir: string, at: nat)
    requires at == |m.trace|
    ensures var s := MountAndQuery(w, m, partition, mountDir);
      s.result.Ok? ==>
        && |s.state.trace| == at + 2
        && s.result.value == AnswerAt(w, at + 1, LuksUuid(partition))
  {
    var m1 := WithDir(m, MountPath(mountDir, partition));
    var s2 := Exec(w, m1, Mount(MapperPath(MappingName(partition)), MountPath(mountDir, partition)));
    assert |s2.state.trace| == |m.trace| + 1;
  }

  /** A successful setup leaves the container open under its mapping name. */
  lemma SetupOpens(w: Oracle, m: Machine, partition: string, keyFile: string)
    ensures var s := ExecAll(w, m, SetupPlan(partition, keyFile));
      s.result.Ok? ==>
        && |s.state.trace| == |m.trace| + 3
        && MappingName(partition) in s.state.mappings && s.state.keys == m.keys
  {
    var plan := SetupPlan(partition, keyFile);
    var name := MappingName(partition);
    ExecAllAt(w, m, plan, 0);
    var s1 := Exec(w, m, plan[0]);
    if s1.result.Ok? {
      ExecAllAt(w, s1.state, plan, 1);
      var s2 := Exec(w, s1.state, plan[1]);
      ExecOpen(w, s1.state, partition, name, keyFile);
      if s2.result.Ok? {
        MkfsKeeps(w, s2.state, plan);
      }
    }
  }

  /** The `mkfs.ext4` of the setup changes no mapping and no key file. */
  lemma MkfsKeeps(w: Oracle, m: Machine, plan: seq<Command>)
    requires |plan| == 3 && plan[2].Mkfs?
    ensures var s := ExecAll(w, m, plan[2..]);
      && s.state.mappings == m.mappings && s.state.keys == m.keys
      && (s.result.Ok? ==> |s.state.trace| == |m.trace| + 1)
  {
    ExecAllAt(w, m, plan, 2);
    assert plan[3..] == [];
  }
}
