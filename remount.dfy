/** `unmount_and_mount_all_partitions`
    (endoreg_usb_encrypter/functions/unmount_and_mount_all_partitions.py):
    unmount everything under the mount directory, list the device's
    partitions by name and decrypt and mount each with the key file the
    encryption step stored for it. */
module Remount {
  import opened Text
  import opened Names
  import opened Shell
  import opened Unmount
  import opened Decrypt

  /** Decrypting the listed partitions in listing order, stopping at the
      first failure. */
  function DecryptAll(w: Oracle, m: Machine, names: seq<string>, keyDir: string, mountDir: string): Step<()>
    decreases |names|
  {
    if names == [] then Step(m, Ok(()))
    else
      var s := DecryptSpec(w, m, DevicePath(names[0]), RemountKeyPath(keyDir, names[0]), mountDir);
      if s.result.Err? then Step(s.state, Err(s.result.error))
      else DecryptAll(w, s.state, names[1..], keyDir, mountDir)
  }

  /** `unmount_and_mount_all_partitions(device, mount_dir, key_dir)`. */
  function RemountSpec(w: Oracle, m: Machine, device: string, mountDir: string, keyDir: string): Step<()>
  {
    var s1 := UnmountSpec(w, m, mountDir);
    if s1.result.Err? then s1
    else
      var s2 := Exec(w, s1.state, ListPartitionNames(device));
      if s2.result.Err? then Step(s2.state, Err(s2.result.error))
      else DecryptAll(w, s2.state, Lines(s2.result.value), keyDir, mountDir)
  }

  /** One turn of the decryption loop over name `k`, seen from `before`. */
  lemma DecryptAllAt(w: Oracle, before: Machine, names: seq<string>, k: nat, keyDir: string, mountDir: string)
    requires k < |names|
    ensures var s := DecryptSpec(w, before, DevicePath(names[k]), RemountKeyPath(keyDir, names[k]), mountDir);
      DecryptAll(w, before, names[k..], keyDir, mountDir)
        == if s.result.Err? then Step(s.state, Err(s.result.error))
           else DecryptAll(w, s.state, names[k + 1..], keyDir, mountDir)
  {
    assert names[k..][0] == names[k];
    assert names[k..][1..] == names[k + 1..];
  }

  method UnmountAndMountAll(h: Host, device: string, mountDir: string, keyDir: string) returns (r: Result<()>)
    modifies h
    ensures Step(h.State(), r) == RemountSpec(h.answer, old(h.State()), device, mountDir, keyDir)
  {
    r := UnmountPartitions(h, mountDir);
    if r.Err? {
      return;
    }
    var listing := h.RunCommand(ListPartitionNames(device));
    if listing.Err? {
      return Err(listing.error);
    }
    var partitions := Lines(listing.value);
    ghost var target := DecryptAll(h.answer, h.State(), partitions, keyDir, mountDir);
    var k := 0;
    while k < |partitions|
      invariant 0 <= k <= |partitions|
      invariant target == DecryptAll(h.answer, h.State(), partitions[k..], keyDir, mountDir)
    {
      DecryptAllAt(h.answer, h.State(), partitions, k, keyDir, mountDir);
      var partitionPath := DevicePath(partitions[k]);
      var keyFile := RemountKeyPath(keyDir, partitions[k]);
      var mounted := DecryptAndMount(h, partitionPath, keyFile, mountDir);
      if mounted.Err? {
        return Err(mounted.error);
      }
      k := k + 1;
    }
    r := Ok(());
  }

  // ---------------------------------------------------------------------
  // Properties

  /** The names the loop walks are exactly the listing lines that match
      `^[a-z]+[0-9]$`, in listing order: stripping and splitting the
      filtered output gives back the filtered lines. */
  lemma RemountNames(w: Oracle, m: Machine, device: string)
    ensures Lines(Answer(w, m, ListPartitionNames(device)))
         == PartitionNameLines(Lines(w(|m.trace|, ListPartitionNames(device)).stdout))
  {
    var raw := w(|m.trace|, ListPartitionNames(device)).stdout;
    var ls := PartitionNameLines(Lines(raw));
    assert Output(ListPartitionNames(device), raw) == JoinLines(ls);
    JoinedNames(ls);
  }

  /** Joined partition names are their own strip and split back into the
      same names. */
  lemma JoinedNames(ls: seq<string>)
    requires forall i :: 0 <= i < |ls| ==> IsPartitionName(ls[i])
    ensures Lines(Strip(JoinLines(ls))) == ls
  {
    JoinedNamesUnstripped(ls);
    forall i | 0 <= i < |ls| ensures '\n' !in ls[i] && ls[i] != [] {
      PartitionNameLine(ls[i]);
    }
    LinesOfJoinLines(ls);
  }

  lemma JoinedNamesUnstripped(ls: seq<string>)
    requires forall i :: 0 <= i < |ls| ==> IsPartitionName(ls[i])
    ensures Strip(JoinLines(ls)) == JoinLines(ls)
  {
    forall i | 0 <= i < |ls| ensures IsWord(ls[i]) {
      PartitionNameIsWord(ls[i]);
    }
    StripJoinLines(ls);
  }

  /** Decrypting the listed partitions never writes a key file. The
      containers are opened one at a time in listing order, each once and
      with the key file named after its partition (the path encryption
      stored its key under): the `open` commands issued are a prefix of
      that sequence, all of it on success, and then every listed
      partition's mapping is open. */
  lemma {:induction false} DecryptAllOutcome(w: Oracle, m: Machine, names: seq<string>, keyDir: string, mountDir: string)
    ensures var s := DecryptAll(w, m, names, keyDir, mountDir);
      && m.trace <= s.state.trace
      && s.state.keys == m.keys
      && Opens(Issued(m, s.state)) <= OpenCommands(names, keyDir)
      && (s.result.Ok? ==>
            && Opens(Issued(m, s.state)) == OpenCommands(names, keyDir)
            && forall k :: 0 <= k < |names| ==>
              && MappingName(DevicePath(names[k])) in s.state.mappings
              && Open(DevicePath(names[k]), MappingName(DevicePath(names[k])), RemountKeyPath(keyDir, names[k]))
                   in Issued(m, s.state))
    decreases |names|
  {
    DecryptAllOpens(w, m, names, keyDir, mountDir);
    if names != [] {
      var partition := DevicePath(names[0]);
      var keyFile := RemountKeyPath(keyDir, names[0]);
      var s1 := DecryptSpec(w, m, partition, keyFile, mountDir);
      DecryptOrder(w, m, partition, keyFile, mountDir);
      if s1.result.Ok? {
        var s := DecryptAll(w, s1.state, names[1..], keyDir, mountDir);
        DecryptAllOutcome(w, s1.state, names[1..], keyDir, mountDir);
        DecryptResult(w, m, partition, keyFile, mountDir);
        DecryptSucceeds(w, m, partition, keyFile, mountDir);
        IssuedConcat(m, s1.state, s.state);
        if s.result.Ok? {
          DecryptAllKeepsMappings(w, s1.state, names[1..], keyDir, mountDir);
          var plan := DecryptPlan(MappingName(partition) in m.mappings, partition, keyFile, mountDir);
          assert Open(partition, MappingName(partition), keyFile) in plan;
          forall k | 0 <= k < |names|
            ensures && MappingName(DevicePath(names[k])) in s.state.mappings
                    && Open(DevicePath(names[k]), MappingName(DevicePath(names[k])), RemountKeyPath(keyDir, names[k]))
                         in Issued(m, s.state)
          {
            if k > 0 {
              assert names[1..][k - 1] == names[k];
            }
          }
        }
      }
    }
  }

  /** The `open` commands among a list of commands, in order. */
  function Opens(cmds: seq<Command>): (r: seq<Command>)
    ensures forall k :: 0 <= k < |r| ==> r[k].Open?
  {
    if cmds == [] then []
    else (if cmds[0].Open? then [cmds[0]] else []) + Opens(cmds[1..])
  }

  lemma {:induction false} OpensConcat(a: seq<Command>, b: seq<Command>)
    ensures Opens(a + b) == Opens(a) + Opens(b)
    decreases |a|
  {
    if a == [] {
      assert a + b == b;
    } else {
      var head := if a[0].Open? then [a[0]] else [];
      assert (a + b)[0] == a[0];
      assert (a + b)[1..] == a[1..] + b;
      assert Opens(a + b) == head + Opens(a[1..] + b);
      OpensConcat(a[1..], b);
    }
  }

  /** The `open` commands of a prefix are a prefix of the `open` commands. */
  lemma OpensPrefix(a: seq<Command>, b: seq<Command>)
    requires a <= b
    ensures Opens(a) <= Opens(b)
  {
    assert b == a + b[|a|..];
    OpensConcat(a, b[|a|..]);
  }

  /** The `open` each listed partition needs, in listing order. */
  function OpenCommands(names: seq<string>, keyDir: string): (cmds: seq<Command>)
    ensures |cmds| == |names|
    ensures forall k :: 0 <= k < |names| ==>
      cmds[k] == Open(DevicePath(names[k]), MappingName(DevicePath(names[k])), RemountKeyPath(keyDir, names[k]))
  {
    if names == [] then []
    else
      [Open(DevicePath(names[0]), MappingName(DevicePath(names[0])), RemountKeyPath(keyDir, names[0]))]
        + OpenCommands(names[1..], keyDir)
  }

  /** One partition's decryption issues exactly one `open`, that of its own
      container, after at most a `close`. */
  lemma DecryptPlanOpens(isOpen: bool, partition: string, keyFile: string, mountDir: string)
    ensures Opens(DecryptPlan(isOpen, partition, keyFile, mountDir)) == [Open(partition, MappingName(partition), keyFile)]
  {
    var name := MappingName(partition);
    var open := Open(partition, name, keyFile);
    var mount := Mount(MapperPath(name), MountPath(mountDir, partition));
    var head := if isOpen then [Close(name)] else [];
    assert DecryptPlan(isOpen, partition, keyFile, mountDir) == head + [open] + [mount];
    OpensConcat(head + [open], [mount]);
    OpensConcat(head, [open]);
    assert Opens([mount]) == [] by { assert [mount][1..] == []; }
    assert Opens([open]) == [open] by { assert [open][1..] == []; }
    if isOpen {
      assert Opens(head) == [] by { assert head[1..] == []; }
    }
  }

  /** The `open`s issued while decrypting the listed partitions follow
      the listing, stopping where a decryption failed. */
  lemma {:induction false} DecryptAllOpens(w: Oracle, m: Machine, names: seq<string>, keyDir: string, mountDir: string)
    ensures var s := DecryptAll(w, m, names, keyDir, mountDir);
      && m.trace <= s.state.trace
      && Opens(Issued(m, s.state)) <= OpenCommands(names, keyDir)
      && (s.result.Ok? ==> Opens(Issued(m, s.state)) == OpenCommands(names, keyDir))
    decreases |names|
  {
    if names != [] {
      var partition := DevicePath(names[0]);
      var keyFile := RemountKeyPath(keyDir, names[0]);
      var plan := DecryptPlan(MappingName(partition) in m.mappings, partition, keyFile, mountDir);
      var s1 := DecryptSpec(w, m, partition, keyFile, mountDir);
      var first := [Open(partition, MappingName(partition), keyFile)];
      DecryptOrder(w, m, partition, keyFile, mountDir);
      DecryptPlanOpens(MappingName(partition) in m.mappings, partition, keyFile, mountDir);
      assert OpenCommands(names, keyDir) == first + OpenCommands(names[1..], keyDir);
      if s1.result.Err? {
        OpensPrefix(Issued(m, s1.state), plan);
      } else {
        var s := DecryptAll(w, s1.state, names[1..], keyDir, mountDir);
        DecryptSucceeds(w, m, partition, keyFile, mountDir);
        DecryptAllOpens(w, s1.state, names[1..], keyDir, mountDir);
        IssuedConcat(m, s1.state, s.state);
        OpensConcat(plan, Issued(s1.state, s.state));
      }
    }
  }

  /** Decrypting only opens mappings: every mapping open before a
      successful run is open after it. */
  lemma {:induction false} DecryptAllKeepsMappings(w: Oracle, m: Machine, names: seq<string>, keyDir: string, mountDir: string)
    ensures var s := DecryptAll(w, m, names, keyDir, mountDir);
      s.result.Ok? ==> m.mappings <= s.state.mappings
    decreases |names|
  {
    if names != [] {
      var partition := DevicePath(names[0]);
      var keyFile := RemountKeyPath(keyDir, names[0]);
      var s1 := DecryptSpec(w, m, partition, keyFile, mountDir);
      DecryptResult(w, m, partition, keyFile, mountDir);
      if s1.result.Ok? {
        DecryptAllKeepsMappings(w, s1.state, names[1..], keyDir, mountDir);
      }
    }
  }

  /** The remount issues the unmount's commands first; if the unmount
      fails, nothing else happens. Otherwise the partition listing follows,
      so no container is opened before everything under the mount directory
      was unmounted. No key file is ever written. */
  lemma RemountOrder(w: Oracle, m: Machine, device: string, mountDir: string, keyDir: string)
    ensures var s := RemountSpec(w, m, device, mountDir, keyDir);
      var u := UnmountSpec(w, m, mountDir);
      var before := Issued(m, u.state);
      && m.trace <= s.state.trace
      && s.state.keys == m.keys
      && (u.result.Err? ==> s == u)
      && (u.result.Ok? ==>
            && before + [ListPartitionNames(device)] <= Issued(m, s.state)
            && forall k :: 0 <= k < |before| ==> before[k].ListMountsUnder? || before[k].Umount?)
  {
    var u := UnmountSpec(w, m, mountDir);
    UnmountFrame(w, m, mountDir);
    if u.result.Ok? {
      UnmountIssuesOnly(w, m, mountDir);
      RemountAfterUnmount(w, m, u.state, device, mountDir, keyDir);
    }
  }

  /** After the unmount, the partition listing comes next and decryption
      writes no key file. */
  lemma RemountAfterUnmount(w: Oracle, m: Machine, m1: Machine, device: string, mountDir: string, keyDir: string)
    requires m.trace <= m1.trace
    ensures var s2 := Exec(w, m1, ListPartitionNames(device));
      var s := if s2.result.Err? then Step(s2.state, Err(s2.result.error))
               else DecryptAll(w, s2.state, Lines(s2.result.value), keyDir, mountDir);
      && m.trace <= s.state.trace
      && s.state.keys == m1.keys
      && Issued(m, m1) + [ListPartitionNames(device)] <= Issued(m, s.state)
  {
    var s2 := Exec(w, m1, ListPartitionNames(device));
    var s := if s2.result.Err? then Step(s2.state, Err(s2.result.error))
             else DecryptAll(w, s2.state, Lines(s2.result.value), keyDir, mountDir);
    if s2.result.Ok? {
      DecryptAllOutcome(w, s2.state, Lines(s2.result.value), keyDir, mountDir);
    }
    IssuedConcat(m, m1, s2.state);
    IssuedConcat(m, s2.state, s.state);
    assert Issued(m1, s2.state) == [ListPartitionNames(device)];
  }
}
