/** The destructive part both entry points run once the user confirmed
    (runner.py and endoreg_usb_encrypter/main.py, in the same order):
    `cleanup_device`, `create_partitions`, then the provisioning loop. */
module Session {
  import opened Text
  import opened Names
  import opened Shell
  import opened Cleanup
  import opened Partitions
  import opened Provision

  /** Whether the answer to the confirmation prompt, stripped and
      lower-cased, is `yes`: both entry points go on only then. */
  predicate Confirmed(confirmAnswer: string)
  {
    Lower(Strip(confirmAnswer)) == "yes"
  }

  /** Cleanup, partitioning and the loop over the created partitions; the
      first exception leaves it. */
  function PrepareSpec(w: Oracle, e: Entropy, m: Machine, device: string, names: seq<string>, factors: seq<real>,
                       mountDir: string, keyDir: string): Step<Records>
  {
    var s1 := CleanupSpec(w, m, device);
    if s1.result.Err? then Step(s1.state, Err(s1.result.error))
    else
      var s2 := CreateSpec(w, s1.state, device, names, factors);
      if s2.result.Err? then Step(s2.state, Err(s2.result.error))
      else ProvisionSpec(w, e, s2.state, s2.result.value, mountDir, keyDir)
  }

  method Prepare(h: Host, device: string, names: seq<string>, factors: seq<real>, mountDir: string, keyDir: string)
    returns (r: Result<Records>)
    modifies h
    ensures Step(h.State(), r) == PrepareSpec(h.answer, h.entropy, old(h.State()), device, names, factors, mountDir, keyDir)
  {
    var cleaned := CleanupDevice(h, device);
    if cleaned.Err? {
      return Err(cleaned.error);
    }
    var partitions := CreatePartitions(h, device, names, factors);
    if partitions.Err? {
      return Err(partitions.error);
    }
    r := ProvisionPartitions(h, partitions.value, mountDir, keyDir);
  }

  /** On success the commands were: cleanup's, which open with the device
      listing and end with `partprobe`; then the label, `partprobe` and one
      `mkpart` per created partition; then the seven commands of every
      partition's turn, partition by partition. */
  lemma PrepareOrder(w: Oracle, e: Entropy, m: Machine, device: string, names: seq<string>, factors: seq<real>,
                     mountDir: string, keyDir: string)
    ensures var s := PrepareSpec(w, e, m, device, names, factors, mountDir, keyDir);
      var cleanup := Issued(m, CleanupSpec(w, m, device).state);
      s.result.Ok? ==>
        && m.trace <= s.state.trace
        && Issued(m, s.state)
             == cleanup + CreatePlan(device, names, factors)
                + ProvisionPlan(PartitionPaths(device, Count(names, factors)), mountDir, keyDir)
        && cleanup != [] && cleanup[0] == ListMounts(device) && cleanup[|cleanup| - 1] == Partprobe(device)
  {
    var s1 := CleanupSpec(w, m, device);
    CleanupFrame(w, m, device);
    CleanupDetaches(w, m, device);
    if s1.result.Ok? {
      var s2 := CreateSpec(w, s1.state, device, names, factors);
      CreateOrder(w, s1.state, device, names, factors);
      if s2.result.Ok? {
        var paths := s2.result.value;
        ProvisionFromIssues(w, e, s2.state, paths, mountDir, keyDir, []);
        var s := PrepareSpec(w, e, m, device, names, factors, mountDir, keyDir);
        if s.result.Ok? {
          assert s.state == ProvisionEach(w, e, s2.state, paths, mountDir, keyDir).state;
          IssuedConcat(m, s1.state, s2.state);
          IssuedConcat(m, s2.state, s.state);
        }
      }
    }
  }

  /** On success the loop recorded one entry per created partition, in
      partition order: the k-th names the k-th partition path and its key
      file, and carries the UUIDs its own `blkid` and `luksUUID` answered;
      the `result` entries and key files agree with it entry by entry. */
  lemma PrepareRecords(w: Oracle, e: Entropy, m: Machine, device: string, names: seq<string>, factors: seq<real>,
                       mountDir: string, keyDir: string)
    ensures var s := PrepareSpec(w, e, m, device, names, factors, mountDir, keyDir);
      var created := CreateSpec(w, CleanupSpec(w, m, device).state, device, names, factors).state;
      var n := Count(names, factors);
      s.result.Ok? ==>
        && s.result.value == RecordsOf(s.result.value.infos)
        && s.result.value.infos == Strided(InfoOf(w, keyDir), |created.trace|, PartitionPaths(device, n))
        && |s.result.value.infos| == n
        && forall k :: 0 <= k < n ==>
             && s.result.value.infos[k].partition == PartitionPath(device, k)
             && s.result.value.infos[k].encryptionKey == KeyFilePath(keyDir, PartitionPath(device, k))
  {
    var s1 := CleanupSpec(w, m, device);
    if s1.result.Ok? {
      var s2 := CreateSpec(w, s1.state, device, names, factors);
      CreatePaths(w, s1.state, device, names, factors);
      if s2.result.Ok? {
        var paths := s2.result.value;
        ProvisionEachValues(w, e, s2.state, paths, mountDir, keyDir);
        ProvisionEachFields(w, e, s2.state, paths, mountDir, keyDir);
      }
    }
  }
}
