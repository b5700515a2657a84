/** The provisioning loop both entry points share (runner.py and
    endoreg_usb_encrypter/main.py): every created partition is formatted,
    then encrypted, and what was derived for it is recorded in
    `result["partitions"]`, `hdd_info["partitions"]` and `key_files`. */
module Provision {
  import opened Names
  import opened Shell
  import opened Base
  import opened Encrypt

  /** An entry of `result["partitions"]`. */
  datatype PartitionResult = PartitionResult(partition: string, uuid: string)

  /** An entry of `hdd_info["partitions"]`. */
  datatype PartitionInfo = PartitionInfo(partition: string, uuid: string, luksUuid: string, encryptionKey: string)

  /** The three lists the loop appends to. */
  datatype Records = Records(results: seq<PartitionResult>, infos: seq<PartitionInfo>, keyFiles: seq<string>)

  /** The `result` entry recorded alongside an `hdd_info` entry. */
  function ResultOf(info: PartitionInfo): PartitionResult
  {
    PartitionResult(info.partition, info.uuid)
  }

  /** The three lists as they stand after the loop recorded `infos`. */
  function RecordsOf(infos: seq<PartitionInfo>): Records
  {
    Records(
      seq(|infos|, i requires 0 <= i < |infos| => ResultOf(infos[i])),
      infos,
      seq(|infos|, i requires 0 <= i < |infos| => infos[i].encryptionKey))
  }

  /** The loop's lists agree entry by entry. */
  predicate Recorded(results: seq<PartitionResult>, infos: seq<PartitionInfo>, keyFiles: seq<string>)
  {
    && |results| == |infos| == |keyFiles|
    && forall i :: 0 <= i < |infos| ==> results[i] == ResultOf(infos[i]) && keyFiles[i] == infos[i].encryptionKey
  }

  lemma RecordedAppend(results: seq<PartitionResult>, infos: seq<PartitionInfo>, keyFiles: seq<string>, info: PartitionInfo)
    requires Recorded(results, infos, keyFiles)
    ensures Recorded(results + [ResultOf(info)], infos + [info], keyFiles + [info.encryptionKey])
  {
  }

  lemma RecordedRecords(results: seq<PartitionResult>, infos: seq<PartitionInfo>, keyFiles: seq<string>)
    requires Recorded(results, infos, keyFiles)
    ensures Records(results, infos, keyFiles) == RecordsOf(infos)
  {
  }

  /** One turn of the loop: `format_partition`, then `encrypt_partition`. */
  function ProvisionOne(w: Oracle, e: Entropy, m: Machine, partition: string, mountDir: string, keyDir: string)
    : Step<PartitionInfo>
  {
    var f := FormatSpec(w, m, partition);
    if f.result.Err? then Step(f.state, Err(f.result.error))
    else
      var s := EncryptSpec(w, e, f.state, partition, mountDir, keyDir);
      if s.result.Err? then Step(s.state, Err(s.result.error))
      else Step(s.state, Ok(PartitionInfo(partition, f.result.value, s.result.value.0, s.result.value.1)))
  }

  /** The loop over the remaining partitions, after `done` were recorded; the
      first exception leaves it. */
  function ProvisionFrom(w: Oracle, e: Entropy, m: Machine, partitions: seq<string>, mountDir: string, keyDir: string,
                         done: seq<PartitionInfo>): Step<seq<PartitionInfo>>
    decreases |partitions|
  {
    if partitions == [] then Step(m, Ok(done))
    else
      var s := ProvisionOne(w, e, m, partitions[0], mountDir, keyDir);
      if s.result.Err? then Step(s.state, Err(s.result.error))
      else ProvisionFrom(w, e, s.state, partitions[1..], mountDir, keyDir, done + [s.result.value])
  }

  /** The whole loop: the `hdd_info` entries of all partitions. */
  function ProvisionEach(w: Oracle, e: Entropy, m: Machine, partitions: seq<string>, mountDir: string, keyDir: string)
    : Step<seq<PartitionInfo>>
  {
    ProvisionFrom(w, e, m, partitions, mountDir, keyDir, [])
  }

  /** The three lists the loop leaves, or the exception that left it. */
  function ProvisionSpec(w: Oracle, e: Entropy, m: Machine, partitions: seq<string>, mountDir: string, keyDir: string)
    : Step<Records>
  {
    var s := ProvisionEach(w, e, m, partitions, mountDir, keyDir);
    if s.result.Err? then Step(s.state, Err(s.result.error)) else Step(s.state, Ok(RecordsOf(s.result.value)))
  }

  /** One turn of the loop over partition `k`, seen from `before`. */
  lemma ProvisionFromAt(w: Oracle, e: Entropy, before: Machine, partitions: seq<string>, k: nat,
                        mountDir: string, keyDir: string, done: seq<PartitionInfo>)
    requires k < |partitions|
    ensures var s := ProvisionOne(w, e, before, partitions[k], mountDir, keyDir);
      ProvisionFrom(w, e, before, partitions[k..], mountDir, keyDir, done)
        == if s.result.Err? then Step(s.state, Err(s.result.error))
           else ProvisionFrom(w, e, s.state, partitions[k + 1..], mountDir, keyDir, done + [s.result.value])
  {
    assert partitions[k..][0] == partitions[k];
    assert partitions[k..][1..] == partitions[k + 1..];
  }

  /** Lines 113-123 of the package entry point and 131-141 of the runner. */
  method ProvisionPartitions(h: Host, partitions: seq<string>, mountDir: string, keyDir: string)
    returns (r: Result<Records>)
    modifies h
    ensures Step(h.State(), r) == ProvisionSpec(h.answer, h.entropy, old(h.State()), partitions, mountDir, keyDir)
  {
    ghost var target := ProvisionEach(h.answer, h.entropy, h.State(), partitions, mountDir, keyDir);
    var results: seq<PartitionResult> := [];
    var infos: seq<PartitionInfo> := [];
    var keyFiles: seq<string> := [];
    var k := 0;
    while k < |partitions|
      invariant 0 <= k <= |partitions|
      invariant Recorded(results, infos, keyFiles)
      invariant target == ProvisionFrom(h.answer, h.entropy, h.State(), partitions[k..], mountDir, keyDir, infos)
    {
      ProvisionFromAt(h.answer, h.entropy, h.State(), partitions, k, mountDir, keyDir, infos);
      var partition := partitions[k];
      var partitionUuid := FormatPartition(h, partition);
      if partitionUuid.Err? {
        return Err(partitionUuid.error);
      }
      var encrypted := EncryptPartition(h, partition, mountDir, keyDir);
      if encrypted.Err? {
        return Err(encrypted.error);
      }
      var luksUuid := encrypted.value.0;
      var keyFile := encrypted.value.1;
      var info := PartitionInfo(partition, partitionUuid.value, luksUuid, keyFile);
      RecordedAppend(results, infos, keyFiles, info);
      keyFiles := keyFiles + [keyFile];
      results := results + [PartitionResult(partition, partitionUuid.value)];
      infos := infos + [info];
      k := k + 1;
    }
    assert partitions[k..] == [];
    RecordedRecords(results, infos, keyFiles);
    r := Ok(Records(results, infos, keyFiles));
  }

  // ---------------------------------------------------------------------
  // Properties

  /** The commands one turn means to issue: `mkfs.ext4` and `blkid` of the
      partition, then the commands of its encryption. */
  function ProvisionOnePlan(partition: string, mountDir: string, keyDir: string): (plan: seq<Command>)
    ensures |plan| == 7
  {
    [Mkfs(partition), Blkid(partition)] + EncryptPlan(partition, mountDir, keyDir)
  }

  /** The commands the whole loop means to issue, partition by partition. */
  function ProvisionPlan(partitions: seq<string>, mountDir: string, keyDir: string): (plan: seq<Command>)
    ensures |plan| == 7 * |partitions|
  {
    if partitions == [] then []
    else ProvisionOnePlan(partitions[0], mountDir, keyDir) + ProvisionPlan(partitions[1..], mountDir, keyDir)
  }

  /** The entry one successful turn records, issued from trace position
      `at`: the partition, the stripped `blkid` answer (the second command),
      the stripped `luksUUID` answer (the seventh) and the key file path. */
  function ExpectedInfo(w: Oracle, at: nat, partition: string, keyDir: string): PartitionInfo
  {
    PartitionInfo(partition, AnswerAt(w, at + 1, Blkid(partition)), AnswerAt(w, at + 6, LuksUuid(partition)),
                  KeyFilePath(keyDir, partition))
  }

  /** A successful turn issued its seven commands in order and records the
      partition with the UUIDs its own `blkid` and `luksUUID` answered and
      its own key file; the key drawn after the format is in that file. */
  lemma ProvisionOneResult(w: Oracle, e: Entropy, m: Machine, partition: string, mountDir: string, keyDir: string, at: nat)
    requires at == |m.trace|
    ensures var s := ProvisionOne(w, e, m, partition, mountDir, keyDir);
      s.result.Ok? ==>
        && m.trace <= s.state.trace
        && Issued(m, s.state) == ProvisionOnePlan(partition, mountDir, keyDir)
        && s.result.value == ExpectedInfo(w, at, partition, keyDir)
        && s.state.keys == m.keys[KeyFilePath(keyDir, partition) := e(at + 2)]
  {
    ProvisionOneIssues(w, e, m, partition, mountDir, keyDir);
    ProvisionOneInfo(w, e, m, partition, mountDir, keyDir, at);
    ProvisionOneKey(w, e, m, partition, mountDir, keyDir, at);
  }

  /** A successful turn issued its seven commands in order. */
  lemma ProvisionOneIssues(w: Oracle, e: Entropy, m: Machine, partition: string, mountDir: string, keyDir: string)
    ensures var s := ProvisionOne(w, e, m, partition, mountDir, keyDir);
      s.result.Ok? ==>
        && m.trace <= s.state.trace
        && Issued(m, s.state) == ProvisionOnePlan(partition, mountDir, keyDir)
  {
    var f := FormatSpec(w, m, partition);
    FormatIssues(w, m, partition);
    if f.result.Ok? {
      EncryptIssuesPlan(w, e, f.state, partition, mountDir, keyDir);
      var s := EncryptSpec(w, e, f.state, partition, mountDir, keyDir);
      if s.result.Ok? {
        IssuedConcat(m, f.state, s.state);
        assert ProvisionOne(w, e, m, partition, mountDir, keyDir).state == s.state;
      }
    }
  }

  /** A successful turn records the partition with the UUIDs its own
      `blkid` and `luksUUID` answered and its own key file. */
  lemma ProvisionOneInfo(w: Oracle, e: Entropy, m: Machine, partition: string, mountDir: string, keyDir: string, at: nat)
    requires at == |m.trace|
    ensures var s := ProvisionOne(w, e, m, partition, mountDir, keyDir);
      s.result.Ok? ==> s.result.value == ExpectedInfo(w, at, partition, keyDir)
  {
    var f := FormatSpec(w, m, partition);
    FormatOrder(w, m, partition);
    if f.result.Ok? && keyDir in f.state.dirs {
      var keyFile := KeyFilePath(keyDir, partition);
      assert |f.state.trace| == at + 2;
      EncryptWritesKeyFirst(w, e, f.state, partition, mountDir, keyDir);
      var m0 := f.state.(keys := f.state.keys[keyFile := e(|f.state.trace|)]);
      EncryptRunAnswer(w, m0, partition, mountDir, keyFile, at + 2);
    }
  }

  /** After a successful turn the partition's key file holds the key drawn
      once its format was done, and no other key file changed. */
  lemma ProvisionOneKey(w: Oracle, e: Entropy, m: Machine, partition: string, mountDir: string, keyDir: string, at: nat)
    requires at == |m.trace|
    ensures var s := ProvisionOne(w, e, m, partition, mountDir, keyDir);
      s.result.Ok? ==> s.state.keys == m.keys[KeyFilePath(keyDir, partition) := e(at + 2)]
  {
    var f := FormatSpec(w, m, partition);
    FormatOrder(w, m, partition);
    if f.result.Ok? {
      assert |f.state.trace| == at + 2;
      EncryptOrder(w, e, f.state, partition, mountDir, keyDir);
    }
  }

  /** Without the key directory, a turn whose format succeeded raises
      `FileNotFoundError` for the key file and issues nothing after `blkid`. */
  lemma ProvisionOneNoKeyDir(w: Oracle, e: Entropy, m: Machine, partition: string, mountDir: string, keyDir: string)
    requires keyDir !in m.dirs
    ensures var s := ProvisionOne(w, e, m, partition, mountDir, keyDir);
      && s.result.Err?
      && (FormatSpec(w, m, partition).result.Ok? ==>
            && s.result.error == FileNotFoundError(KeyFilePath(keyDir, partition))
            && Issued(m, s.state) == [Mkfs(partition), Blkid(partition)])
  {
    FormatOrder(w, m, partition);
  }

  /** A successful loop issued every turn's commands, partition by
      partition, kept every key file there was and left the key file of
      every partition in place. */
  lemma {:induction false} ProvisionFromIssues(w: Oracle, e: Entropy, m: Machine, partitions: seq<string>,
                                               mountDir: string, keyDir: string, done: seq<PartitionInfo>)
    ensures var s := ProvisionFrom(w, e, m, partitions, mountDir, keyDir, done);
      s.result.Ok? ==>
        && m.trace <= s.state.trace
        && m.keys.Keys <= s.state.keys.Keys
        && Issued(m, s.state) == ProvisionPlan(partitions, mountDir, keyDir)
        && (forall k :: 0 <= k < |partitions| ==> KeyFilePath(keyDir, partitions[k]) in s.state.keys)
    decreases |partitions|
  {
    if partitions != [] {
      var p := partitions[0];
      var one := ProvisionOne(w, e, m, p, mountDir, keyDir);
      ProvisionOneIssues(w, e, m, p, mountDir, keyDir);
      ProvisionOneKey(w, e, m, p, mountDir, keyDir, |m.trace|);
      if one.result.Ok? {
        var rest := partitions[1..];
        var done' := done + [one.result.value];
        ProvisionFromIssues(w, e, one.state, rest, mountDir, keyDir, done');
        var s := ProvisionFrom(w, e, one.state, rest, mountDir, keyDir, done');
        if s.result.Ok? {
          IssuedConcat(m, one.state, s.state);
          assert ProvisionPlan(partitions, mountDir, keyDir)
              == ProvisionOnePlan(p, mountDir, keyDir) + ProvisionPlan(rest, mountDir, keyDir);
          forall k | 0 <= k < |partitions|
            ensures KeyFilePath(keyDir, partitions[k]) in s.state.keys
          {
            if k > 0 {
              assert partitions[k] == rest[k - 1];
            }
          }
        }
      }
    }
  }

  /** The entries `info` gives for `partitions` when the first turn starts
      at trace position `at` and each turn issues seven commands. */
  function Strided(info: (nat, string) -> PartitionInfo, at: nat, partitions: seq<string>): (infos: seq<PartitionInfo>)
    ensures |infos| == |partitions|
    decreases |partitions|
  {
    if partitions == [] then []
    else [info(at, partitions[0])] + Strided(info, at + 7, partitions[1..])
  }

  /** The k-th entry is that of the k-th partition, whose turn starts
      `7 * k` commands after the first. */
  lemma {:induction false} StridedAt(info: (nat, string) -> PartitionInfo, at: nat, partitions: seq<string>, k: nat)
    requires k < |partitions|
    ensures Strided(info, at, partitions)[k] == info(at + 7 * k, partitions[k])
    decreases k
  {
    if k > 0 {
      StridedAt(info, at + 7, partitions[1..], k - 1);
      assert partitions[1..][k - 1] == partitions[k];
      assert (at + 7) + 7 * (k - 1) == at + 7 * k;
    }
  }

  /** Appending an entry and then the rest is appending both. */
  lemma AppendOne(done: seq<PartitionInfo>, info: PartitionInfo, later: seq<PartitionInfo>)
    ensures (done + [info]) + later == done + ([info] + later)
  {
  }

  /** `ExpectedInfo` as a function of the turn's position and partition. */
  function InfoOf(w: Oracle, keyDir: string): (nat, string) -> PartitionInfo
  {
    (at: nat, partition: string) => ExpectedInfo(w, at, partition, keyDir)
  }


  /** A successful loop recorded, after the entries it started with, the
      expected entry of every partition, in partition order. */
  lemma {:induction false} ProvisionFromValues(w: Oracle, e: Entropy, m: Machine, partitions: seq<string>,
                                               mountDir: string, keyDir: string, done: seq<PartitionInfo>, at: nat)
    requires at == |m.trace|
    ensures var s := ProvisionFrom(w, e, m, partitions, mountDir, keyDir, done);
      s.result.Ok? ==> s.result.value == done + Strided(InfoOf(w, keyDir), at, partitions)
    decreases |partitions|
  {
    if partitions != [] {
      var p := partitions[0];
      var one := ProvisionOne(w, e, m, p, mountDir, keyDir);
      ProvisionOneIssues(w, e, m, p, mountDir, keyDir);
      ProvisionOneInfo(w, e, m, p, mountDir, keyDir, at);
      if one.result.Ok? {
        var rest := partitions[1..];
        var done' := done + [one.result.value];
        assert |one.state.trace| == at + 7;
        assert one.result.value == InfoOf(w, keyDir)(at, p);
        ProvisionFromValues(w, e, one.state, rest, mountDir, keyDir, done', at + 7);
        assert ProvisionFrom(w, e, m, partitions, mountDir, keyDir, done)
            == ProvisionFrom(w, e, one.state, rest, mountDir, keyDir, done');
        var later := Strided(InfoOf(w, keyDir), at + 7, rest);
        assert Strided(InfoOf(w, keyDir), at, partitions) == [one.result.value] + later;
        AppendOne(done, one.result.value, later);
      }
    }
  }

  /** `hdd_info["partitions"]` after the whole loop: one entry per
      partition, in partition order, the k-th (by `StridedAt`) carrying the
      k-th partition, the UUIDs its own `blkid` and `luksUUID` answered (the
      second and seventh of its seven commands) and its own key file. */
  lemma ProvisionEachValues(w: Oracle, e: Entropy, m: Machine, partitions: seq<string>, mountDir: string, keyDir: string)
    ensures var s := ProvisionEach(w, e, m, partitions, mountDir, keyDir);
      s.result.Ok? ==> s.result.value == Strided(InfoOf(w, keyDir), |m.trace|, partitions)
  {
    ProvisionFromValues(w, e, m, partitions, mountDir, keyDir, [], |m.trace|);
  }

  /** Whatever the answers, the entry of a partition names that partition
      and its key file. */
  lemma InfoOfFields(w: Oracle, keyDir: string)
    ensures forall at: nat, partition: string ::
      && InfoOf(w, keyDir)(at, partition).partition == partition
      && InfoOf(w, keyDir)(at, partition).encryptionKey == KeyFilePath(keyDir, partition)
  {
  }

  /** Entries that each name their partition and its key file, laid out
      partition by partition. */
  lemma StridedFields(info: (nat, string) -> PartitionInfo, at: nat, partitions: seq<string>, keyDir: string)
    requires forall j: nat, partition: string ::
      info(j, partition).partition == partition && info(j, partition).encryptionKey == KeyFilePath(keyDir, partition)
    ensures forall k :: 0 <= k < |partitions| ==>
      && Strided(info, at, partitions)[k].partition == partitions[k]
      && Strided(info, at, partitions)[k].encryptionKey == KeyFilePath(keyDir, partitions[k])
  {
    forall k | 0 <= k < |partitions|
      ensures Strided(info, at, partitions)[k].partition == partitions[k]
      ensures Strided(info, at, partitions)[k].encryptionKey == KeyFilePath(keyDir, partitions[k])
    {
      StridedAt(info, at, partitions, k);
    }
  }

  /** After the whole loop, the k-th entry of `hdd_info["partitions"]`
      names the k-th partition and its own key file. */
  lemma ProvisionEachFields(w: Oracle, e: Entropy, m: Machine, partitions: seq<string>, mountDir: string, keyDir: string)
    ensures var s := ProvisionEach(w, e, m, partitions, mountDir, keyDir);
      s.result.Ok? ==>
        && |s.result.value| == |partitions|
        && forall k :: 0 <= k < |partitions| ==>
             s.result.value[k].partition == partitions[k] && s.result.value[k].encryptionKey == KeyFilePath(keyDir, partitions[k])
  {
    ProvisionEachValues(w, e, m, partitions, mountDir, keyDir);
    InfoOfFields(w, keyDir);
    StridedFields(InfoOf(w, keyDir), |m.trace|, partitions, keyDir);
  }
}
