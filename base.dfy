/** `list_devices` and `format_partition`
    (endoreg_usb_encrypter/functions/base.py). */
module Base {
  import opened Text
  import opened Shell

  /** `list_devices`: one listing of the whole-disk devices. */
  method ListDevices(h: Host) returns (r: Result<string>)
    modifies h
    ensures Step(h.State(), r) == Exec(h.answer, old(h.State()), ListDisks)
  {
    r := h.RunCommand(ListDisks);
  }

  /** `list_devices` issues exactly one command, the disk listing, and
      returns its stripped output. */
  lemma ListDevicesIssuesOne(w: Oracle, m: Machine)
    ensures var s := Exec(w, m, ListDisks);
      && Issued(m, s.state) == [ListDisks]
      && (s.result.Ok? ==> s.result.value == Strip(Output(ListDisks, w(|m.trace|, ListDisks).stdout)))
  {
  }

  /** `format_partition(p)`: `mkfs.ext4 p`, then `blkid` of `p`, whose output
      is the partition's UUID. */
  function FormatSpec(w: Oracle, m: Machine, partition: string): Step<string>
  {
    var s1 := Exec(w, m, Mkfs(partition));
    if s1.result.Err? then Step(s1.state, Err(s1.result.error))
    else Exec(w, s1.state, Blkid(partition))
  }

  method FormatPartition(h: Host, partition: string) returns (r: Result<string>)
    modifies h
    ensures Step(h.State(), r) == FormatSpec(h.answer, old(h.State()), partition)
  {
    r := h.RunCommand(Mkfs(partition));
    if r.Ok? {
      r := h.RunCommand(Blkid(partition));
    }
  }

  /** A successful format issued `mkfs.ext4`, then `blkid`, and nothing else. */
  lemma FormatIssues(w: Oracle, m: Machine, partition: string)
    ensures var s := FormatSpec(w, m, partition);
      s.result.Ok? ==> m.trace <= s.state.trace && Issued(m, s.state) == [Mkfs(partition), Blkid(partition)]
  {
    FormatOrder(w, m, partition);
  }

  /** The file system is made strictly before its UUID is read: what is
      issued is a prefix of `mkfs`, `blkid`; on success both were issued and
      the UUID is the stripped `blkid` output. */
  lemma FormatOrder(w: Oracle, m: Machine, partition: string)
    ensures var s := FormatSpec(w, m, partition);
      var issued := Issued(m, s.state);
      && issued <= [Mkfs(partition), Blkid(partition)]
      && issued != []
      && (s.result.Ok? <==> issued == [Mkfs(partition), Blkid(partition)] && w(|m.trace| + 1, Blkid(partition)).code == 0)
      && (s.result.Ok? ==> s.result.value == Strip(w(|m.trace| + 1, Blkid(partition)).stdout))
      && s.state.dirs == m.dirs && s.state.keys == m.keys
  {
    var s1 := Exec(w, m, Mkfs(partition));
    if s1.result.Ok? {
      var s := Exec(w, s1.state, Blkid(partition));
      assert Issued(m, s.state) == [Mkfs(partition), Blkid(partition)];
    } else {
      assert Issued(m, s1.state) == [Mkfs(partition)];
    }
  }
}
