/** `unmount_partitions` (endoreg_usb_encrypter/functions/unmount_partitions.py):
    list the mounts whose line mentions the mount directory and unmount
    each listed mount point. */
module Unmount {
  import opened Text
  import opened Shell
  import opened Listing

  function UnmountSpec(w: Oracle, m: Machine, mountDir: string): Step<()>
  {
    var s1 := Exec(w, m, ListMountsUnder(mountDir));
    if s1.result.Err? then Step(s1.state, Err(s1.result.error))
    else if s1.result.value == [] then Step(s1.state, Ok(()))
    else UmountListed(w, s1.state, Lines(s1.result.value), ByMountpoint)
  }

  method UnmountPartitions(h: Host, mountDir: string) returns (r: Result<()>)
    modifies h
    ensures Step(h.State(), r) == UnmountSpec(h.answer, old(h.State()), mountDir)
  {
    var mounts := h.RunCommand(ListMountsUnder(mountDir));
    if mounts.Err? {
      return Err(mounts.error);
    }
    if mounts.value == [] {
      return Ok(());
    }
    r := UmountLines(h, Lines(mounts.value), ByMountpoint);
  }

  /** The mount listing comes first and its failure stops everything; an
      empty listing issues nothing more. No mapping is opened, no mount
      added, and only `IndexError` or a command failure is raised. */
  lemma UnmountFrame(w: Oracle, m: Machine, mountDir: string)
    ensures var s := UnmountSpec(w, m, mountDir);
      var issued := Issued(m, s.state);
      && Shrinks(m, s.state)
      && issued != [] && issued[0] == ListMountsUnder(mountDir)
      && (w(|m.trace|, ListMountsUnder(mountDir)).code != 0 ==> s.result.Err? && issued == [ListMountsUnder(mountDir)])
      && (w(|m.trace|, ListMountsUnder(mountDir)).code == 0 && Answer(w, m, ListMountsUnder(mountDir)) == [] ==>
            s.result.Ok? && issued == [ListMountsUnder(mountDir)])
      && (s.result.Err? ==> s.result.error == IndexError || s.result.error.CalledProcessError?)
  {
    var s1 := Exec(w, m, ListMountsUnder(mountDir));
    ExecShrinks(w, m, ListMountsUnder(mountDir));
    assert Issued(m, s1.state) == [ListMountsUnder(mountDir)];
    if s1.result.Ok? && s1.result.value != [] {
      var lines := Lines(s1.result.value);
      var s := UmountListed(w, s1.state, lines, ByMountpoint);
      UmountListedDetaches(w, s1.state, lines, ByMountpoint);
      UmountListedFailures(w, s1.state, lines, ByMountpoint);
      ShrinksTrans(m, s1.state, s.state);
      IssuedConcat(m, s1.state, s.state);
    }
  }

  /** A successful run issued one `umount` per listed mount point, in
      listing order, after the listing. */
  lemma UnmountIssuesPlan(w: Oracle, m: Machine, mountDir: string)
    ensures var s := UnmountSpec(w, m, mountDir);
      var lines := Lines(Answer(w, m, ListMountsUnder(mountDir)));
      s.result.Ok? ==>
        && NonBlank(lines)
        && Issued(m, s.state) == [ListMountsUnder(mountDir)] + UmountPlan(lines, ByMountpoint)
  {
    var s1 := Exec(w, m, ListMountsUnder(mountDir));
    assert Issued(m, s1.state) == [ListMountsUnder(mountDir)];
    if s1.result.Ok? {
      var lines := Lines(s1.result.value);
      var s := UmountListed(w, s1.state, lines, ByMountpoint);
      UmountListedShrinks(w, s1.state, lines, ByMountpoint);
      UmountListedSucceeds(w, s1.state, lines, ByMountpoint);
      IssuedConcat(m, s1.state, s.state);
    }
  }

  /** After a successful run each listed mount point is detached. */
  lemma UnmountDetaches(w: Oracle, m: Machine, mountDir: string)
    ensures var s := UnmountSpec(w, m, mountDir);
      var lines := Lines(Answer(w, m, ListMountsUnder(mountDir)));
      s.result.Ok? ==>
        forall k :: 0 <= k < |lines| && |Fields(lines[k])| > 1 ==> Detached(s.state.mounts, Fields(lines[k])[1])
  {
    var s1 := Exec(w, m, ListMountsUnder(mountDir));
    if s1.result.Ok? {
      UmountListedDetaches(w, s1.state, Lines(s1.result.value), ByMountpoint);
    }
  }

  /** A successful run issued nothing but the listing and `umount`s. */
  lemma UnmountIssuesOnly(w: Oracle, m: Machine, mountDir: string)
    ensures var s := UnmountSpec(w, m, mountDir);
      var issued := Issued(m, s.state);
      s.result.Ok? ==> forall k :: 0 <= k < |issued| ==> issued[k].ListMountsUnder? || issued[k].Umount?
  {
    UnmountIssuesPlan(w, m, mountDir);
    var s := UnmountSpec(w, m, mountDir);
    var lines := Lines(Answer(w, m, ListMountsUnder(mountDir)));
    if s.result.Ok? {
      var plan := UmountPlan(lines, ByMountpoint);
      var issued := Issued(m, s.state);
      forall k | 0 <= k < |issued| ensures issued[k].ListMountsUnder? || issued[k].Umount? {
        if k > 0 {
          assert issued[k] == plan[k - 1];
        }
      }
    }
  }
}
