/** The loop shared by `cleanup_device` (its first phase) and
    `unmount_partitions`: walk the lines of an `lsblk` listing of
    `NAME MOUNTPOINT` pairs and unmount every entry that shows a mount point.
    A blank line has no first field, which Python reports as `IndexError`. */
module Listing {
  import opened Text
  import opened Names
  import opened Shell

  /** What `umount` is given: the device node `/dev/<name>` (cleanup) or
      the mount point itself (unmount_partitions). */
  datatype UmountBy = ByDevice | ByMountpoint

  function UmountTarget(mode: UmountBy, fields: seq<string>): string
    requires |fields| >= 2
  {
    match mode
    case ByDevice => DevicePath(fields[0])
    case ByMountpoint => fields[1]
  }

  /** The loop over the listing lines: a line without fields raises
      `IndexError`; a line with a second field issues one `umount`, whose
      failure propagates; a line with one field issues nothing. */
  function UmountListed(w: Oracle, m: Machine, lines: seq<string>, mode: UmountBy): Step<()>
    decreases |lines|
  {
    if lines == [] then Step(m, Ok(()))
    else
      var fields := Fields(lines[0]);
      if fields == [] then Step(m, Err(IndexError))
      else if |fields| > 1 then
        var s := Exec(w, m, Umount(UmountTarget(mode, fields)));
        if s.result.Err? then Step(s.state, Err(s.result.error))
        else UmountListed(w, s.state, lines[1..], mode)
      else UmountListed(w, m, lines[1..], mode)
  }

  /** The `umount` commands a listing calls for, in line order: one per line
      that shows a mount point. */
  function UmountPlan(lines: seq<string>, mode: UmountBy): (plan: seq<Command>)
    ensures |plan| <= |lines|
    ensures forall k :: 0 <= k < |plan| ==> plan[k].Umount?
  {
    if lines == [] then []
    else
      var fields := Fields(lines[0]);
      (if |fields| > 1 then [Umount(UmountTarget(mode, fields))] else []) + UmountPlan(lines[1..], mode)
  }

  /** No line of the listing is blank. */
  predicate NonBlank(lines: seq<string>)
  {
    forall k :: 0 <= k < |lines| ==> Fields(lines[k]) != []
  }

  /** A listing without blank lines is handled by issuing its `umount`
      plan in order, stopping at the first failure. */
  lemma {:induction false} UmountListedIsPlan(w: Oracle, m: Machine, lines: seq<string>, mode: UmountBy)
    requires NonBlank(lines)
    ensures UmountListed(w, m, lines, mode) == ExecAll(w, m, UmountPlan(lines, mode))
    decreases |lines|
  {
    if lines != [] {
      assert NonBlank(lines[1..]) by {
        forall k | 0 <= k < |lines| - 1 ensures Fields(lines[1..][k]) != [] {
          assert lines[1..][k] == lines[k + 1];
        }
      }
      var fields := Fields(lines[0]);
      assert fields != [];
      if |fields| > 1 {
        var s := Exec(w, m, Umount(UmountTarget(mode, fields)));
        ExecAllCons(w, m, Umount(UmountTarget(mode, fields)), UmountPlan(lines[1..], mode));
        if s.result.Ok? {
          UmountListedIsPlan(w, s.state, lines[1..], mode);
        }
      } else {
        assert UmountPlan(lines, mode) == UmountPlan(lines[1..], mode);
        UmountListedIsPlan(w, m, lines[1..], mode);
      }
    }
  }

  /** A blank line stops the loop with `IndexError` (unless an earlier
      `umount` failed first). */
  lemma {:induction false} UmountListedBlank(w: Oracle, m: Machine, lines: seq<string>, mode: UmountBy)
    requires !NonBlank(lines)
    ensures UmountListed(w, m, lines, mode).result.Err?
    ensures UmountListed(w, m, lines, mode).result.error == IndexError
         || UmountListed(w, m, lines, mode).result.error.CalledProcessError?
    decreases |lines|
  {
    var fields := Fields(lines[0]);
    if fields != [] {
      assert !NonBlank(lines[1..]) by {
        var k :| 0 <= k < |lines| && Fields(lines[k]) == [];
        assert k != 0;
        assert lines[1..][k - 1] == lines[k];
      }
      if |fields| > 1 {
        var s := Exec(w, m, Umount(UmountTarget(mode, fields)));
        if s.result.Ok? {
          UmountListedBlank(w, s.state, lines[1..], mode);
        }
      } else {
        UmountListedBlank(w, m, lines[1..], mode);
      }
    }
  }

  /** `umount t` is in the plan exactly when some line shows a mount point
      and names `t` as its target. */
  lemma UmountPlanMembers(lines: seq<string>, mode: UmountBy, c: Command)
    ensures c in UmountPlan(lines, mode) <==>
      exists k :: 0 <= k < |lines| && |Fields(lines[k])| > 1 && c == Umount(UmountTarget(mode, Fields(lines[k])))
  {
    if c in UmountPlan(lines, mode) {
      UmountPlanListed(lines, mode, c);
    }
    if exists k :: 0 <= k < |lines| && |Fields(lines[k])| > 1 && c == Umount(UmountTarget(mode, Fields(lines[k]))) {
      var k :| 0 <= k < |lines| && |Fields(lines[k])| > 1 && c == Umount(UmountTarget(mode, Fields(lines[k])));
      UmountPlanHas(lines, mode, k);
    }
  }

  /** Every command of the plan comes from a line that shows a mount point. */
  lemma {:induction false} UmountPlanListed(lines: seq<string>, mode: UmountBy, c: Command)
    requires c in UmountPlan(lines, mode)
    ensures exists k :: 0 <= k < |lines| && |Fields(lines[k])| > 1 && c == Umount(UmountTarget(mode, Fields(lines[k])))
    decreases |lines|
  {
    var fields := Fields(lines[0]);
    var head: seq<Command> := if |fields| > 1 then [Umount(UmountTarget(mode, fields))] else [];
    assert UmountPlan(lines, mode) == head + UmountPlan(lines[1..], mode);
    if c !in head {
      UmountPlanListed(lines[1..], mode, c);
      var k :| 0 <= k < |lines[1..]| && |Fields(lines[1..][k])| > 1 && c == Umount(UmountTarget(mode, Fields(lines[1..][k])));
      assert lines[1..][k] == lines[k + 1];
    } else {
      assert |Fields(lines[0])| > 1 && c == Umount(UmountTarget(mode, Fields(lines[0])));
    }
  }

  /** Every line that shows a mount point puts its `umount` in the plan. */
  lemma {:induction false} UmountPlanHas(lines: seq<string>, mode: UmountBy, k: nat)
    requires k < |lines| && |Fields(lines[k])| > 1
    ensures Umount(UmountTarget(mode, Fields(lines[k]))) in UmountPlan(lines, mode)
    decreases |lines|
  {
    var fields := Fields(lines[0]);
    var head: seq<Command> := if |fields| > 1 then [Umount(UmountTarget(mode, fields))] else [];
    assert UmountPlan(lines, mode) == head + UmountPlan(lines[1..], mode);
    if k > 0 {
      UmountPlanHas(lines[1..], mode, k - 1);
      assert lines[1..][k - 1] == lines[k];
    }
  }

  /** One turn of the loop over line `k`, seen from its state `before`. */
  lemma UmountListedAt(w: Oracle, before: Machine, lines: seq<string>, k: nat, mode: UmountBy)
    requires k < |lines|
    ensures var fields := Fields(lines[k]);
      UmountListed(w, before, lines[k..], mode) ==
        if fields == [] then Step(before, Err(IndexError))
        else if |fields| > 1 then
          var s := Exec(w, before, Umount(UmountTarget(mode, fields)));
          if s.result.Err? then Step(s.state, Err(s.result.error))
          else UmountListed(w, s.state, lines[k + 1..], mode)
        else UmountListed(w, before, lines[k + 1..], mode)
  {
    assert lines[k..][0] == lines[k];
    assert lines[k..][1..] == lines[k + 1..];
  }

  /** The loop itself, on the host: one `umount` per listed mount point. */
  method UmountLines(h: Host, lines: seq<string>, mode: UmountBy) returns (r: Result<()>)
    modifies h
    ensures Step(h.State(), r) == UmountListed(h.answer, old(h.State()), lines, mode)
  {
    ghost var target := UmountListed(h.answer, h.State(), lines, mode);
    var k := 0;
    while k < |lines|
      invariant 0 <= k <= |lines|
      invariant target == UmountListed(h.answer, h.State(), lines[k..], mode)
    {
      UmountListedAt(h.answer, h.State(), lines, k, mode);
      var fields := Fields(lines[k]);
      if fields == [] {
        return Err(IndexError);
      }
      if |fields| > 1 {
        var u := h.RunCommand(Umount(UmountTarget(mode, fields)));
        if u.Err? {
          return Err(u.error);
        }
      }
      k := k + 1;
    }
    r := Ok(());
  }

  /** The loop never opens a mapping or adds or changes a mount. */
  lemma {:induction false} UmountListedShrinks(w: Oracle, m: Machine, lines: seq<string>, mode: UmountBy)
    ensures Shrinks(m, UmountListed(w, m, lines, mode).state)
    decreases |lines|
  {
    if lines != [] {
      var fields := Fields(lines[0]);
      if fields != [] {
        if |fields| > 1 {
          var t := UmountTarget(mode, fields);
          var s1 := Exec(w, m, Umount(t));
          ExecShrinks(w, m, Umount(t));
          if s1.result.Ok? {
            UmountListedShrinks(w, s1.state, lines[1..], mode);
            ShrinksTrans(m, s1.state, UmountListed(w, s1.state, lines[1..], mode).state);
          }
        } else {
          UmountListedShrinks(w, m, lines[1..], mode);
        }
      }
    }
  }

  /** After the loop succeeds every listed mount point is detached (its
      device node under cleanup, the mount point itself under
      unmount_partitions), and no mount was added or changed. */
  lemma {:induction false} UmountListedDetaches(w: Oracle, m: Machine, lines: seq<string>, mode: UmountBy)
    ensures var s := UmountListed(w, m, lines, mode);
      && Shrinks(m, s.state)
      && (s.result.Ok? ==>
            forall k :: 0 <= k < |lines| && |Fields(lines[k])| > 1 ==>
              Detached(s.state.mounts, UmountTarget(mode, Fields(lines[k]))))
    decreases |lines|
  {
    UmountListedShrinks(w, m, lines, mode);
    if lines != [] {
      var fields := Fields(lines[0]);
      if fields != [] {
        if |fields| > 1 {
          var t := UmountTarget(mode, fields);
          var s1 := Exec(w, m, Umount(t));
          ExecUmount(w, m, t);
          if s1.result.Ok? {
            UmountListedDetaches(w, s1.state, lines[1..], mode);
            var s := UmountListed(w, s1.state, lines[1..], mode);
            if s.result.Ok? {
              forall k | 0 <= k < |lines| && |Fields(lines[k])| > 1
                ensures Detached(s.state.mounts, UmountTarget(mode, Fields(lines[k])))
              {
                if k > 0 {
                  assert lines[1..][k - 1] == lines[k];
                } else {
                  DetachedSubmap(s.state.mounts, s1.state.mounts, t);
                }
              }
            }
          }
        } else {
          UmountListedDetaches(w, m, lines[1..], mode);
          var s := UmountListed(w, m, lines[1..], mode);
          if s.result.Ok? {
            forall k | 0 <= k < |lines| && |Fields(lines[k])| > 1
              ensures Detached(s.state.mounts, UmountTarget(mode, Fields(lines[k])))
            {
              assert k > 0;
              assert lines[1..][k - 1] == lines[k];
            }
          }
        }
      }
    }
  }

  /** The loop issues nothing but `umount` commands, whatever the listing
      and however it ends. */
  lemma {:induction false} UmountListedIssuesUmounts(w: Oracle, m: Machine, lines: seq<string>, mode: UmountBy)
    ensures var s := UmountListed(w, m, lines, mode);
      && m.trace <= s.state.trace
      && forall k :: 0 <= k < |Issued(m, s.state)| ==> Issued(m, s.state)[k].Umount?
    decreases |lines|
  {
    if lines != [] {
      var fields := Fields(lines[0]);
      if fields != [] {
        if |fields| > 1 {
          var t := UmountTarget(mode, fields);
          var s1 := Exec(w, m, Umount(t));
          assert Issued(m, s1.state) == [Umount(t)];
          if s1.result.Ok? {
            var s := UmountListed(w, s1.state, lines[1..], mode);
            UmountListedIssuesUmounts(w, s1.state, lines[1..], mode);
            IssuedConcat(m, s1.state, s.state);
          }
        } else {
          UmountListedIssuesUmounts(w, m, lines[1..], mode);
        }
      }
    }
  }

  /** The loop raises only `IndexError` or a command failure. */
  lemma UmountListedFailures(w: Oracle, m: Machine, lines: seq<string>, mode: UmountBy)
    ensures var s := UmountListed(w, m, lines, mode);
      s.result.Err? ==> s.result.error == IndexError || s.result.error.CalledProcessError?
  {
    if NonBlank(lines) {
      UmountListedIsPlan(w, m, lines, mode);
      ExecAllIssues(w, m, UmountPlan(lines, mode));
    } else {
      UmountListedBlank(w, m, lines, mode);
    }
  }

  /** A successful loop saw no blank line and issued exactly its plan. */
  lemma UmountListedSucceeds(w: Oracle, m: Machine, lines: seq<string>, mode: UmountBy)
    ensures var s := UmountListed(w, m, lines, mode);
      s.result.Ok? ==> NonBlank(lines) && Issued(m, s.state) == UmountPlan(lines, mode)
  {
    if NonBlank(lines) {
      UmountListedIsPlan(w, m, lines, mode);
      ExecAllIssues(w, m, UmountPlan(lines, mode));
    } else {
      UmountListedBlank(w, m, lines, mode);
    }
  }
}
