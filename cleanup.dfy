/** `cleanup_device` (endoreg_usb_encrypter/functions/cleanup_device.py):
    unmount whatever the device's listing shows mounted, close every open
    LUKS mapping (swallowing a command failure in that phase), then
    re-read the partition table. */
module Cleanup {
  import opened Text
  import opened Names
  import opened Shell
  import opened Listing

  /** One open mapping: list its mapper device, unmount it when the listing
      shows a mount point, then close the mapping. */
  function CloseOne(w: Oracle, m: Machine, name: string): Step<()>
  {
    var path := MapperPath(name);
    var s1 := Exec(w, m, ListMounts(path));
    if s1.result.Err? then Step(s1.state, Err(s1.result.error))
    else
      var s2 := if |Fields(s1.result.value)| > 1 then Exec(w, s1.state, Umount(path)) else Step(s1.state, Ok(""));
      if s2.result.Err? then Step(s2.state, Err(s2.result.error))
      else
        var s3 := Exec(w, s2.state, Close(name));
        if s3.result.Err? then Step(s3.state, Err(s3.result.error)) else Step(s3.state, Ok(()))
  }

  /** The loop over the lines of the crypt listing: the first field of each
      line names a mapping (a blank line raises `IndexError`). */
  function CloseListed(w: Oracle, m: Machine, lines: seq<string>): Step<()>
    decreases |lines|
  {
    if lines == [] then Step(m, Ok(()))
    else
      var fields := Fields(lines[0]);
      if fields == [] then Step(m, Err(IndexError))
      else
        var s := CloseOne(w, m, fields[0]);
        if s.result.Err? then s else CloseListed(w, s.state, lines[1..])
  }

  /** The `try` block: a failing crypt listing, an empty one, or a command
      failing while closing all end the phase normally; an `IndexError`
      from a blank line is not caught. */
  function CryptPhase(w: Oracle, m: Machine): Step<()>
  {
    var s := Exec(w, m, ListCrypt);
    if s.result.Err? then Step(s.state, Ok(()))
    else if s.result.value == [] then Step(s.state, Ok(()))
    else
      var r := CloseListed(w, s.state, Lines(s.result.value));
      if r.result.Err? && r.result.error.CalledProcessError? then Step(r.state, Ok(())) else r
  }

  /** `cleanup_device(device)`. */
  function CleanupSpec(w: Oracle, m: Machine, device: string): Step<()>
  {
    var s1 := Exec(w, m, ListMounts(device));
    if s1.result.Err? then Step(s1.state, Err(s1.result.error))
    else
      var s2 := UmountListed(w, s1.state, Lines(s1.result.value), ByDevice);
      if s2.result.Err? then s2
      else CleanupTail(w, s2.state, device)
  }

  /** The end of `cleanup_device`: the LUKS phase, then `partprobe`. */
  function CleanupTail(w: Oracle, m: Machine, device: string): Step<()>
  {
    var s3 := CryptPhase(w, m);
    if s3.result.Err? then s3
    else
      var s4 := Exec(w, s3.state, Partprobe(device));
      if s4.result.Err? then Step(s4.state, Err(s4.result.error)) else Step(s4.state, Ok(()))
  }

  // ---------------------------------------------------------------------
  // The procedure on the host

  /** One turn of the closing loop over line `k`, seen from `before`. */
  lemma CloseListedAt(w: Oracle, before: Machine, lines: seq<string>, k: nat)
    requires k < |lines|
    ensures var fields := Fields(lines[k]);
      CloseListed(w, before, lines[k..]) ==
        if fields == [] then Step(before, Err(IndexError))
        else
          var s := CloseOne(w, before, fields[0]);
          if s.result.Err? then s else CloseListed(w, s.state, lines[k + 1..])
  {
    assert lines[k..][0] == lines[k];
    assert lines[k..][1..] == lines[k + 1..];
  }

  /** The closing loop on the host; a failing command leaves the loop. */
  method CloseMappings(h: Host, lines: seq<string>) returns (r: Result<()>)
    modifies h
    ensures Step(h.State(), r) == CloseListed(h.answer, old(h.State()), lines)
  {
    ghost var target := CloseListed(h.answer, h.State(), lines);
    var k := 0;
    while k < |lines|
      invariant 0 <= k <= |lines|
      invariant target == CloseListed(h.answer, h.State(), lines[k..])
    {
      CloseListedAt(h.answer, h.State(), lines, k);
      var fields := Fields(lines[k]);
      if fields == [] {
        return Err(IndexError);
      }
      var name := fields[0];
      var path := MapperPath(name);
      var info := h.RunCommand(ListMounts(path));
      if info.Err? {
        return Err(info.error);
      }
      if |Fields(info.value)| > 1 {
        var u := h.RunCommand(Umount(path));
        if u.Err? {
          return Err(u.error);
        }
      }
      var c := h.RunCommand(Close(name));
      if c.Err? {
        return Err(c.error);
      }
      k := k + 1;
    }
    r := Ok(());
  }

  method CleanupDevice(h: Host, device: string) returns (r: Result<()>)
    modifies h
    ensures Step(h.State(), r) == CleanupSpec(h.answer, old(h.State()), device)
  {
    var partitions := h.RunCommand(ListMounts(device));
    if partitions.Err? {
      return Err(partitions.error);
    }
    r := UmountLines(h, Lines(partitions.value), ByDevice);
    if r.Err? {
      return;
    }
    var luks := h.RunCommand(ListCrypt);
    // `run_command` has already stripped the listing.
    if luks.Ok? && luks.value != [] {
      var closed := CloseMappings(h, Lines(luks.value));
      if closed.Err? && !closed.error.CalledProcessError? {
        return closed;
      }
    }
    var probe := h.RunCommand(Partprobe(device));
    if probe.Err? {
      return Err(probe.error);
    }
    r := Ok(());
  }

  // ---------------------------------------------------------------------
  // Properties

  /** The commands `CloseOne` means to issue; whether the `umount` is among
      them depends on what the mapper device's listing answers. */
  function CloseOnePlan(w: Oracle, m: Machine, name: string): seq<Command>
  {
    var path := MapperPath(name);
    [ListMounts(path)]
      + (if |Fields(Answer(w, m, ListMounts(path)))| > 1 then [Umount(path)] else [])
      + [Close(name)]
  }

  /** Closing one mapping issues its plan in order, stopping at the first
      failure. */
  lemma CloseOneIsPlan(w: Oracle, m: Machine, name: string)
    ensures CloseOne(w, m, name) == ExecAll(w, m, CloseOnePlan(w, m, name))
  {
    var path := MapperPath(name);
    var s1 := Exec(w, m, ListMounts(path));
    var mounted := |Fields(Answer(w, m, ListMounts(path)))| > 1;
    var rest := (if mounted then [Umount(path)] else []) + [Close(name)];
    assert CloseOnePlan(w, m, name) == [ListMounts(path)] + rest;
    ExecAllCons(w, m, ListMounts(path), rest);
    if s1.result.Ok? {
      CloseRestIsPlan(w, s1.state, path, name, mounted);
    }
  }

  /** The part of `CloseOne` after the listing, as a plan. */
  lemma CloseRestIsPlan(w: Oracle, m: Machine, path: string, name: string, mounted: bool)
    ensures var s2 := if mounted then Exec(w, m, Umount(path)) else Step(m, Ok(""));
      ExecAll(w, m, (if mounted then [Umount(path)] else []) + [Close(name)]) ==
        if s2.result.Err? then Step(s2.state, Err(s2.result.error))
        else
          var s3 := Exec(w, s2.state, Close(name));
          if s3.result.Err? then Step(s3.state, Err(s3.result.error)) else Step(s3.state, Ok(()))
  {
    if mounted {
      ExecAllCons(w, m, Umount(path), [Close(name)]);
      var s2 := Exec(w, m, Umount(path));
      ExecAllCons(w, s2.state, Close(name), []);
    } else {
      assert [] + [Close(name)] == [Close(name)] + [];
      ExecAllCons(w, m, Close(name), []);
    }
  }

  /** Closing one mapping never opens a mapping or adds a mount, and
      raises only a command failure; on success the mapping is closed. */
  lemma CloseOneFrame(w: Oracle, m: Machine, name: string)
    ensures var s := CloseOne(w, m, name);
      && Shrinks(m, s.state)
      && (s.result.Err? ==> s.result.error.CalledProcessError?)
      && (s.result.Ok? ==> name !in s.state.mappings)
  {
    CloseOneShrinks(w, m, name);
    CloseOneRemoves(w, m, name);
  }

  /** Closing one mapping never opens a mapping or adds a mount, and
      raises only a command failure. */
  lemma CloseOneShrinks(w: Oracle, m: Machine, name: string)
    ensures var s := CloseOne(w, m, name);
      && Shrinks(m, s.state)
      && (s.result.Err? ==> s.result.error.CalledProcessError?)
  {
    var path := MapperPath(name);
    var s1 := Exec(w, m, ListMounts(path));
    ExecShrinks(w, m, ListMounts(path));
    if s1.result.Ok? {
      var mounted := |Fields(s1.result.value)| > 1;
      UmountIfMounted(w, m, s1.state, path, mounted);
      var s2 := if mounted then Exec(w, s1.state, Umount(path)) else Step(s1.state, Ok(""));
      if s2.result.Ok? {
        var s3 := Exec(w, s2.state, Close(name));
        ExecShrinks(w, s2.state, Close(name));
        ShrinksTrans(m, s2.state, s3.state);
      }
    }
  }

  /** The middle step of `CloseOne`. */
  lemma UmountIfMounted(w: Oracle, m: Machine, m1: Machine, path: string, mounted: bool)
    requires Shrinks(m, m1)
    ensures var s2 := if mounted then Exec(w, m1, Umount(path)) else Step(m1, Ok(""));
      && Shrinks(m, s2.state)
      && (s2.result.Err? ==> s2.result.error.CalledProcessError?)
  {
    if mounted {
      var s2 := Exec(w, m1, Umount(path));
      ExecShrinks(w, m1, Umount(path));
      ShrinksTrans(m, m1, s2.state);
    }
  }

  /** A successful `CloseOne` leaves its mapping closed. */
  lemma CloseOneRemoves(w: Oracle, m: Machine, name: string)
    ensures var s := CloseOne(w, m, name);
      s.result.Ok? ==> name !in s.state.mappings
  {
    var path := MapperPath(name);
    var s1 := Exec(w, m, ListMounts(path));
    if s1.result.Ok? {
      var s2 := if |Fields(s1.result.value)| > 1 then Exec(w, s1.state, Umount(path)) else Step(s1.state, Ok(""));
      if s2.result.Ok? {
        ExecClose(w, s2.state, name);
      }
    }
  }

  /** A mapping is unmounted exactly when its listing shows a mount point:
      on success the listing, that `umount` and the `close` were issued, in
      that order. */
  lemma CloseOneOutcome(w: Oracle, m: Machine, name: string)
    ensures var s := CloseOne(w, m, name);
      var path := MapperPath(name);
      var issued := Issued(m, s.state);
      s.result.Ok? ==>
        && issued == CloseOnePlan(w, m, name)
        && issued[|issued| - 1] == Close(name)
        && (Umount(path) in issued <==> |Fields(Answer(w, m, ListMounts(path)))| > 1)
  {
    CloseOneIsPlan(w, m, name);
    ExecAllIssues(w, m, CloseOnePlan(w, m, name));
  }

  /** A command failing while one mapping is closed is the last command
      issued for it, and its failure is the one raised. */
  lemma CloseOneStops(w: Oracle, m: Machine, name: string)
    ensures var s := CloseOne(w, m, name);
      && m.trace <= s.state.trace
      && (s.result.Err? ==> FailedLast(w, m, s.state, s.result.error))
  {
    CloseOneIsPlan(w, m, name);
    ExecAllIssues(w, m, CloseOnePlan(w, m, name));
  }

  /** A command failing in the closing loop ends it: the failing command is
      the last one issued, so no later mapping is listed, unmounted or
      closed. */
  lemma {:induction false} CloseListedStops(w: Oracle, m: Machine, lines: seq<string>)
    ensures var s := CloseListed(w, m, lines);
      && m.trace <= s.state.trace
      && (s.result.Err? && s.result.error.CalledProcessError? ==> FailedLast(w, m, s.state, s.result.error))
    decreases |lines|
  {
    if lines != [] {
      var fields := Fields(lines[0]);
      if fields != [] {
        var one := CloseOne(w, m, fields[0]);
        CloseOneStops(w, m, fields[0]);
        if one.result.Ok? {
          var s := CloseListed(w, one.state, lines[1..]);
          CloseListedStops(w, one.state, lines[1..]);
          if s.result.Err? && s.result.error.CalledProcessError? {
            FailedLastFrom(w, m, one.state, s.state, s.result.error);
          }
        }
      }
    }
  }

  /** The `close` commands among a list of commands, in order. */
  function Closes(cmds: seq<Command>): (r: seq<Command>)
    ensures forall k :: 0 <= k < |r| ==> r[k].Close?
  {
    if cmds == [] then []
    else (if cmds[0].Close? then [cmds[0]] else []) + Closes(cmds[1..])
  }

  lemma {:induction false} ClosesConcat(a: seq<Command>, b: seq<Command>)
    ensures Closes(a + b) == Closes(a) + Closes(b)
    decreases |a|
  {
    if a == [] {
      assert a + b == b;
    } else {
      var head := if a[0].Close? then [a[0]] else [];
      assert (a + b)[0] == a[0];
      assert (a + b)[1..] == a[1..] + b;
      assert Closes(a + b) == head + Closes(a[1..] + b);
      ClosesConcat(a[1..], b);
    }
  }

  /** The mapping named by each line of the crypt listing (its first field). */
  function ListedNames(lines: seq<string>): (names: seq<string>)
    requires NonBlank(lines)
    ensures |names| == |lines|
    ensures forall k :: 0 <= k < |lines| ==> names[k] == Fields(lines[k])[0]
  {
    if lines == [] then []
    else
      assert NonBlank(lines[1..]) by {
        forall k | 0 <= k < |lines| - 1 ensures Fields(lines[1..][k]) != [] {
          assert lines[1..][k] == lines[k + 1];
        }
      }
      [Fields(lines[0])[0]] + ListedNames(lines[1..])
  }

  function CloseCommands(names: seq<string>): (cmds: seq<Command>)
    ensures |cmds| == |names|
    ensures forall k :: 0 <= k < |names| ==> cmds[k] == Close(names[k])
  {
    if names == [] then [] else [Close(names[0])] + CloseCommands(names[1..])
  }

  /** Closing the listed mappings never opens a mapping or adds a mount,
      and raises only `IndexError` (a blank line) or a command failure. */
  lemma {:induction false} CloseListedFrame(w: Oracle, m: Machine, lines: seq<string>)
    ensures var s := CloseListed(w, m, lines);
      && Shrinks(m, s.state)
      && (s.result.Err? ==> s.result.error == IndexError || s.result.error.CalledProcessError?)
    decreases |lines|
  {
    if lines != [] {
      var fields := Fields(lines[0]);
      if fields != [] {
        var one := CloseOne(w, m, fields[0]);
        CloseOneFrame(w, m, fields[0]);
        if one.result.Ok? {
          var s := CloseListed(w, one.state, lines[1..]);
          CloseListedFrame(w, one.state, lines[1..]);
          ShrinksTrans(m, one.state, s.state);
        }
      }
    }
  }

  /** Once closing the listed mappings succeeds, the listing had no blank
      line and the `close` commands issued are one per listed mapping, in
      listing order. */
  lemma {:induction false} CloseListedCloses(w: Oracle, m: Machine, lines: seq<string>)
    ensures var s := CloseListed(w, m, lines);
      s.result.Ok? ==>
        && NonBlank(lines)
        && Closes(Issued(m, s.state)) == CloseCommands(ListedNames(lines))
    decreases |lines|
  {
    if lines != [] {
      var fields := Fields(lines[0]);
      if fields != [] {
        var one := CloseOne(w, m, fields[0]);
        if one.result.Ok? {
          var s := CloseListed(w, one.state, lines[1..]);
          CloseListedCloses(w, one.state, lines[1..]);
          if s.result.Ok? {
            assert NonBlank(lines) by {
              forall k | 0 <= k < |lines| ensures Fields(lines[k]) != [] {
                if k > 0 {
                  assert lines[1..][k - 1] == lines[k];
                }
              }
            }
            CloseOneFrame(w, m, fields[0]);
            CloseListedFrame(w, one.state, lines[1..]);
            IssuedConcat(m, one.state, s.state);
            ClosesConcat(Issued(m, one.state), Issued(one.state, s.state));
            CloseOneOutcome(w, m, fields[0]);
            CloseOneCloses(w, m, fields[0]);
            assert ListedNames(lines) == [fields[0]] + ListedNames(lines[1..]);
            assert CloseCommands(ListedNames(lines)) == [Close(fields[0])] + CloseCommands(ListedNames(lines[1..]));
          }
        }
      }
    }
  }

  /** Once closing the listed mappings succeeds, none of them is open. */
  lemma {:induction false} CloseListedClosed(w: Oracle, m: Machine, lines: seq<string>)
    ensures var s := CloseListed(w, m, lines);
      s.result.Ok? ==> forall k :: 0 <= k < |lines| && Fields(lines[k]) != [] ==> Fields(lines[k])[0] !in s.state.mappings
    decreases |lines|
  {
    if lines != [] {
      var fields := Fields(lines[0]);
      if fields != [] {
        var one := CloseOne(w, m, fields[0]);
        if one.result.Ok? {
          var s := CloseListed(w, one.state, lines[1..]);
          CloseListedClosed(w, one.state, lines[1..]);
          if s.result.Ok? {
            CloseOneFrame(w, m, fields[0]);
            CloseListedFrame(w, one.state, lines[1..]);
            forall k | 0 <= k < |lines| && Fields(lines[k]) != [] ensures Fields(lines[k])[0] !in s.state.mappings {
              if k > 0 {
                assert lines[1..][k - 1] == lines[k];
              }
            }
          }
        }
      }
    }
  }

  lemma ClosesOne(c: Command)
    ensures Closes([c]) == if c.Close? then [c] else []
  {
    assert [c][1..] == [];
  }

  /** Closing one mapping issues exactly one `close`, its own. */
  lemma CloseOneCloses(w: Oracle, m: Machine, name: string)
    ensures Closes(CloseOnePlan(w, m, name)) == [Close(name)]
  {
    var path := MapperPath(name);
    var mid: seq<Command> := if |Fields(Answer(w, m, ListMounts(path)))| > 1 then [Umount(path)] else [];
    ClosesConcat([ListMounts(path)] + mid, [Close(name)]);
    ClosesConcat([ListMounts(path)], mid);
    ClosesOne(ListMounts(path));
    ClosesOne(Close(name));
    if mid != [] {
      ClosesOne(Umount(path));
    }
  }

  /** The LUKS phase starts with the crypt listing, never opens a mapping
      or adds a mount, and never raises a command failure: it ends normally
      or with the `IndexError` of a blank line. */
  lemma CryptPhaseOutcome(w: Oracle, m: Machine)
    ensures var s := CryptPhase(w, m);
      var issued := Issued(m, s.state);
      && Shrinks(m, s.state)
      && issued != [] && issued[0] == ListCrypt
      && (s.result.Ok? || s.result.error == IndexError)
  {
    var s1 := Exec(w, m, ListCrypt);
    ExecShrinks(w, m, ListCrypt);
    assert Issued(m, s1.state) == [ListCrypt];
    if s1.result.Ok? && s1.result.value != [] {
      var s := CloseListed(w, s1.state, Lines(s1.result.value));
      CloseListedFrame(w, s1.state, Lines(s1.result.value));
      ShrinksTrans(m, s1.state, s.state);
      IssuedConcat(m, s1.state, s.state);
    }
  }

  /** An empty crypt listing issues nothing more. */
  lemma CryptPhaseEmpty(w: Oracle, m: Machine)
    requires w(|m.trace|, ListCrypt).code == 0 && Answer(w, m, ListCrypt) == []
    ensures var s := CryptPhase(w, m);
      s.result.Ok? && Issued(m, s.state) == [ListCrypt]
  {
    var s1 := Exec(w, m, ListCrypt);
    assert Issued(m, s1.state) == [ListCrypt];
  }

  /** When the crypt listing succeeds with some lines and closing them all
      succeeds, the LUKS phase is that closing, after the listing. */
  lemma CryptPhaseIsClosing(w: Oracle, m: Machine)
    requires w(|m.trace|, ListCrypt).code == 0 && Answer(w, m, ListCrypt) != []
    requires var s1 := Exec(w, m, ListCrypt);
      CloseListed(w, s1.state, Lines(Answer(w, m, ListCrypt))).result.Ok?
    ensures var s1 := Exec(w, m, ListCrypt);
      && CryptPhase(w, m) == CloseListed(w, s1.state, Lines(Answer(w, m, ListCrypt)))
      && Issued(m, s1.state) == [ListCrypt]
  {
  }

  /** When the crypt listing succeeds with some lines and closing them all
      succeeds, each listed mapping was closed, in listing order, and none
      of them is open afterwards. */
  lemma CryptPhaseCloses(w: Oracle, m: Machine)
    requires w(|m.trace|, ListCrypt).code == 0 && Answer(w, m, ListCrypt) != []
    requires var s1 := Exec(w, m, ListCrypt);
      CloseListed(w, s1.state, Lines(Answer(w, m, ListCrypt))).result.Ok?
    ensures var s := CryptPhase(w, m);
      var lines := Lines(Answer(w, m, ListCrypt));
      && s.result.Ok?
      && NonBlank(lines)
      && Closes(Issued(m, s.state)) == CloseCommands(ListedNames(lines))
      && forall k :: 0 <= k < |lines| ==> Fields(lines[k])[0] !in s.state.mappings
  {
    var s1 := Exec(w, m, ListCrypt);
    var lines := Lines(Answer(w, m, ListCrypt));
    var s := CloseListed(w, s1.state, lines);
    CryptPhaseIsClosing(w, m);
    CloseListedFrame(w, s1.state, lines);
    CloseListedCloses(w, s1.state, lines);
    CloseListedClosed(w, s1.state, lines);
    ClosesAfter(m, s1.state, s.state, ListCrypt);
  }

  /** The `try` swallows every command failure of the LUKS phase: a failing
      crypt listing ends the phase normally at once, and a command failing
      while the mappings are closed ends it normally right after that
      command, skipping the mappings listed after it. */
  lemma CryptPhaseSwallows(w: Oracle, m: Machine)
    ensures var s1 := Exec(w, m, ListCrypt);
      var s := CryptPhase(w, m);
      && (s1.result.Err? ==> s == Step(s1.state, Ok(())) && Issued(m, s.state) == [ListCrypt])
      && (s1.result.Ok? && s1.result.value != [] ==>
            var r := CloseListed(w, s1.state, Lines(s1.result.value));
            r.result.Err? && r.result.error.CalledProcessError? ==>
              && s == Step(r.state, Ok(()))
              && m.trace <= s.state.trace
              && FailedLast(w, m, s.state, r.result.error))
  {
    var s1 := Exec(w, m, ListCrypt);
    assert Issued(m, s1.state) == [ListCrypt];
    if s1.result.Ok? && s1.result.value != [] {
      var r := CloseListed(w, s1.state, Lines(s1.result.value));
      CloseListedStops(w, s1.state, Lines(s1.result.value));
      if r.result.Err? && r.result.error.CalledProcessError? {
        FailedLastFrom(w, m, s1.state, r.state, r.result.error);
      }
    }
  }

  /** Whatever command failure the LUKS phase swallowed, `partprobe` is
      issued right after the command that failed (or right after the
      failing crypt listing), and cleanup ends as `partprobe` does. */
  lemma CleanupTailSwallows(w: Oracle, m: Machine, device: string)
    ensures var s1 := Exec(w, m, ListCrypt);
      var s := CleanupTail(w, m, device);
      && (s1.result.Err? ==>
            && s.state.trace == m.trace + [ListCrypt, Partprobe(device)]
            && (s.result.Ok? <==> w(|m.trace| + 1, Partprobe(device)).code == 0))
      && (s1.result.Ok? && s1.result.value != [] ==>
            var r := CloseListed(w, s1.state, Lines(s1.result.value));
            r.result.Err? && r.result.error.CalledProcessError? ==>
              && FailedLast(w, m, r.state, r.result.error)
              && s.state.trace == r.state.trace + [Partprobe(device)]
              && (s.result.Ok? <==> w(|r.state.trace|, Partprobe(device)).code == 0))
  {
    CryptPhaseSwallows(w, m);
  }

  /** A first command that is not a `close` adds no `close`. */
  lemma ClosesAfter(m: Machine, m1: Machine, m2: Machine, c: Command)
    requires Issued(m, m1) == [c] && !c.Close?
    requires m.trace <= m1.trace <= m2.trace
    ensures Closes(Issued(m, m2)) == Closes(Issued(m1, m2))
  {
    IssuedConcat(m, m1, m2);
    ClosesConcat([c], Issued(m1, m2));
    ClosesOne(c);
  }

  /** The end of cleanup never opens a mapping or adds a mount, raises
      only `IndexError` or a command failure, and on success its last
      command was `partprobe`. */
  lemma CleanupTailFrame(w: Oracle, m: Machine, device: string)
    ensures var s := CleanupTail(w, m, device);
      var issued := Issued(m, s.state);
      && Shrinks(m, s.state)
      && issued != [] && issued[0] == ListCrypt
      && (s.result.Err? ==> s.result.error == IndexError || s.result.error.CalledProcessError?)
      && (s.result.Ok? ==> issued[|issued| - 1] == Partprobe(device))
      && (CryptPhase(w, m).result.Ok? ==> Issued(m, s.state) == Issued(m, CryptPhase(w, m).state) + [Partprobe(device)])
  {
    var s3 := CryptPhase(w, m);
    CryptPhaseOutcome(w, m);
    if s3.result.Ok? {
      var s4 := Exec(w, s3.state, Partprobe(device));
      ExecShrinks(w, s3.state, Partprobe(device));
      ShrinksTrans(m, s3.state, s4.state);
      IssuedConcat(m, s3.state, s4.state);
      assert Issued(s3.state, s4.state) == [Partprobe(device)];
    }
  }

  /** Cleanup begins with the device listing, never opens a mapping or
      adds a mount, and raises only `IndexError` or a command failure; a
      failing device listing stops it at once. */
  lemma CleanupFrame(w: Oracle, m: Machine, device: string)
    ensures var s := CleanupSpec(w, m, device);
      var issued := Issued(m, s.state);
      && Shrinks(m, s.state)
      && issued != [] && issued[0] == ListMounts(device)
      && (s.result.Err? ==> s.result.error == IndexError || s.result.error.CalledProcessError?)
      && (w(|m.trace|, ListMounts(device)).code != 0 ==> issued == [ListMounts(device)] && s.result.Err?)
      && var s1 := Exec(w, m, ListMounts(device));
         (s1.result.Ok? ==>
            var s2 := UmountListed(w, s1.state, Lines(s1.result.value), ByDevice);
            s2.result.Err? ==> s == s2)
  {
    var s1 := Exec(w, m, ListMounts(device));
    ExecShrinks(w, m, ListMounts(device));
    assert Issued(m, s1.state) == [ListMounts(device)];
    if s1.result.Ok? {
      var s := CleanupSpec(w, m, device);
      var s2 := UmountListed(w, s1.state, Lines(s1.result.value), ByDevice);
      UmountListedDetaches(w, s1.state, Lines(s1.result.value), ByDevice);
      UmountListedFailures(w, s1.state, Lines(s1.result.value), ByDevice);
      ShrinksTrans(m, s1.state, s2.state);
      if s2.result.Ok? {
        CleanupTailFrame(w, s2.state, device);
        ShrinksTrans(m, s2.state, s.state);
      }
      IssuedConcat(m, s1.state, s.state);
    }
  }

  /** A failure in the first loop (a failing `umount`, or the `IndexError`
      of a blank line) ends cleanup at once: nothing was issued but the
      device listing and `umount`s, so neither the crypt listing nor
      `partprobe`. */
  lemma CleanupUmountFails(w: Oracle, m: Machine, device: string)
    ensures var s1 := Exec(w, m, ListMounts(device));
      var s := CleanupSpec(w, m, device);
      s1.result.Ok? && UmountListed(w, s1.state, Lines(s1.result.value), ByDevice).result.Err? ==>
        && s.result.Err?
        && m.trace <= s.state.trace
        && Issued(m, s.state) != [] && Issued(m, s.state)[0] == ListMounts(device)
        && forall k :: 1 <= k < |Issued(m, s.state)| ==> Issued(m, s.state)[k].Umount?
  {
    var s1 := Exec(w, m, ListMounts(device));
    assert Issued(m, s1.state) == [ListMounts(device)];
    if s1.result.Ok? {
      var s2 := UmountListed(w, s1.state, Lines(s1.result.value), ByDevice);
      UmountListedIssuesUmounts(w, s1.state, Lines(s1.result.value), ByDevice);
      IssuedConcat(m, s1.state, s2.state);
    }
  }

  /** A successful cleanup ended with `partprobe`, and every device node
      its listing showed mounted is detached. */
  lemma CleanupDetaches(w: Oracle, m: Machine, device: string)
    ensures var s := CleanupSpec(w, m, device);
      var issued := Issued(m, s.state);
      var listing := Lines(Answer(w, m, ListMounts(device)));
      s.result.Ok? ==>
        && issued != []
        && issued[|issued| - 1] == Partprobe(device)
        && forall k :: 0 <= k < |listing| && |Fields(listing[k])| > 1 ==>
             Detached(s.state.mounts, DevicePath(Fields(listing[k])[0]))
  {
    var s1 := Exec(w, m, ListMounts(device));
    if s1.result.Ok? {
      var listing := Lines(s1.result.value);
      var s2 := UmountListed(w, s1.state, listing, ByDevice);
      UmountListedDetaches(w, s1.state, listing, ByDevice);
      if s2.result.Ok? {
        var s := CleanupTail(w, s2.state, device);
        CleanupTailFrame(w, s2.state, device);
        ShrinksTrans(m, s1.state, s2.state) by { ExecShrinks(w, m, ListMounts(device)); }
        IssuedConcat(m, s2.state, s.state);
        forall k | 0 <= k < |listing| && |Fields(listing[k])| > 1
          ensures Detached(s.state.mounts, DevicePath(Fields(listing[k])[0]))
        {
          DetachedSubmap(s.state.mounts, s2.state.mounts, UmountTarget(ByDevice, Fields(listing[k])));
        }
      }
    }
  }
}
