/** `create_partitions` (endoreg_usb_encrypter/functions/create_partitions.py):
    a fresh GPT label, then one `mkpart` per (name, size factor) pair, laid
    out contiguously from 1% of the disk. */
module Partitions {
  import opened Text
  import opened Names
  import opened Shell

  /** Python's `int()` on a float: truncation toward zero. */
  function Trunc(x: real): (n: int)
    ensures 0.0 <= x ==> 0 <= n && n as real <= x < n as real + 1.0
    ensures x < 0.0 ==> n <= 0 && n as real - 1.0 < x <= n as real
  {
    if x >= 0.0 then x.Floor else -((-x).Floor)
  }

  /** Truncation is monotone. */
  lemma TruncMonotone(x: real, y: real)
    requires x <= y
    ensures Trunc(x) <= Trunc(y)
  {
  }

  /** `sum(factors)`, added from the left as Python does. */
  function Sum(fs: seq<real>): real
  {
    if fs == [] then 0.0 else Sum(fs[..|fs| - 1]) + fs[|fs| - 1]
  }

  /** Where the i-th partition starts, in percent of the disk: 1% plus the
      sizes of the partitions before it. */
  function Bound(factors: seq<real>, i: nat): real
    requires i <= |factors|
  {
    1.0 + 100.0 * Sum(factors[..i])
  }

  lemma BoundStep(factors: seq<real>, i: nat)
    requires i < |factors|
    ensures Bound(factors, i + 1) == Bound(factors, i) + factors[i] * 100.0
  {
    assert factors[..i + 1][..i] == factors[..i];
  }

  /** How many partitions are made: `zip` stops at the shorter list. */
  function Count(names: seq<string>, factors: seq<real>): (n: nat)
    ensures n <= |names| && n <= |factors|
    ensures n == |names| || n == |factors|
  {
    if |names| < |factors| then |names| else |factors|
  }

  /** The loop of `create_partitions` from pair `i` on, with `start` the
      current start: each end is the start plus the factor times 100, each
      bound is truncated, and the next partition starts at this end. */
  function Walk(device: string, names: seq<string>, factors: seq<real>, i: nat, start: real): (plan: seq<Command>)
    ensures i <= Count(names, factors) ==> |plan| == Count(names, factors) - i
    ensures forall k :: 0 <= k < |plan| ==> plan[k].Mkpart?
    decreases |names| - i
  {
    if i >= |names| || i >= |factors| then []
    else
      var end := start + factors[i] * 100.0;
      [Mkpart(device, names[i], Trunc(start), Trunc(end))] + Walk(device, names, factors, i + 1, end)
  }

  lemma WalkUnfold(device: string, names: seq<string>, factors: seq<real>, i: nat, start: real)
    requires i < |names| && i < |factors|
    ensures Walk(device, names, factors, i, start)
         == [Mkpart(device, names[i], Trunc(start), Trunc(start + factors[i] * 100.0))]
            + Walk(device, names, factors, i + 1, start + factors[i] * 100.0)
  {
  }

  /** One turn of the loop of `create_partitions`: after its `mkpart`, the
      rest of the run is the walk from the next pair, or the failure. */
  lemma MkpartStep(w: Oracle, before: Machine, after: Machine, x: Result<string>,
                   device: string, names: seq<string>, factors: seq<real>, i: nat, start: real, target: Step<()>)
    requires i < |names| && i < |factors|
    requires target == ExecAll(w, before, Walk(device, names, factors, i, start))
    requires Step(after, x) == Exec(w, before, Mkpart(device, names[i], Trunc(start), Trunc(start + factors[i] * 100.0)))
    ensures x.Err? ==> target == Step(after, Err(x.error))
    ensures x.Ok? ==> target == ExecAll(w, after, Walk(device, names, factors, i + 1, start + factors[i] * 100.0))
  {
    WalkUnfold(device, names, factors, i, start);
    ExecAllCons(w, before, Mkpart(device, names[i], Trunc(start), Trunc(start + factors[i] * 100.0)),
                Walk(device, names, factors, i + 1, start + factors[i] * 100.0));
  }

  /** The `mkpart` commands, starting at 1%. */
  function MkpartPlan(device: string, names: seq<string>, factors: seq<real>): (plan: seq<Command>)
    ensures |plan| == Count(names, factors)
    ensures forall k :: 0 <= k < |plan| ==> plan[k].Mkpart?
  {
    Walk(device, names, factors, 0, 1.0)
  }

  /** Every command `create_partitions` means to issue, in order. */
  function CreatePlan(device: string, names: seq<string>, factors: seq<real>): seq<Command>
  {
    [Mklabel(device), Partprobe(device)] + MkpartPlan(device, names, factors)
  }

  /** The paths of the first `n` partitions of a device: `<device>1` ... */
  function PartitionPaths(device: string, n: nat): (paths: seq<string>)
    ensures |paths| == n
    ensures forall i :: 0 <= i < n ==> paths[i] == PartitionPath(device, i)
  {
    if n == 0 then [] else PartitionPaths(device, n - 1) + [PartitionPath(device, n - 1)]
  }

  /** Distinct partitions get distinct paths. */
  lemma PartitionPathsDistinct(device: string, n: nat, i: nat, j: nat)
    requires i < n && j < n && i != j
    ensures PartitionPaths(device, n)[i] != PartitionPaths(device, n)[j]
  {
    DecimalInjective(i + 1, j + 1);
    assert PartitionPaths(device, n)[i][|device|..] == Decimal(i + 1);
    assert PartitionPaths(device, n)[j][|device|..] == Decimal(j + 1);
  }

  /** The `mkpart` loop of `create_partitions`: its commands in order,
      stopping at the first failure; on success the partition paths. */
  function MkpartRun(w: Oracle, m: Machine, device: string, names: seq<string>, factors: seq<real>): Step<seq<string>>
  {
    var s := ExecAll(w, m, MkpartPlan(device, names, factors));
    if s.result.Err? then Step(s.state, Err(s.result.error))
    else Step(s.state, Ok(PartitionPaths(device, Count(names, factors))))
  }

  /** `create_partitions(device, names, factors)`: label the disk, inform
      the kernel, then the `mkpart` loop. */
  function CreateSpec(w: Oracle, m: Machine, device: string, names: seq<string>, factors: seq<real>): Step<seq<string>>
  {
    var s1 := Exec(w, m, Mklabel(device));
    if s1.result.Err? then Step(s1.state, Err(s1.result.error))
    else
      var s2 := Exec(w, s1.state, Partprobe(device));
      if s2.result.Err? then Step(s2.state, Err(s2.result.error))
      else MkpartRun(w, s2.state, device, names, factors)
  }

  method CreatePartitions(h: Host, device: string, names: seq<string>, factors: seq<real>)
    returns (r: Result<seq<string>>)
    modifies h
    ensures Step(h.State(), r) == CreateSpec(h.answer, old(h.State()), device, names, factors)
  {
    var x := h.RunCommand(Mklabel(device));
    if x.Err? {
      return Err(x.error);
    }
    x := h.RunCommand(Partprobe(device));
    if x.Err? {
      return Err(x.error);
    }
    r := MakePartitions(h, device, names, factors);
  }

  /** The loop itself: each end is the start plus the factor times 100, and
      the next partition starts at this end. */
  method MakePartitions(h: Host, device: string, names: seq<string>, factors: seq<real>)
    returns (r: Result<seq<string>>)
    modifies h
    ensures Step(h.State(), r) == MkpartRun(h.answer, old(h.State()), device, names, factors)
  {
    ghost var target := ExecAll(h.answer, h.State(), MkpartPlan(device, names, factors));
    var start := 1.0;
    var partitions := [];
    var i := 0;
    while i < |names| && i < |factors|
      invariant 0 <= i <= Count(names, factors)
      invariant partitions == PartitionPaths(device, i)
      invariant target == ExecAll(h.answer, h.State(), Walk(device, names, factors, i, start))
      decreases |names| - i
    {
      var end := start + factors[i] * 100.0;
      var partition := device + Decimal(i + 1);
      var command := Mkpart(device, names[i], Trunc(start), Trunc(end));
      ghost var before := h.State();
      var x := h.RunCommand(command);
      MkpartStep(h.answer, before, h.State(), x, device, names, factors, i, start, target);
      if x.Err? {
        return Err(x.error);
      }
      partitions := partitions + [partition];
      start := end;
      i := i + 1;
    }
    r := Ok(partitions);
  }

  // ---------------------------------------------------------------------
  // Properties of the plan

  /** The walk from pair `i`, started at `Bound(factors, i)`, holds one
      command per remaining pair, the k-th with the k-th name and the
      truncated bounds of its slot. */
  lemma {:induction false} WalkAt(device: string, names: seq<string>, factors: seq<real>, i: nat)
    requires i <= Count(names, factors)
    ensures var plan := Walk(device, names, factors, i, Bound(factors, i));
      && |plan| == Count(names, factors) - i
      && forall k :: i <= k < Count(names, factors) ==>
           plan[k - i] == Mkpart(device, names[k], Trunc(Bound(factors, k)), Trunc(Bound(factors, k + 1)))
    decreases |names| - i
  {
    if i < Count(names, factors) {
      BoundStep(factors, i);
      WalkAt(device, names, factors, i + 1);
    }
  }

  /** The plan has one `mkpart` per (name, factor) pair, the i-th with the
      i-th name and the truncated bounds `1 + 100 * sum(factors[:i])` and
      `1 + 100 * sum(factors[:i+1])`. */
  lemma PlanShape(device: string, names: seq<string>, factors: seq<real>)
    ensures var plan := MkpartPlan(device, names, factors);
      && |plan| == Count(names, factors)
      && forall k :: 0 <= k < |plan| ==>
           plan[k] == Mkpart(device, names[k], Trunc(Bound(factors, k)), Trunc(Bound(factors, k + 1)))
  {
    assert Bound(factors, 0) == 1.0 by { assert factors[..0] == []; }
    WalkAt(device, names, factors, 0);
  }

  /** The first partition starts at 1%, each starts where the previous one
      ended, and the last ends at `1 + 100 * sum(factors)` truncated. */
  lemma Contiguous(device: string, names: seq<string>, factors: seq<real>)
    ensures var plan := MkpartPlan(device, names, factors);
      && (plan != [] ==> plan[0].startPercent == 1)
      && (forall k :: 0 <= k < |plan| - 1 ==> plan[k + 1].startPercent == plan[k].endPercent)
      && (plan != [] ==> plan[|plan| - 1].endPercent == Trunc(Bound(factors, |plan|)))
  {
    PlanShape(device, names, factors);
    assert Bound(factors, 0) == 1.0 by { assert factors[..0] == []; }
    assert Trunc(1.0) == 1;
    var plan := MkpartPlan(device, names, factors);
    if plan != [] {
      assert plan[|plan| - 1].endPercent == Trunc(Bound(factors, |plan| - 1 + 1));
    }
    forall k | 0 <= k < |plan| - 1 ensures plan[k + 1].startPercent == plan[k].endPercent {
      assert plan[k + 1] == Mkpart(device, names[k + 1], Trunc(Bound(factors, k + 1)), Trunc(Bound(factors, k + 2)));
      assert plan[k] == Mkpart(device, names[k], Trunc(Bound(factors, k)), Trunc(Bound(factors, k + 1)));
    }
  }

  /** With non-negative factors every partition ends no earlier than it
      starts. */
  lemma NonDecreasing(device: string, names: seq<string>, factors: seq<real>)
    requires forall k :: 0 <= k < |factors| ==> factors[k] >= 0.0
    ensures var plan := MkpartPlan(device, names, factors);
      forall k :: 0 <= k < |plan| ==> plan[k].startPercent <= plan[k].endPercent
  {
    PlanShape(device, names, factors);
    var plan := MkpartPlan(device, names, factors);
    forall k | 0 <= k < |plan| ensures plan[k].startPercent <= plan[k].endPercent {
      BoundStep(factors, k);
      TruncMonotone(Bound(factors, k), Bound(factors, k + 1));
    }
  }

  /** `create_partitions` runs its plan: the same state as running the
      commands in order, the same failure, and success exactly when all of
      them succeed. */
  lemma CreateIsPlan(w: Oracle, m: Machine, device: string, names: seq<string>, factors: seq<real>)
    ensures var s := CreateSpec(w, m, device, names, factors);
      var run := ExecAll(w, m, CreatePlan(device, names, factors));
      && s.state == run.state
      && (s.result.Ok? <==> run.result.Ok?)
      && (s.result.Err? ==> s.result.error == run.result.error)
  {
    var rest := MkpartPlan(device, names, factors);
    assert CreatePlan(device, names, factors) == [Mklabel(device)] + ([Partprobe(device)] + rest);
    ExecAllCons(w, m, Mklabel(device), [Partprobe(device)] + rest);
    var s1 := Exec(w, m, Mklabel(device));
    if s1.result.Ok? {
      ExecAllCons(w, s1.state, Partprobe(device), rest);
      var s2 := Exec(w, s1.state, Partprobe(device));
      if s2.result.Ok? {
        assert ExecAll(w, m, CreatePlan(device, names, factors)) == ExecAll(w, s2.state, rest);
        assert CreateSpec(w, m, device, names, factors) == MkpartRun(w, s2.state, device, names, factors);
      }
    }
  }

  /** On success `create_partitions` answers one path per created
      partition, in partition order. */
  lemma CreatePaths(w: Oracle, m: Machine, device: string, names: seq<string>, factors: seq<real>)
    ensures var s := CreateSpec(w, m, device, names, factors);
      s.result.Ok? ==> s.result.value == PartitionPaths(device, Count(names, factors))
  {
    var s1 := Exec(w, m, Mklabel(device));
    if s1.result.Ok? {
      var s2 := Exec(w, s1.state, Partprobe(device));
    }
  }

  /** The label is written and the kernel informed before any `mkpart`:
      the plan runs in order, stopping at the first failure, and on success
      the result is one path per created partition. No factor is checked
      first. */
  lemma CreateOrder(w: Oracle, m: Machine, device: string, names: seq<string>, factors: seq<real>)
    ensures var s := CreateSpec(w, m, device, names, factors);
      var issued := Issued(m, s.state);
      && RanInOrder(w, m, CreatePlan(device, names, factors), s)
      && issued != [] && issued[0] == Mklabel(device)
      && (forall k :: 0 <= k < |issued| && issued[k].Mkpart? ==> k >= 2 && issued[1] == Partprobe(device))
      && (s.result.Ok? ==> s.result.value == PartitionPaths(device, Count(names, factors)))
  {
    var plan := CreatePlan(device, names, factors);
    var s := CreateSpec(w, m, device, names, factors);
    var run := ExecAll(w, m, plan);
    CreateIsPlan(w, m, device, names, factors);
    CreatePaths(w, m, device, names, factors);
    ExecAllIssues(w, m, plan);
    RanInOrderAs(w, m, plan, run, s);
    ProbeBeforeMkpart(device, names, factors, Issued(m, s.state));
  }

  /** In any prefix of the plan, every `mkpart` comes after the label and
      the `partprobe`. */
  lemma ProbeBeforeMkpart(device: string, names: seq<string>, factors: seq<real>, issued: seq<Command>)
    requires issued <= CreatePlan(device, names, factors)
    ensures issued != [] ==> issued[0] == Mklabel(device)
    ensures forall k :: 0 <= k < |issued| && issued[k].Mkpart? ==> k >= 2 && issued[1] == Partprobe(device)
  {
    var plan := CreatePlan(device, names, factors);
    assert plan[0] == Mklabel(device) && plan[1] == Partprobe(device);
    forall k | 0 <= k < |issued| && issued[k].Mkpart? ensures k >= 2 && issued[1] == Partprobe(device) {
      assert issued[k] == plan[k];
    }
  }
}
