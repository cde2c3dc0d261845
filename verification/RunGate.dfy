/**
 The rate gate in front of the discover passes: a pass starts only if no run of
 its kind that has not failed started less than MinInterval ago
 (hasFreshRun, startRun and finishRun of mbrels.go and samelabel.go).
 The sync_runs rows of one user and kind; check and start are one step.
 */
module RunGate {
  import opened Basics

  datatype Status = Running | Finished | Partial | Failed
  datatype Run = Run(startedAt: Time, status: Status)

  datatype Step = TryStart(now: Time) | Finish(id: nat, status: Status)

  /** Latest start among runs that have not failed. */
  function Latest(runs: seq<Run>): Option<Time> {
    if runs == [] then None else
    var before, r := Latest(runs[..|runs| - 1]), runs[|runs| - 1];
    if r.status == Failed then before
    else if before.Some? && before.value >= r.startedAt then before
    else Some(r.startedAt)
  }

  predicate HasFresh(runs: seq<Run>, now: Time, minInterval: Time) {
    Latest(runs).Some? && now - Latest(runs).value < minInterval
  }

  /** A run is finished once; a crashed one stays running. */
  function Apply(runs: seq<Run>, step: Step, minInterval: Time): seq<Run> {
    match step
    case TryStart(now) => if HasFresh(runs, now, minInterval) then runs else runs + [Run(now, Running)]
    case Finish(id, status) =>
      if id < |runs| && runs[id].status == Running then runs[id := runs[id].(status := status)] else runs
  }

  function After(steps: seq<Step>, minInterval: Time): seq<Run> {
    if steps == [] then [] else Apply(After(steps[..|steps| - 1], minInterval), steps[|steps| - 1], minInterval)
  }

  /** Runs that have not failed started at least minInterval apart. */
  ghost predicate Spaced(runs: seq<Run>, minInterval: Time) {
    forall i, j :: 0 <= i < j < |runs| && runs[i].status != Failed && runs[j].status != Failed ==>
      runs[j].startedAt - runs[i].startedAt >= minInterval
  }

  lemma {:induction false} LatestBounds(runs: seq<Run>, i: int)
    requires 0 <= i < |runs| && runs[i].status != Failed
    ensures Latest(runs).Some? && runs[i].startedAt <= Latest(runs).value
  {
    if i < |runs| - 1 {
      LatestBounds(runs[..|runs| - 1], i);
    }
  }

  lemma {:induction false} LatestAttained(runs: seq<Run>) returns (i: int)
    requires Latest(runs).Some?
    ensures 0 <= i < |runs| && runs[i].status != Failed && runs[i].startedAt == Latest(runs).value
  {
    var front := runs[..|runs| - 1];
    if Latest(front) == Latest(runs) {
      i := LatestAttained(front);
    } else {
      i := |runs| - 1;
    }
  }

  /** The gate opens exactly when every run that has not failed by now started long enough ago. */
  lemma OpensIff(runs: seq<Run>, now: Time, minInterval: Time)
    ensures !HasFresh(runs, now, minInterval) <==>
              forall i :: 0 <= i < |runs| && runs[i].status != Failed ==> now - runs[i].startedAt >= minInterval
  {
    if HasFresh(runs, now, minInterval) {
      var i := LatestAttained(runs);
    } else {
      forall i | 0 <= i < |runs| && runs[i].status != Failed
        ensures now - runs[i].startedAt >= minInterval
      {
        LatestBounds(runs, i);
      }
    }
  }

  /** In every run of the gate, at every moment: two starts that have not failed are
      at least minInterval apart, whatever finished, failed or crashed in between. */
  lemma {:induction false} GateSpacesRuns(steps: seq<Step>, minInterval: Time)
    ensures Spaced(After(steps, minInterval), minInterval)
  {
    if steps != [] {
      var runs, step := After(steps[..|steps| - 1], minInterval), steps[|steps| - 1];
      GateSpacesRuns(steps[..|steps| - 1], minInterval);
      if step.TryStart? && !HasFresh(runs, step.now, minInterval) {
        forall i | 0 <= i < |runs| && runs[i].status != Failed
          ensures step.now - runs[i].startedAt >= minInterval
        {
          LatestBounds(runs, i);
        }
      }
    }
  }

  /** Starts inside [from, from + length] of runs that have not failed. */
  ghost function StartsWithin(runs: seq<Run>, from: Time, length: Time): nat {
    if runs == [] then 0 else
    var r := runs[|runs| - 1];
    StartsWithin(runs[..|runs| - 1], from, length)
      + if r.status != Failed && from <= r.startedAt <= from + length then 1 else 0
  }

  lemma {:induction false} LastStartIsLate(runs: seq<Run>, from: Time, length: Time, minInterval: Time) returns (i: int)
    requires minInterval > 0 && Spaced(runs, minInterval) && StartsWithin(runs, from, length) > 0
    ensures 0 <= i < |runs| && runs[i].status != Failed && runs[i].startedAt <= from + length
    ensures runs[i].startedAt >= from + (StartsWithin(runs, from, length) - 1) * minInterval
  {
    var front, r := runs[..|runs| - 1], runs[|runs| - 1];
    var n := StartsWithin(front, from, length);
    if r.status != Failed && from <= r.startedAt <= from + length {
      i := |runs| - 1;
      if n > 0 {
        var j := LastStartIsLate(front, from, length, minInterval);
        assert runs[j] == front[j];
        OneMultipleMore(n, minInterval);
      }
    } else {
      i := LastStartIsLate(front, from, length, minInterval);
    }
  }

  /** Any window of the given length holds at most length / minInterval + 1 starts of
      runs that never fail. */
  lemma WindowBound(steps: seq<Step>, minInterval: Time, from: Time, length: Time)
    requires minInterval > 0 && length >= 0
    ensures StartsWithin(After(steps, minInterval), from, length) <= length / minInterval + 1
  {
    var runs := After(steps, minInterval);
    var n := StartsWithin(runs, from, length);
    GateSpacesRuns(steps, minInterval);
    if n > 0 {
      var i := LastStartIsLate(runs, from, length, minInterval);
      QuotientBound(n - 1, minInterval, length);
    }
  }

  lemma OneMultipleMore(n: int, d: int)
    ensures (n - 1) * d + d == n * d
  {
  }

  lemma MultiplesOrdered(a: int, b: int, d: int)
    requires d > 0
    ensures a <= b ==> a * d <= b * d
  {
    if a <= b {
      assert (b - a) * d >= 0;
    }
  }

  lemma QuotientBound(k: int, d: int, x: int)
    requires d > 0 && k * d <= x
    ensures k <= x / d
  {
    MultiplesOrdered(x / d + 1, k, d);
    assert (x / d + 1) * d > x;
  }

  class Gate {
    const minInterval: Time
    var runs: seq<Run>

    constructor (minInterval: Time)
      ensures this.minInterval == minInterval && runs == []
    {
      this.minInterval := minInterval;
      runs := [];
    }

    /** SELECT MAX(started_at) … WHERE status != 'failed'. */
    method HasFreshRun(now: Time) returns (isFresh: bool)
      ensures isFresh <==> HasFresh(runs, now, minInterval)
    {
      var latest: Option<Time> := None;
      assert runs[..0] == [];
      for i := 0 to |runs|
        invariant latest == Latest(runs[..i])
      {
        assert runs[..i + 1][..i] == runs[..i];
        if runs[i].status != Failed && (latest.None? || latest.value < runs[i].startedAt) {
          latest := Some(runs[i].startedAt);
        }
      }
      assert runs[..|runs|] == runs;
      isFresh := latest.Some? && now - latest.value < minInterval;
    }

    /** The gate of Sync: the new run's id, or None when the pass is skipped. */
    method Start(now: Time) returns (id: Option<nat>)
      modifies this
      ensures runs == Apply(old(runs), TryStart(now), minInterval)
      ensures id == if HasFresh(old(runs), now, minInterval) then None else Some(|old(runs)|)
      ensures old(Spaced(runs, minInterval)) ==> Spaced(runs, minInterval)
    {
      var skip := HasFreshRun(now);
      if skip {
        return None;
      }
      forall i | 0 <= i < |runs| && runs[i].status != Failed
        ensures now - runs[i].startedAt >= minInterval
      {
        LatestBounds(runs, i);
      }
      id := Some(|runs|);
      runs := runs + [Run(now, Running)];
    }

    method FinishRun(id: nat, status: Status)
      requires id < |runs| && runs[id].status == Running
      modifies this
      ensures runs == Apply(old(runs), Finish(id, status), minInterval)
      ensures old(Spaced(runs, minInterval)) ==> Spaced(runs, minInterval)
    {
      runs := runs[id := runs[id].(status := status)];
    }
  }
}
