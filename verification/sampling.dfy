/** The countdown of `Configs._sample_x0`: the denoising step applied at
    timesteps n-1, n-2, ..., 0, each batch row told the same timestep, with
    periodic snapshots of the intermediate state. The denoising step itself
    (the trained model's `p_sample`) is a parameter. */
module Sampling {

  import opened Tensors

  /** One denoising step: the current state and the per-row timestep vector
      give the next state. */
  type Step = (Tensor, seq<int>) -> Tensor

  /** The timesteps the loop visits for `n_steps = n`, in visiting order:
      iteration k visits n - k - 1. `range(n)` is empty for n <= 0. */
  function Timesteps(n: int): (ts: seq<int>)
    ensures |ts| == if n <= 0 then 0 else n
    decreases n
  {
    if n <= 0 then [] else [n - 1] + Timesteps(n - 1)
  }

  /** Iteration k of the loop visits timestep n - k - 1. */
  lemma {:induction false} TimestepAt(n: int, k: int)
    requires 0 <= k < |Timesteps(n)|
    ensures Timesteps(n)[k] == n - k - 1
    decreases n
  {
    if k > 0 {
      TimestepAt(n - 1, k - 1);
    }
  }

  /** The visited timesteps strictly decrease. */
  lemma TimestepsDescending(n: int, i: int, j: int)
    requires 0 <= i < j < |Timesteps(n)|
    ensures Timesteps(n)[i] > Timesteps(n)[j]
  {
    TimestepAt(n, i);
    TimestepAt(n, j);
  }

  /** Every timestep in [0, n) is visited, and nothing else is. */
  lemma TimestepsCover(n: int, t: int)
    ensures t in Timesteps(n) <==> 0 <= t < n
  {
    if 0 <= t < n {
      TimestepAt(n, n - 1 - t);
    }
    if t in Timesteps(n) {
      var k :| 0 <= k < |Timesteps(n)| && Timesteps(n)[k] == t;
      TimestepAt(n, k);
    }
  }

  /** Each timestep is visited once: two iterations visiting the same
      timestep are the same iteration. */
  lemma TimestepsDistinct(n: int, i: int, j: int)
    requires 0 <= i < |Timesteps(n)| && 0 <= j < |Timesteps(n)|
    requires Timesteps(n)[i] == Timesteps(n)[j]
    ensures i == j
  {
    TimestepAt(n, i);
    TimestepAt(n, j);
  }

  /** Reference semantics of the loop: apply `step` at each timestep of
      `ts` in order, passing a vector of `batch` copies of the timestep. */
  function Run(x: Tensor, ts: seq<int>, batch: nat, step: Step): Tensor
    decreases |ts|
  {
    if |ts| == 0 then x else Run(step(x, Full(batch, ts[0])), ts[1..], batch, step)
  }

  /** Running one more timestep is one more step on the result. */
  lemma {:induction false} RunSnoc(x: Tensor, ts: seq<int>, t: int, batch: nat, step: Step)
    ensures Run(x, ts + [t], batch, step) == step(Run(x, ts, batch, step), Full(batch, t))
    decreases |ts|
  {
    if |ts| > 0 {
      assert (ts + [t])[1..] == ts[1..] + [t];
      RunSnoc(step(x, Full(batch, ts[0])), ts[1..], t, batch, step);
    }
  }

  /** The state after iteration k is the step at timestep n - k - 1 applied
      to the state before it. */
  lemma {:induction false} RunPrefixStep(x: Tensor, n: int, k: int, batch: nat, step: Step)
    requires 0 <= k < |Timesteps(n)|
    ensures Run(x, Timesteps(n)[..k + 1], batch, step)
         == step(Run(x, Timesteps(n)[..k], batch, step), Full(batch, n - k - 1))
  {
    TimestepAt(n, k);
    assert Timesteps(n)[..k + 1] == Timesteps(n)[..k] + [n - k - 1];
    RunSnoc(x, Timesteps(n)[..k], n - k - 1, batch, step);
  }

  /** A step that keeps a well-shaped state's shape when given one timestep
      per row. */
  ghost predicate ShapePreserving(step: Step)
  {
    forall x: Tensor, t: seq<int> ::
      WellShaped(x) && |t| == x.shape.batch ==> WellShaped(step(x, t)) && step(x, t).shape == x.shape
  }

  /** With a shape-preserving step, the whole countdown keeps the shape
      (every timestep vector then has one entry per row). */
  lemma {:induction false} RunPreservesShape(x: Tensor, ts: seq<int>, step: Step)
    requires WellShaped(x)
    requires ShapePreserving(step)
    ensures WellShaped(Run(x, ts, x.shape.batch, step))
    ensures Run(x, ts, x.shape.batch, step).shape == x.shape
    decreases |ts|
  {
    if |ts| > 0 {
      var y := step(x, Full(x.shape.batch, ts[0]));
      assert WellShaped(y) && y.shape == x.shape;
      RunPreservesShape(y, ts[1..], step);
    }
  }

  /** Iteration k (counting from 0) dumps the state when k is a multiple of
      100, or a multiple of 25 from 900 on. */
  predicate IsSnapshot(k: int)
  {
    k % 100 == 0 || (k >= 900 && k % 25 == 0)
  }

  /** The snapshot iterations among the first n, in increasing order. */
  function SnapshotIndices(n: int): (r: seq<int>)
    ensures forall i :: 0 <= i < |r| ==> 0 <= r[i] < n
    ensures forall i, j :: 0 <= i < j < |r| ==> r[i] < r[j]
    decreases n
  {
    if n <= 0 then []
    else if IsSnapshot(n - 1) then SnapshotIndices(n - 1) + [n - 1]
    else SnapshotIndices(n - 1)
  }

  /** An iteration below n is listed exactly when it is a snapshot
      iteration. */
  lemma {:induction false} SnapshotIndicesMembers(n: int, k: int)
    ensures k in SnapshotIndices(n) <==> 0 <= k < n && IsSnapshot(k)
    decreases n
  {
    if n > 0 {
      SnapshotIndicesMembers(n - 1, k);
    }
  }

  /** A dump of the state after the step of iteration `index`: the image
      is labelled with the step's timestep and the MIDI file with the
      timestep plus one. */
  datatype Snapshot = Snapshot(index: int, imageLabel: int, midiLabel: int, state: Tensor)

  /** `snap` is the dump of iteration k: labelled with the step's timestep
      and holding the state the countdown had reached. */
  predicate SnapshotRecorded(snap: Snapshot, k: int, xt: Tensor, nSteps: int, step: Step)
  {
    && 0 <= k < |Timesteps(nSteps)|
    && snap.index == k
    && snap.imageLabel == nSteps - k - 1
    && snap.midiLabel == nSteps - k
    && snap.state == Run(xt, Timesteps(nSteps)[..k + 1], xt.shape.batch, step)
  }

  /** `snaps` holds one dump per snapshot iteration below `upTo`, in order. */
  predicate SnapshotsMatch(snaps: seq<Snapshot>, upTo: int, xt: Tensor, nSteps: int, step: Step)
    requires upTo <= |Timesteps(nSteps)|
  {
    && |snaps| == |SnapshotIndices(upTo)|
    && forall j :: 0 <= j < |snaps| ==>
         SnapshotRecorded(snaps[j], SnapshotIndices(upTo)[j], xt, nSteps, step)
  }

  /** The body of the snapshot branch: iteration k, at timestep t, dumps the
      new state when it is a snapshot iteration. */
  function Record(snaps: seq<Snapshot>, k: int, t: int, x: Tensor): seq<Snapshot>
  {
    if IsSnapshot(k) then snaps + [Snapshot(k, t, t + 1, x)] else snaps
  }

  /** Reference semantics of the dumps: the ones the first `upTo`
      iterations of the countdown make. */
  function Snapshots(xt: Tensor, nSteps: int, upTo: int, step: Step): seq<Snapshot>
    requires upTo <= |Timesteps(nSteps)|
    decreases upTo
  {
    if upTo <= 0 then []
    else Record(Snapshots(xt, nSteps, upTo - 1, step), upTo - 1, nSteps - upTo,
                Run(xt, Timesteps(nSteps)[..upTo], xt.shape.batch, step))
  }

  /** Iteration k adds its dump exactly when it is a snapshot iteration. */
  lemma {:induction false} SnapshotsExtend(snaps: seq<Snapshot>, k: int, xt: Tensor, nSteps: int, step: Step, x: Tensor)
    requires 0 <= k < |Timesteps(nSteps)|
    requires SnapshotsMatch(snaps, k, xt, nSteps, step)
    requires x == Run(xt, Timesteps(nSteps)[..k + 1], xt.shape.batch, step)
    ensures SnapshotsMatch(Record(snaps, k, nSteps - k - 1, x), k + 1, xt, nSteps, step)
  {
    var prev := SnapshotIndices(k);
    if IsSnapshot(k) {
      var snaps' := snaps + [Snapshot(k, nSteps - k - 1, nSteps - k, x)];
      assert SnapshotIndices(k + 1) == prev + [k];
      assert forall j :: 0 <= j < |snaps| ==> snaps'[j] == snaps[j] && SnapshotIndices(k + 1)[j] == prev[j];
    } else {
      assert SnapshotIndices(k + 1) == prev;
    }
  }

  /** The dumps of the first `upTo` iterations are one per snapshot
      iteration, in order, each labelled with its timestep and holding the
      state the countdown had reached. */
  lemma {:induction false} SnapshotsMeaning(xt: Tensor, nSteps: int, upTo: int, step: Step)
    requires 0 <= upTo <= |Timesteps(nSteps)|
    ensures SnapshotsMatch(Snapshots(xt, nSteps, upTo, step), upTo, xt, nSteps, step)
    decreases upTo
  {
    if upTo > 0 {
      SnapshotsMeaning(xt, nSteps, upTo - 1, step);
      SnapshotsExtend(Snapshots(xt, nSteps, upTo - 1, step), upTo - 1, xt, nSteps, step,
                      Run(xt, Timesteps(nSteps)[..upTo], xt.shape.batch, step));
    }
  }

  /** `Configs._sample_x0(xt, n_steps)`. Returns the final state, the
      timestep vectors handed to the step (in call order) and the snapshots.
      The final state is the reference countdown over `Timesteps(nSteps)`;
      the snapshots are taken along the way and do not alter it. */
  method SampleX0(xt: Tensor, nSteps: int, step: Step)
    returns (x: Tensor, calls: seq<seq<int>>, snaps: seq<Snapshot>)
    ensures x == Run(xt, Timesteps(nSteps), xt.shape.batch, step)
    ensures |calls| == |Timesteps(nSteps)|
    ensures forall k :: 0 <= k < |calls| ==> calls[k] == Full(xt.shape.batch, nSteps - k - 1)
    ensures SnapshotsMatch(snaps, |Timesteps(nSteps)|, xt, nSteps, step)
    ensures nSteps <= 0 ==> x == xt && calls == [] && snaps == []
  {
    var nSamples := xt.shape.batch;
    var n := |Timesteps(nSteps)|;
    x, calls, snaps := xt, [], [];
    var k := 0;
    while k < n
      invariant 0 <= k <= n
      invariant x == Run(xt, Timesteps(nSteps)[..k], nSamples, step)
      invariant |calls| == k
      invariant forall j :: 0 <= j < k ==> calls[j] == Full(nSamples, nSteps - j - 1)
      invariant snaps == Snapshots(xt, nSteps, k, step)
    {
      var t := nSteps - k - 1;
      RunPrefixStep(xt, nSteps, k, nSamples, step);
      var tv := Full(nSamples, t);
      x := step(x, tv);
      calls := calls + [tv];
      snaps := Record(snaps, k, t, x);
      k := k + 1;
    }
    assert Timesteps(nSteps)[..n] == Timesteps(nSteps);
    SnapshotsMeaning(xt, nSteps, n, step);
  }
}
