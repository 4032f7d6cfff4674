/** The branched synthetic rollout (`rollout_world_model`): start from a batch
    of states sampled from the environment buffer, let the policy act and the
    world model step for up to `K` steps, store every active branch at every
    step, drop the branches that terminated and stop once none is left.

    The policy, the world-model step and their random draws are one abstract
    step function; the model buffer's `store_batch` calls are the sequence of
    batches the rollout returns. */
module Rollout {
  import opened Numerics

  /** What the policy and `FakeWorld.step` produce for one active branch. */
  datatype Outcome = Outcome(act: seq<real>, rew: real, next: Row, done: bool)

  /** One row `(O, A, R, O_next, D)` of a `store_batch` call. */
  datatype Transition = Transition(obs: Row, act: seq<real>, rew: real, next: Row, done: bool)

  /** The policy followed by the world-model step at rollout step `k` on the
      active states; the random draws they make are part of the function. */
  type StepFn = (nat, seq<Row>) -> seq<Outcome>

  /** The world model returns one row per queried state. */
  ghost predicate OneRowPerBranch(step: StepFn) {
    forall k: nat, os: seq<Row> :: |step(k, os)| == |os|
  }

  /** The rows handed to `store_batch` at one step. */
  function Batch(os: seq<Row>, outs: seq<Outcome>): (b: seq<Transition>)
    requires |outs| == |os|
    ensures |b| == |os|
    ensures forall i :: 0 <= i < |b| ==>
              && b[i].obs == os[i] && b[i].act == outs[i].act && b[i].rew == outs[i].rew
              && b[i].next == outs[i].next && b[i].done == outs[i].done
  {
    seq(|os|, i requires 0 <= i < |os| => Transition(os[i], outs[i].act, outs[i].rew, outs[i].next, outs[i].done))
  }

  function Observations(b: seq<Transition>): (os: seq<Row>)
    ensures |os| == |b| && forall i :: 0 <= i < |b| ==> os[i] == b[i].obs
  {
    seq(|b|, i requires 0 <= i < |b| => b[i].obs)
  }

  predicate HasDone(b: seq<Transition>) {
    exists i :: 0 <= i < |b| && b[i].done
  }

  /** `O_next[~D]`: the next states of the branches that did not terminate,
      in their original order. */
  function Survivors(b: seq<Transition>): (r: seq<Row>)
    ensures |r| <= |b|
  {
    if b == [] then []
    else (if b[0].done then [] else [b[0].next]) + Survivors(b[1..])
  }

  /** Some branch is dropped exactly when some branch is done. */
  lemma {:induction false} SurvivorsShrink(b: seq<Transition>)
    ensures HasDone(b) ==> |Survivors(b)| < |b|
    ensures !HasDone(b) ==> |Survivors(b)| == |b|
    decreases |b|
  {
    if b != [] {
      SurvivorsShrink(b[1..]);
      if HasDone(b) && !b[0].done {
        var i :| 0 <= i < |b| && b[i].done;
        assert b[1..][i - 1].done;
      }
      if HasDone(b[1..]) {
        var i :| 0 <= i < |b[1..]| && b[1..][i].done;
        assert b[i + 1].done;
      }
    }
  }

  /** Survivors distributes over concatenation, so the compaction of a batch
      is the compaction of its parts, in order. */
  lemma {:induction false} SurvivorsAppend(b1: seq<Transition>, b2: seq<Transition>)
    ensures Survivors(b1 + b2) == Survivors(b1) + Survivors(b2)
    decreases |b1|
  {
    if b1 == [] {
      assert b1 + b2 == b2;
    } else {
      var b := b1 + b2;
      var head := if b1[0].done then [] else [b1[0].next];
      assert b[0] == b1[0] && b[1..] == b1[1..] + b2;
      assert Survivors(b) == head + Survivors(b1[1..] + b2);
      assert Survivors(b1) == head + Survivors(b1[1..]);
      SurvivorsAppend(b1[1..], b2);
      assert head + (Survivors(b1[1..]) + Survivors(b2)) == (head + Survivors(b1[1..])) + Survivors(b2);
    }
  }

  /** The states sampled to start a rollout: `min(rollout_batch_size, size)`
      rows of the environment buffer, at the sampler's random indices. */
  function StartStates(envObs: seq<Row>, draws: seq<nat>, batchSizeRo: nat): (os: seq<Row>)
    requires |draws| >= Min(batchSizeRo, |envObs|)
    requires forall i :: 0 <= i < |draws| ==> draws[i] < |envObs|
    ensures |os| == Min(batchSizeRo, |envObs|)
    ensures forall i :: 0 <= i < |os| ==> os[i] == envObs[draws[i]]
  {
    seq(Min(batchSizeRo, |envObs|), i requires 0 <= i < Min(batchSizeRo, |envObs|) => envObs[draws[i]])
  }

  /** The batches stored from step `k` up to `K` when `os` are the active states. */
  function Generated(step: StepFn, os: seq<Row>, k: nat, K: int): seq<seq<Transition>>
    requires OneRowPerBranch(step)
    decreases K + 1 - k
  {
    if k > K then []
    else
      var b := Batch(os, step(k, os));
      if |Survivors(b)| == 0 then [b]
      else [b] + Generated(step, Survivors(b), k + 1, K)
  }

  /** The rollout loop: up to `K` steps, storing each step's active batch and
      breaking as soon as no branch is left. */
  method RolloutWorldModel(envObs: seq<Row>, draws: seq<nat>, batchSizeRo: nat, K: int, step: StepFn)
    returns (stored: seq<seq<Transition>>)
    requires OneRowPerBranch(step)
    requires |draws| >= Min(batchSizeRo, |envObs|)
    requires forall i :: 0 <= i < |draws| ==> draws[i] < |envObs|
    ensures stored == Generated(step, StartStates(envObs, draws, batchSizeRo), 1, K)
  {
    var start := StartStates(envObs, draws, batchSizeRo);
    var os := start;
    stored := [];
    var k: nat := 1;
    while k <= K
      invariant stored + Generated(step, os, k, K) == Generated(step, start, 1, K)
      decreases K + 1 - k
    {
      var b := Batch(os, step(k, os));
      stored := stored + [b];
      var live := Survivors(b);
      if |live| == 0 {
        assert Generated(step, os, k, K) == [b];
        break;
      }
      assert Generated(step, os, k, K) == [b] + Generated(step, live, k + 1, K);
      os := live;
      k := k + 1;
    }
  }

  function TotalRows(bs: seq<seq<Transition>>): nat {
    if bs == [] then 0 else |bs[0]| + TotalRows(bs[1..])
  }

  /** At most `K - k + 1` steps are stored, and the first holds exactly the starting states. */
  lemma {:induction false} GeneratedShape(step: StepFn, os: seq<Row>, k: nat, K: int)
    requires OneRowPerBranch(step)
    ensures |Generated(step, os, k, K)| <= if K + 1 - k < 0 then 0 else K + 1 - k
    ensures k <= K ==> |Generated(step, os, k, K)| >= 1 && Observations(Generated(step, os, k, K)[0]) == os
    decreases K + 1 - k
  {
    if k <= K {
      var b := Batch(os, step(k, os));
      if |Survivors(b)| > 0 {
        GeneratedShape(step, Survivors(b), k + 1, K);
      }
    }
  }

  /** Consecutive stored batches: batch `j + 1` starts from exactly the
      surviving next states of batch `j`, which are not all done; so the
      number of active branches never increases. */
  lemma {:induction false} GeneratedChain(step: StepFn, os: seq<Row>, k: nat, K: int, j: nat)
    requires OneRowPerBranch(step)
    requires j + 1 < |Generated(step, os, k, K)|
    ensures Survivors(Generated(step, os, k, K)[j]) != []
    ensures Observations(Generated(step, os, k, K)[j + 1]) == Survivors(Generated(step, os, k, K)[j])
    ensures |Generated(step, os, k, K)[j + 1]| <= |Generated(step, os, k, K)[j]|
    decreases j
  {
    var b := Batch(os, step(k, os));
    var rest := Generated(step, Survivors(b), k + 1, K);
    assert Generated(step, os, k, K) == [b] + rest;
    if j == 0 {
      GeneratedShape(step, Survivors(b), k + 1, K);
    } else {
      GeneratedChain(step, Survivors(b), k + 1, K, j - 1);
    }
  }

  /** The rollout stops right after the step at which every branch is done:
      no batch follows one without survivors. */
  lemma {:induction false} StopsAfterAllDone(step: StepFn, os: seq<Row>, k: nat, K: int, j: nat)
    requires OneRowPerBranch(step)
    requires j < |Generated(step, os, k, K)|
    requires Survivors(Generated(step, os, k, K)[j]) == []
    ensures j == |Generated(step, os, k, K)| - 1
  {
    if j + 1 < |Generated(step, os, k, K)| {
      GeneratedChain(step, os, k, K, j);
    }
  }

  /** When the rollout stores fewer than `K - k + 1` batches, it stopped early
      because every branch of the last one was done. */
  lemma {:induction false} EarlyStopMeansAllDone(step: StepFn, os: seq<Row>, k: nat, K: int)
    requires OneRowPerBranch(step)
    requires k <= K
    requires |Generated(step, os, k, K)| < K + 1 - k
    ensures var g := Generated(step, os, k, K); |g| >= 1 && Survivors(g[|g| - 1]) == []
    decreases K + 1 - k
  {
    var b := Batch(os, step(k, os));
    if |Survivors(b)| > 0 {
      var rest := Generated(step, Survivors(b), k + 1, K);
      assert Generated(step, os, k, K) == [b] + rest;
      EarlyStopMeansAllDone(step, Survivors(b), k + 1, K);
    }
  }

  /** The rollout stores at most `start_batch * K` rows. */
  lemma {:induction false} TotalBound(step: StepFn, os: seq<Row>, k: nat, K: int)
    requires OneRowPerBranch(step)
    requires k <= K
    ensures TotalRows(Generated(step, os, k, K)) <= |os| * (K + 1 - k)
    decreases K + 1 - k
  {
    var b := Batch(os, step(k, os));
    var live := Survivors(b);
    if |live| == 0 {
      assert Generated(step, os, k, K) == [b];
      TotalRowsCons(b, []);
      BoundArith(|os|, 0, 0, K - k, K + 1 - k);
    } else {
      var rest := Generated(step, live, k + 1, K);
      assert Generated(step, os, k, K) == [b] + rest;
      TotalRowsCons(b, rest);
      if k + 1 <= K {
        TotalBound(step, live, k + 1, K);
        BoundArith(|os|, |live|, TotalRows(rest), K + 1 - (k + 1), K + 1 - k);
      } else {
        assert rest == [];
        BoundArith(|os|, 0, 0, K - k, K + 1 - k);
      }
    }
  }

  lemma TotalRowsCons(b: seq<Transition>, rest: seq<seq<Transition>>)
    ensures TotalRows([b] + rest) == |b| + TotalRows(rest)
  {
    assert ([b] + rest)[1..] == rest;
  }

  lemma BoundArith(n: nat, l: nat, t: nat, c: nat, d: int)
    requires l <= n && t <= l * c && d == c + 1
    ensures n + t <= n * d
  {
    ScaleNat(l, n, c);
  }


  /** If some branch terminates at a step before the last one, the rollout
      stores strictly fewer than `start_batch * K` rows. */
  lemma {:induction false} EarlyDoneYieldsLess(step: StepFn, os: seq<Row>, k: nat, K: int, j: nat, i: nat)
    requires OneRowPerBranch(step)
    requires j < |Generated(step, os, k, K)| && k + j < K
    requires i < |Generated(step, os, k, K)[j]| && Generated(step, os, k, K)[j][i].done
    ensures TotalRows(Generated(step, os, k, K)) < |os| * (K + 1 - k)
    decreases j, 1
  {
    if Survivors(Batch(os, step(k, os))) == [] {
      NoneSurvive(step, os, k, K);
    } else if j == 0 {
      FirstBatchDone(step, os, k, K, i);
    } else {
      LaterDoneYieldsLess(step, os, k, K, j, i);
    }
  }

  /** Every branch ends at the first of at least two remaining steps: one batch is stored. */
  lemma NoneSurvive(step: StepFn, os: seq<Row>, k: nat, K: int)
    requires OneRowPerBranch(step)
    requires k < K && |os| >= 1 && Survivors(Batch(os, step(k, os))) == []
    ensures TotalRows(Generated(step, os, k, K)) < |os| * (K + 1 - k)
  {
    var b := Batch(os, step(k, os));
    assert Generated(step, os, k, K) == [b];
    assert [b] + [] == [b];
    TotalRowsCons(b, []);
    StopArith(|os|, K - k, K + 1 - k);
  }

  /** The base case of `EarlyDoneYieldsLess`: a branch done in the first
      batch leaves fewer survivors, each of which stays within its own bound. */
  lemma FirstBatchDone(step: StepFn, os: seq<Row>, k: nat, K: int, i: nat)
    requires OneRowPerBranch(step)
    requires 1 <= |Generated(step, os, k, K)| && k < K
    requires i < |Generated(step, os, k, K)[0]| && Generated(step, os, k, K)[0][i].done
    requires Survivors(Batch(os, step(k, os))) != []
    ensures TotalRows(Generated(step, os, k, K)) < |os| * (K + 1 - k)
  {
    var b := Batch(os, step(k, os));
    var live := Survivors(b);
    var rest := Generated(step, live, k + 1, K);
    GeneratedCons(step, os, k, K);
    assert HasDone(b) by { assert ([b] + rest)[0] == b; assert b[i].done; }
    SurvivorsShrink(b);
    TotalBound(step, live, k + 1, K);
    TotalRowsCons(b, rest);
    StrictStepArith(|os|, |live|, TotalRows(rest), K + 1 - (k + 1), K + 1 - k);
  }

  /** The induction step of `EarlyDoneYieldsLess`: a branch done in a later
      batch makes the rest of the rollout fall short of its own bound. */
  lemma {:induction false} LaterDoneYieldsLess(step: StepFn, os: seq<Row>, k: nat, K: int, j: nat, i: nat)
    requires OneRowPerBranch(step)
    requires 1 <= j < |Generated(step, os, k, K)| && k + j < K
    requires i < |Generated(step, os, k, K)[j]| && Generated(step, os, k, K)[j][i].done
    requires Survivors(Batch(os, step(k, os))) != []
    ensures TotalRows(Generated(step, os, k, K)) < |os| * (K + 1 - k)
    decreases j, 0
  {
    var b := Batch(os, step(k, os));
    var live := Survivors(b);
    var rest := Generated(step, live, k + 1, K);
    DoneInRest(step, os, k, K, j, i);
    EarlyDoneYieldsLess(step, live, k + 1, K, j - 1, i);
    GeneratedCons(step, os, k, K);
    TotalRowsCons(b, rest);
    StepArith(|os|, |live|, TotalRows(rest), K + 1 - (k + 1), K + 1 - k);
  }

  /** Batch `j >= 1` of a rollout is batch `j - 1` of the rollout from the survivors. */
  lemma DoneInRest(step: StepFn, os: seq<Row>, k: nat, K: int, j: nat, i: nat)
    requires OneRowPerBranch(step)
    requires 1 <= j < |Generated(step, os, k, K)| && k + j < K
    requires i < |Generated(step, os, k, K)[j]| && Generated(step, os, k, K)[j][i].done
    requires Survivors(Batch(os, step(k, os))) != []
    ensures var rest := Generated(step, Survivors(Batch(os, step(k, os))), k + 1, K);
            j - 1 < |rest| && i < |rest[j - 1]| && rest[j - 1][i].done
  {
    var b := Batch(os, step(k, os));
    var rest := Generated(step, Survivors(b), k + 1, K);
    GeneratedCons(step, os, k, K);
    assert ([b] + rest)[j] == rest[j - 1];
  }

  /** One step of the rollout that leaves some branch alive. */
  lemma GeneratedCons(step: StepFn, os: seq<Row>, k: nat, K: int)
    requires OneRowPerBranch(step)
    requires k <= K && Survivors(Batch(os, step(k, os))) != []
    ensures var b := Batch(os, step(k, os));
            Generated(step, os, k, K) == [b] + Generated(step, Survivors(b), k + 1, K)
  {
  }

  lemma StrictStepArith(n: nat, l: nat, t: nat, c: nat, d: int)
    requires l < n && 1 <= c && t <= l * c && d == c + 1
    ensures n + t < n * d
  {
    ScaleNat(l, n - 1, c);
  }

  lemma StopArith(n: nat, c: nat, d: int)
    requires 1 <= n && 1 <= c && d == c + 1
    ensures n < n * d
  {
  }

  lemma StepArith(n: nat, l: nat, t: nat, c: nat, d: int)
    requires l <= n && t < l * c && d == c + 1
    ensures n + t < n * d
  {
    ScaleNat(l, n, c);
  }


  lemma ScaleNat(a: nat, b: nat, c: nat)
    requires a <= b
    ensures a * c <= b * c
  {
  }

  /** Ten branches that all terminate at step 3 of a 5-step rollout store
      three batches of ten rows and nothing for steps 4 and 5. */
  lemma ExampleAllDoneAtStep3(os: seq<Row>)
    requires |os| == 10
    ensures var step := ExampleStep;
      |Generated(step, os, 1, 5)| == 3 && TotalRows(Generated(step, os, 1, 5)) == 30
  {
    var step := ExampleStep;
    assert OneRowPerBranch(step);
    var b1 := Batch(os, step(1, os));
    assert Survivors(b1) == os by { SurvivorsKeepsAll(b1); }
    var b2 := Batch(os, step(2, os));
    assert Survivors(b2) == os by { SurvivorsKeepsAll(b2); }
    var b3 := Batch(os, step(3, os));
    assert HasDone(b3) by { assert b3[0].done; }
    assert Survivors(b3) == [] by { SurvivorsDropsAll(b3); }
    assert Generated(step, os, 3, 5) == [b3];
    assert Generated(step, os, 2, 5) == [b2, b3];
    assert Generated(step, os, 1, 5) == [b1, b2, b3];
    assert TotalRows([b3]) == 10 by { assert [b3][1..] == []; }
    assert TotalRows([b2, b3]) == 20 by { assert [b2, b3][1..] == [b3]; }
    assert TotalRows([b1, b2, b3]) == 30 by { assert [b1, b2, b3][1..] == [b2, b3]; }
  }

  /** A world model under which a branch stays put and terminates from step 3 on. */
  function ExampleStep(k: nat, os: seq<Row>): seq<Outcome> {
    seq(|os|, i requires 0 <= i < |os| => Outcome([], 0.0, os[i], k >= 3))
  }

  lemma {:induction false} SurvivorsKeepsAll(b: seq<Transition>)
    requires forall i :: 0 <= i < |b| ==> !b[i].done && b[i].next == b[i].obs
    ensures Survivors(b) == Observations(b)
    decreases |b|
  {
    if b != [] {
      SurvivorsKeepsAll(b[1..]);
    }
  }

  lemma {:induction false} SurvivorsDropsAll(b: seq<Transition>)
    requires forall i :: 0 <= i < |b| ==> b[i].done
    ensures Survivors(b) == []
    decreases |b|
  {
    if b != [] {
      SurvivorsDropsAll(b[1..]);
    }
  }

  // The MBPO copy of the rollout compacts with a mask widened across the
  // observation columns: `O_next[np.repeat(~D, d, axis=1)].reshape(-1, d)`.

  function Nexts(b: seq<Transition>): (rows: seq<Row>)
    ensures |rows| == |b| && forall i :: 0 <= i < |b| ==> rows[i] == b[i].next
  {
    seq(|b|, i requires 0 <= i < |b| => b[i].next)
  }

  function Dones(b: seq<Transition>): (flags: seq<bool>)
    ensures |flags| == |b| && forall i :: 0 <= i < |b| ==> flags[i] == b[i].done
  {
    seq(|b|, i requires 0 <= i < |b| => b[i].done)
  }

  /** Row-major flattening of a two-dimensional array. */
  function Flatten(rows: seq<seq<real>>): seq<real> {
    if rows == [] then [] else rows[0] + Flatten(rows[1..])
  }

  /** `np.repeat(~D, d, axis=1)` in row-major order: each row's keep flag
      repeated across its `d` columns. */
  function WidenedMask(done: seq<bool>, d: nat): seq<bool> {
    if done == [] then [] else seq(d, _ => !done[0]) + WidenedMask(done[1..], d)
  }

  /** Boolean-mask indexing of a flat array. */
  function Select(xs: seq<real>, mask: seq<bool>): seq<real>
    requires |xs| == |mask|
  {
    if xs == [] then [] else (if mask[0] then [xs[0]] else []) + Select(xs[1..], mask[1..])
  }

  /** `reshape(-1, d)`: consecutive rows of `d` entries. (numpy refuses a
      length that is not a multiple of `d`; `WidenedMaskIsRowFilter` shows
      the compaction always hands it a multiple.) */
  function Reshape(xs: seq<real>, d: nat): seq<seq<real>>
    requires d > 0
    decreases |xs|
  {
    if |xs| < d then [] else [xs[..d]] + Reshape(xs[d..], d)
  }


  /** The MBPO compaction of one step's batch, for observations of width `d`. */
  function CompactByWidenedMask(b: seq<Transition>, d: nat): seq<Row>
    requires d > 0 && Width(Nexts(b), d)
  {
    Reshape(Select(Flatten(Nexts(b)), WidenedMaskLength(b, d)), d)
  }

  /** Widening the row mask across the columns and reshaping back keeps exactly
      the non-done rows in order: the MBPO compaction equals the MBPPO one. */
  lemma WidenedMaskIsRowFilter(b: seq<Transition>, d: nat)
    requires d > 0 && Width(Nexts(b), d)
    ensures |Select(Flatten(Nexts(b)), WidenedMaskLength(b, d))| == |Survivors(b)| * d
    ensures CompactByWidenedMask(b, d) == Survivors(b)
  {
    SelectWidenedIsFlatSurvivors(b, d);
    SurvivorsWidth(b, d);
    FlattenLength(Survivors(b), d);
    ReshapeFlatten(Survivors(b), d);
  }

  function WidenedMaskLength(b: seq<Transition>, d: nat): (m: seq<bool>)
    requires Width(Nexts(b), d)
    ensures m == WidenedMask(Dones(b), d) && |m| == |Flatten(Nexts(b))|
  {
    WidenedLengths(b, d);
    WidenedMask(Dones(b), d)
  }

  lemma {:induction false} WidenedLengths(b: seq<Transition>, d: nat)
    requires Width(Nexts(b), d)
    ensures |WidenedMask(Dones(b), d)| == |Flatten(Nexts(b))|
    decreases |b|
  {
    if b != [] {
      assert Nexts(b) == [b[0].next] + Nexts(b[1..]);
      assert Nexts(b)[1..] == Nexts(b[1..]);
      assert Dones(b)[1..] == Dones(b[1..]);
      WidenedLengths(b[1..], d);
    }
  }

  lemma {:induction false} SelectWidenedIsFlatSurvivors(b: seq<Transition>, d: nat)
    requires Width(Nexts(b), d)
    ensures Select(Flatten(Nexts(b)), WidenedMaskLength(b, d)) == Flatten(Survivors(b))
    decreases |b|
  {
    if b != [] {
      var row, flag := b[0].next, !b[0].done;
      assert Nexts(b)[1..] == Nexts(b[1..]);
      assert Dones(b)[1..] == Dones(b[1..]);
      var restFlat, restMask := Flatten(Nexts(b[1..])), WidenedMaskLength(b[1..], d);
      assert Flatten(Nexts(b)) == row + restFlat;
      assert WidenedMask(Dones(b), d) == seq(d, _ => flag) + restMask;
      SelectAppend(row, seq(d, _ => flag), restFlat, restMask);
      SelectConstant(row, flag);
      SelectWidenedIsFlatSurvivors(b[1..], d);
      if flag {
        assert Survivors(b) == [row] + Survivors(b[1..]);
        assert ([row] + Survivors(b[1..]))[1..] == Survivors(b[1..]);
      } else {
        assert Survivors(b) == Survivors(b[1..]);
      }
    }
  }

  lemma {:induction false} SelectAppend(x1: seq<real>, m1: seq<bool>, x2: seq<real>, m2: seq<bool>)
    requires |x1| == |m1| && |x2| == |m2|
    ensures Select(x1 + x2, m1 + m2) == Select(x1, m1) + Select(x2, m2)
    decreases |x1|
  {
    if x1 == [] {
      assert x1 + x2 == x2 && m1 + m2 == m2;
    } else {
      var x, m := x1 + x2, m1 + m2;
      assert x[0] == x1[0] && m[0] == m1[0];
      assert x[1..] == x1[1..] + x2 && m[1..] == m1[1..] + m2;
      assert Select(x, m) == (if m1[0] then [x1[0]] else []) + Select(x1[1..] + x2, m1[1..] + m2);
      SelectAppend(x1[1..], m1[1..], x2, m2);
    }
  }

  lemma {:induction false} SelectConstant(xs: seq<real>, flag: bool)
    ensures Select(xs, seq(|xs|, _ => flag)) == if flag then xs else []
    decreases |xs|
  {
    if xs != [] {
      assert seq(|xs|, _ => flag)[1..] == seq(|xs| - 1, _ => flag);
      SelectConstant(xs[1..], flag);
    }
  }

  lemma {:induction false} SurvivorsWidth(b: seq<Transition>, d: nat)
    requires Width(Nexts(b), d)
    ensures Width(Survivors(b), d)
    decreases |b|
  {
    if b != [] {
      assert Nexts(b)[1..] == Nexts(b[1..]);
      SurvivorsWidth(b[1..], d);
    }
  }

  lemma {:induction false} FlattenLength(rows: seq<seq<real>>, d: nat)
    requires Width(rows, d)
    ensures |Flatten(rows)| == |rows| * d
    decreases |rows|
  {
    if rows != [] {
      FlattenLength(rows[1..], d);
      assert |Flatten(rows)| == d + (|rows| - 1) * d;
    }
  }

  lemma {:induction false} ReshapeFlatten(rows: seq<seq<real>>, d: nat)
    requires d > 0 && Width(rows, d)
    ensures Reshape(Flatten(rows), d) == rows
    decreases |rows|
  {
    if rows == [] {
      assert Flatten(rows) == [];
    } else {
      var flat := Flatten(rows);
      assert flat == rows[0] + Flatten(rows[1..]);
      assert flat[..d] == rows[0];
      assert flat[d..] == Flatten(rows[1..]);
      ReshapeFlatten(rows[1..], d);
    }
  }
}
