/** The learned world model as an environment (`FakeWorld`): one `step`
    queries the dynamics ensemble on `obs ++ act`, turns its predicted deltas
    into next observations, draws one elite member per row, splits the
    sample into reward and next observation, decides termination per
    environment, and lays out the info rows. `train_fake_world` assembles
    the ensemble's training data.

    The ensemble itself (`model.predict`, `model.train`) is not modelled: its
    prediction is a function argument, and the normal noise and elite draws
    are inputs. */
module FakeWorld {
  import opened Numerics

  /** An ensemble output indexed `[member][row][column]`. */
  type Cube = seq<Matrix>

  /** A one- or two-dimensional tensor; a matrix records its column count so
      that an empty batch still has a width. */
  datatype Tensor<T> = Vec(v: seq<T>) | Mat(rows: seq<seq<T>>, cols: nat)

  predicate WellFormed<T>(t: Tensor<T>) {
    t.Mat? ==> Width(t.rows, t.cols)
  }

  /** The size of the last dimension. */
  function Dim<T>(t: Tensor<T>): nat {
    if t.Vec? then |t.v| else t.cols
  }

  predicate IsCube(c: Cube, members: nat, rows: nat, cols: nat) {
    |c| == members && forall m :: 0 <= m < members ==> |c[m]| == rows && Width(c[m], cols)
  }

  datatype StepError =
    | ShapeMismatch        // `T.cat((obs, act))` on tensors of different ranks or row counts
    | EmptyEliteSet        // `np.random.choice` from no elites for a non-empty batch
    | UnknownEnvironment   // `_termination_fn` returns `None` for other names
    | MissingColumn        // the termination rule indexes a column the observation lacks

  /** The step's batch after shape promotion: whether the caller passed a
      single observation, and the observation and action rows. */
  datatype Batched = Batched(obs: Matrix, act: Matrix, obsDim: nat, actDim: nat, single: bool)

  /** A 1-D observation becomes a batch of one (with a 1-D action promoted
      alongside); the concatenation of observation and action then needs
      matrices with equal row counts. */
  function Promote(obs: Tensor<real>, act: Tensor<real>): (r: Result<Batched, StepError>)
    requires WellFormed(obs) && WellFormed(act)
    ensures r.Err? <==>
              || (obs.Mat? && act.Vec?)
              || (obs.Vec? && act.Mat? && |act.rows| != 1)
              || (obs.Mat? && act.Mat? && |obs.rows| != |act.rows|)
    ensures r.Err? ==> r.error == ShapeMismatch
    ensures r.Ok? ==> && |r.value.obs| == |r.value.act|
                      && Width(r.value.obs, r.value.obsDim) && r.value.obsDim == Dim(obs)
                      && Width(r.value.act, r.value.actDim) && r.value.actDim == Dim(act)
    ensures r.Ok? ==> (r.value.single <==> obs.Vec?)
    ensures r.Ok? && obs.Vec? ==> r.value.obs == [obs.v] && r.value.act == (if act.Vec? then [act.v] else act.rows)
    ensures r.Ok? && obs.Mat? ==> r.value.obs == obs.rows && r.value.act == act.rows
  {
    match (obs, act)
    case (Vec(o), Vec(a)) => Ok(Batched([o], [a], |o|, |a|, true))
    case (Vec(o), Mat(a, ac)) => if |a| == 1 then Ok(Batched([o], a, |o|, ac, true)) else Err(ShapeMismatch)
    case (Mat(_, _), Vec(_)) => Err(ShapeMismatch)
    case (Mat(o, oc), Mat(a, ac)) => if |o| == |a| then Ok(Batched(o, a, oc, ac, false)) else Err(ShapeMismatch)
  }

  /** The ensemble's input rows `obs ++ act`, used both by `step` and by
      `train_fake_world`. */
  function ModelInputs(obs: Matrix, act: Matrix): (inputs: Matrix)
    requires |obs| == |act|
    ensures |inputs| == |obs|
    ensures forall i :: 0 <= i < |obs| ==> inputs[i] == obs[i] + act[i]
  {
    seq(|obs|, i requires 0 <= i < |obs| => obs[i] + act[i])
  }

  // ---------------------------------------------------------------------
  // Predicted deltas and training labels

  /** A predicted row `[reward, delta_1, ..., delta_d]` with the observation
      added to every column but the reward. */
  function CorrectRow(p: Row, o: Row): (r: Row)
    requires |p| == |o| + 1
    ensures |r| == |p| && r[0] == p[0]
    ensures forall c :: 0 <= c < |o| ==> r[c + 1] - o[c] == p[c + 1]
  {
    [p[0]] + seq(|o|, c requires 0 <= c < |o| => p[c + 1] + o[c])
  }

  /** The training label `[reward] ++ (next_state - state)`. */
  function Label(reward: real, state: Row, next: Row): (l: Row)
    requires |next| == |state|
    ensures |l| == |state| + 1 && l[0] == reward
    ensures forall c :: 0 <= c < |state| ==> state[c] + l[c + 1] == next[c]
  {
    [reward] + seq(|state|, c requires 0 <= c < |state| => next[c] - state[c])
  }

  /** Adding the state back to a label's delta columns, as `step` does,
      reconstructs `[reward] ++ next_state`. */
  lemma CorrectLabel(reward: real, state: Row, next: Row)
    requires |next| == |state|
    ensures CorrectRow(Label(reward, state, next), state) == [reward] + next
  {
    var r := CorrectRow(Label(reward, state, next), state);
    assert forall c :: 0 <= c < |r| ==> r[c] == ([reward] + next)[c] by {
      forall c | 0 <= c < |r|
        ensures r[c] == ([reward] + next)[c]
      {
        if c > 0 {
          assert r[c] - state[c - 1] == Label(reward, state, next)[c];
        }
      }
    }
  }

  /** Conversely, a corrected prediction determines its prediction: the
      label of the corrected row against the same observation is the row the
      ensemble predicted. */
  lemma LabelCorrected(p: Row, o: Row)
    requires |p| == |o| + 1
    ensures var r := CorrectRow(p, o); Label(r[0], o, r[1..]) == p
  {
    var r := CorrectRow(p, o);
    var l := Label(r[0], o, r[1..]);
    forall c | 0 <= c < |p|
      ensures l[c] == p[c]
    {
      if c > 0 {
        assert o[c - 1] + l[c] == r[c];
      }
    }
  }

  /** `CorrectRow` applied to every row of every ensemble member. */
  function Corrected(means: Cube, obs: Matrix, members: nat, rows: nat, d: nat): (r: Cube)
    requires IsCube(means, members, rows, d + 1) && |obs| == rows && Width(obs, d)
    ensures IsCube(r, members, rows, d + 1)
    ensures forall m, i :: 0 <= m < members && 0 <= i < rows ==> r[m][i] == CorrectRow(means[m][i], obs[i])
  {
    seq(members, m requires 0 <= m < members =>
      seq(rows, i requires 0 <= i < rows => CorrectRow(means[m][i], obs[i])))
  }

  /** The values of a three-dimensional array. */
  function Snapshot(a: array3<real>): (c: Cube)
    reads a
    ensures IsCube(c, a.Length0, a.Length1, a.Length2)
    ensures forall m, i, j :: 0 <= m < a.Length0 && 0 <= i < a.Length1 && 0 <= j < a.Length2 ==> c[m][i][j] == a[m, i, j]
  {
    seq(a.Length0, m requires 0 <= m < a.Length0 reads a =>
      seq(a.Length1, i requires 0 <= i < a.Length1 reads a =>
        seq(a.Length2, j requires 0 <= j < a.Length2 reads a => a[m, i, j])))
  }

  /** `ensemble_model_means[:, :, 1:] += obs`: in place, for every member. */
  method AddObservation(means: array3<real>, obs: Matrix)
    requires means.Length2 >= 1 && |obs| == means.Length1 && Width(obs, means.Length2 - 1)
    modifies means
    ensures Snapshot(means) == Corrected(old(Snapshot(means)), obs, means.Length0, means.Length1, means.Length2 - 1)
  {
    ghost var before := Snapshot(means);
    forall m, i, j | 0 <= m < means.Length0 && 0 <= i < means.Length1 && 1 <= j < means.Length2 {
      means[m, i, j] := means[m, i, j] + obs[i][j - 1];
    }
    CorrectedElementwise(before, Snapshot(means), obs, means.Length0, means.Length1, means.Length2 - 1);
  }

  /** A cube that agrees entry by entry with the predicted one, except that
      every delta column has the observation added, is the corrected cube. */
  lemma CorrectedElementwise(before: Cube, after: Cube, obs: Matrix, members: nat, rows: nat, d: nat)
    requires IsCube(before, members, rows, d + 1) && IsCube(after, members, rows, d + 1)
    requires |obs| == rows && Width(obs, d)
    requires forall m, i :: 0 <= m < members && 0 <= i < rows ==> after[m][i][0] == before[m][i][0]
    requires forall m, i, j :: 0 <= m < members && 0 <= i < rows && 1 <= j < d + 1 ==>
               after[m][i][j] == before[m][i][j] + obs[i][j - 1]
    ensures after == Corrected(before, obs, members, rows, d)
  {
    var expected := Corrected(before, obs, members, rows, d);
    forall m | 0 <= m < members
      ensures after[m] == expected[m]
    {
      forall i | 0 <= i < rows
        ensures after[m][i] == expected[m][i]
      {
        assert expected[m][i] == CorrectRow(before[m][i], obs[i]);
        forall j | 0 <= j < d + 1
          ensures after[m][i][j] == expected[m][i][j]
        {
          if j > 0 {
            assert expected[m][i][j] - obs[i][j - 1] == before[m][i][j];
          }
        }
      }
    }
  }

  /** A fresh array holding the values of a cube. */
  method ToArray(c: Cube, members: nat, rows: nat, cols: nat) returns (a: array3<real>)
    requires IsCube(c, members, rows, cols)
    ensures fresh(a) && a.Length0 == members && a.Length1 == rows && a.Length2 == cols
    ensures Snapshot(a) == c
  {
    a := new real[members, rows, cols];
    forall m, i, j | 0 <= m < members && 0 <= i < rows && 0 <= j < cols {
      a[m, i, j] := c[m][i][j];
    }
    var s := Snapshot(a);
    forall m | 0 <= m < members
      ensures s[m] == c[m]
    {
      forall i | 0 <= i < rows
        ensures s[m][i] == c[m][i]
      {
      }
    }
    assert s == c;
  }

  // ---------------------------------------------------------------------
  // Sampling and elite selection

  /** The ensemble samples: the means themselves in deterministic mode,
      otherwise `means + noise * stds` with `noise` the standard normal draw. */
  function Samples(means: Cube, stds: Cube, noise: Cube, members: nat, rows: nat, cols: nat, deterministic: bool): (s: Cube)
    requires IsCube(means, members, rows, cols) && IsCube(stds, members, rows, cols) && IsCube(noise, members, rows, cols)
    ensures IsCube(s, members, rows, cols)
    ensures deterministic ==> s == means
    ensures !deterministic ==> forall m, i, j :: 0 <= m < members && 0 <= i < rows && 0 <= j < cols ==>
              s[m][i][j] - means[m][i][j] == noise[m][i][j] * stds[m][i][j]
  {
    if deterministic then means
    else
      seq(members, m requires 0 <= m < members =>
        seq(rows, i requires 0 <= i < rows =>
          seq(cols, j requires 0 <= j < cols => means[m][i][j] + noise[m][i][j] * stds[m][i][j])))
  }

  /** `np.random.choice(elite_model_idxes, size=batch_size)`: `draws[i]`
      is the position in the elite list drawn for row `i`. */
  function EliteMembers(elites: seq<nat>, draws: seq<nat>): (idx: seq<nat>)
    requires forall i :: 0 <= i < |draws| ==> draws[i] < |elites|
    ensures |idx| == |draws|
    ensures forall i :: 0 <= i < |idx| ==> idx[i] in elites
  {
    seq(|draws|, i requires 0 <= i < |draws| => elites[draws[i]])
  }

  /** `cube[model_idxes, arange(batch_size)]`: row `i` from member `idx[i]`. */
  function Gather(c: Cube, idx: seq<nat>, members: nat): (rows: Matrix)
    requires |c| == members
    requires forall i :: 0 <= i < |idx| ==> idx[i] < members && i < |c[idx[i]]|
    ensures |rows| == |idx|
    ensures forall i :: 0 <= i < |idx| ==> rows[i] == c[idx[i]][i]
  {
    seq(|idx|, i requires 0 <= i < |idx| => c[idx[i]][i])
  }

  // ---------------------------------------------------------------------
  // Termination

  function Abs(x: real): real { if x < 0.0 then -x else x }

  /** `sub` occurs in `s` (Python's `sub in s`). */
  predicate Contains(s: string, sub: string)
    decreases |s|
  {
    sub <= s || (|s| > 0 && Contains(s[1..], sub))
  }

  /** The environments `_termination_fn` knows. */
  predicate KnownEnvironment(env: string) {
    env == "Hopper-v2" || env == "Walker2d-v2" || Contains(env, "walker_")
  }

  /** Hopper is alive when every entry after the height is below 100 (the
      `abs` is applied to the comparison, not to the entry, so only the upper
      bound is checked), the height exceeds 0.7 and the angle lies within
      0.2. The source also requires every entry to be finite, which every
      real number is. */
  predicate HopperAlive(row: Row)
    requires |row| >= 2
  {
    && (forall c :: 1 <= c < |row| ==> row[c] < 100.0)
    && row[0] > 0.7
    && Abs(row[1]) < 0.2
  }

  /** The walker band: height strictly within `(0.8 - offset, 2.0 - offset)`,
      angle strictly within `(-1, 1)`. */
  predicate WalkerAlive(height: real, angle: real, offset: real) {
    0.8 - offset < height < 2.0 - offset && -1.0 < angle < 1.0
  }

  /** The torso offset of a `walker_*` task: 0 for the `walker_7` and
      `walker_5` tasks, 0.26 otherwise. */
  function WalkerOffset(env: string): real {
    if Contains(env, "walker_7") || Contains(env, "walker_5") then 0.0 else 0.26
  }

  /** Whether the row is terminal, for a known environment. */
  predicate Done(env: string, row: Row)
    requires KnownEnvironment(env) && |row| >= 2
  {
    if env == "Hopper-v2" then !HopperAlive(row)
    else if env == "Walker2d-v2" then !WalkerAlive(row[0], row[1], 0.0)
    else !WalkerAlive(row[|row| - 2], row[|row| - 1], WalkerOffset(env))
  }

  /** `_termination_fn`: one done flag per row of `next`. */
  function Terminations(env: string, next: Matrix, d: nat): (r: Result<seq<bool>, StepError>)
    requires Width(next, d)
    ensures r.Err? <==> !KnownEnvironment(env) || d < 2
    ensures !KnownEnvironment(env) ==> r == Err(UnknownEnvironment)
    ensures r.Ok? ==> |r.value| == |next| && forall i :: 0 <= i < |next| ==> (r.value[i] <==> Done(env, next[i]))
  {
    if !KnownEnvironment(env) then Err(UnknownEnvironment)
    else if d < 2 then Err(MissingColumn)
    else Ok(seq(|next|, i requires 0 <= i < |next| => Done(env, next[i])))
  }

  /** The Hopper rule bounds the entries after the height from above only:
      an entry of -1000 does not end the episode. */
  lemma HopperBoundOneSided()
    ensures !Done("Hopper-v2", [1.0, 0.0, -1000.0])
    ensures Done("Hopper-v2", [1.0, 0.0, 1000.0])
  {
    var low, high := [1.0, 0.0, -1000.0], [1.0, 0.0, 1000.0];
    assert KnownEnvironment("Hopper-v2");
    assert forall c :: 1 <= c < |low| ==> low[c] < 100.0;
    assert !(high[2] < 100.0);
  }

  /** The `walker_7` and `walker_5` tasks apply the Walker2d band to the last
      two entries; every other `walker_*` task applies it to the height
      raised by 0.26. */
  lemma WalkerTasksShiftTheBand(env: string, row: Row)
    requires Contains(env, "walker_") && env != "Hopper-v2" && env != "Walker2d-v2" && |row| >= 2
    ensures var h, a := row[|row| - 2], row[|row| - 1];
            Done(env, row) == Done("Walker2d-v2", [h + WalkerOffset(env), a])
    ensures Contains(env, "walker_7") ==> WalkerOffset(env) == 0.0
  {
    assert KnownEnvironment("Walker2d-v2");
  }

  // ---------------------------------------------------------------------
  // The step

  /** The ensemble's prediction for a batch of input rows: means and
      standard deviations (the square roots of the predicted variances),
      each `[member][row][reward ++ observation delta]`. */
  datatype Prediction = Prediction(means: Cube, stds: Cube)

  /** What `step` returns: next observations, rewards, terminal flags, and
      the `info['mean']` and `info['std']` rows. */
  datatype StepOut = StepOut(nextObs: Tensor<real>, rewards: Tensor<real>, terminals: Tensor<bool>,
                             infoMean: Tensor<real>, infoStd: Tensor<real>)

  /** The shapes `step` returns for a batch of `rows`: every output is a
      vector when the caller passed a single observation, and otherwise a
      matrix with one row per batch row. */
  predicate ShapedFor(out: StepOut, rows: nat, single: bool) {
    && (out.nextObs.Vec? <==> single) && (out.rewards.Vec? <==> single) && (out.terminals.Vec? <==> single)
    && (out.infoMean.Vec? <==> single) && (out.infoStd.Vec? <==> single)
    && (!single ==> && |out.nextObs.rows| == rows && |out.rewards.rows| == rows && |out.terminals.rows| == rows
                    && |out.infoMean.rows| == rows && |out.infoStd.rows| == rows)
  }

  /** The prediction fits the batch: `members` ensemble members, one row per
      input row, one reward column and one column per observation entry;
      the noise has the same shape; the elite indices name members and each
      row has an elite draw. */
  predicate Fits(b: Batched, p: Prediction, noise: Cube, elites: seq<nat>, draws: seq<nat>) {
    var members, rows := |p.means|, |b.obs|;
    && IsCube(p.means, members, rows, b.obsDim + 1)
    && IsCube(p.stds, members, rows, b.obsDim + 1)
    && IsCube(noise, members, rows, b.obsDim + 1)
    && Width(b.obs, b.obsDim)
    && (forall e :: e in elites ==> e < members)
    && |draws| == rows
    && (|elites| > 0 ==> forall i :: 0 <= i < rows ==> draws[i] < |elites|)
  }

  /** An info row: the first entry, then `flag`, then the remaining entries. */
  function InfoRow(row: Row, flag: real): (r: Row)
    requires |row| >= 1
    ensures |r| == |row| + 1 && r[1] == flag
    ensures DropColumn1(r) == row
  {
    row[..1] + [flag] + row[1..]
  }

  function DropColumn1(r: Row): Row
    requires |r| >= 2
  {
    r[..1] + r[2..]
  }

  /** A batch of rows, or its only row when the caller passed a single observation. */
  function Unwrap<T>(rows: seq<seq<T>>, w: nat, single: bool): (t: Tensor<T>)
    requires single ==> |rows| >= 1
  {
    if single then Vec(rows[0]) else Mat(rows, w)
  }

  /** Row `i` of a step output. */
  function RowOf<T>(t: Tensor<T>, i: nat): seq<T>
    requires t.Mat? ==> i < |t.rows|
  {
    if t.Vec? then t.v else t.rows[i]
  }

  /** Row `i` of member `e`'s sample, `ensemble_samples[e, i]`. */
  function SampleRow(means: Cube, stds: Cube, noise: Cube, e: nat, i: nat, deterministic: bool): Row
    requires e < |means| == |stds| == |noise| && i < |means[e]| == |stds[e]| == |noise[e]|
    requires |stds[e][i]| == |means[e][i]| == |noise[e][i]|
  {
    if deterministic then means[e][i]
    else seq(|means[e][i]|, j requires 0 <= j < |means[e][i]| => means[e][i][j] + noise[e][i][j] * stds[e][i][j])
  }

  /** Gathering the sampled cube at `(idx[i], i)` gives member `idx[i]`'s sample row. */
  lemma GatherSamples(means: Cube, stds: Cube, noise: Cube, members: nat, rows: nat, cols: nat,
                      idx: seq<nat>, deterministic: bool, i: nat)
    requires IsCube(means, members, rows, cols) && IsCube(stds, members, rows, cols) && IsCube(noise, members, rows, cols)
    requires |idx| == rows && forall k :: 0 <= k < rows ==> idx[k] < members
    requires i < rows
    ensures Gather(Samples(means, stds, noise, members, rows, cols, deterministic), idx, members)[i]
            == SampleRow(means, stds, noise, idx[i], i, deterministic)
  {
    var s := Samples(means, stds, noise, members, rows, cols, deterministic);
    var e := idx[i];
    if !deterministic {
      forall j | 0 <= j < cols
        ensures s[e][i][j] == SampleRow(means, stds, noise, e, i, deterministic)[j]
      {
      }
    }
  }

  /** The step's outputs, one row per batch row, before unwrapping. */
  datatype Rows = Rows(next: Matrix, rewards: Matrix, terminals: seq<seq<bool>>, infoMean: Matrix, infoStd: Matrix)

  function Flag(done: bool): real { if done then 1.0 else 0.0 }

  /** Row `i` of the outputs is laid out from the sample row `s` and the
      mean and std rows of the same member: the reward is column 0 of the
      sample, the next observation the remaining columns, the terminal flag
      the environment's rule applied to that next observation, and the info
      rows are `[reward mean, flag, next-observation means]` and
      `[reward std, 0, next-observation stds]`. */
  predicate LaidOut(env: string, o: Rows, i: nat, s: Row, mean: Row, std: Row) {
    && i < |o.next| && i < |o.rewards| && i < |o.terminals| && i < |o.infoMean| && i < |o.infoStd|
    && |s| >= 3 && |mean| >= 1 && |std| >= 1 && KnownEnvironment(env)
    && o.rewards[i] == [s[0]]
    && o.next[i] == s[1..]
    && o.terminals[i] == [Done(env, s[1..])]
    && o.infoMean[i] == InfoRow(mean, Flag(Done(env, s[1..])))
    && o.infoStd[i] == InfoRow(std, 0.0)
  }

  /** Splitting the selected sample rows and assembling the info rows. */
  function BatchOutputs(env: string, d: nat, samples: Matrix, meanRows: Matrix, stdRows: Matrix): (r: Result<Rows, StepError>)
    requires Width(samples, d + 1) && Width(meanRows, d + 1) && Width(stdRows, d + 1)
    requires |meanRows| == |samples| == |stdRows|
    ensures r.Err? <==> !KnownEnvironment(env) || d < 2
    ensures r.Ok? ==> && |r.value.next| == |r.value.rewards| == |r.value.terminals| == |samples|
                      && |r.value.infoMean| == |r.value.infoStd| == |samples|
    ensures r.Ok? ==> forall i :: 0 <= i < |samples| ==> LaidOut(env, r.value, i, samples[i], meanRows[i], stdRows[i])
  {
    var rows := |samples|;
    var next := seq(rows, i requires 0 <= i < rows => samples[i][1..]);
    match Terminations(env, next, d)
    case Err(e) => Err(e)
    case Ok(done) =>
      Ok(Rows(next,
              seq(rows, i requires 0 <= i < rows => samples[i][..1]),
              seq(rows, i requires 0 <= i < rows => [done[i]]),
              seq(rows, i requires 0 <= i < rows => InfoRow(meanRows[i], Flag(done[i]))),
              seq(rows, i requires 0 <= i < rows => InfoRow(stdRows[i], 0.0))))
  }

  /** The outputs as `step` returns them: unwrapped to row 0 when the caller
      passed a single observation. */
  function Unwrapped(o: Rows, d: nat, single: bool): (out: StepOut)
    requires single ==> |o.next| >= 1 && |o.rewards| >= 1 && |o.terminals| >= 1 && |o.infoMean| >= 1 && |o.infoStd| >= 1
    ensures && (out.nextObs.Vec? <==> single) && (out.rewards.Vec? <==> single) && (out.terminals.Vec? <==> single)
            && (out.infoMean.Vec? <==> single) && (out.infoStd.Vec? <==> single)
    ensures !single ==> && |out.nextObs.rows| == |o.next| && |out.rewards.rows| == |o.rewards|
                        && |out.terminals.rows| == |o.terminals|
                        && |out.infoMean.rows| == |o.infoMean| && |out.infoStd.rows| == |o.infoStd|
    ensures forall i :: 0 <= i < |o.next| && (single ==> i == 0) ==> RowOf(out.nextObs, i) == o.next[i]
    ensures forall i :: 0 <= i < |o.rewards| && (single ==> i == 0) ==> RowOf(out.rewards, i) == o.rewards[i]
    ensures forall i :: 0 <= i < |o.terminals| && (single ==> i == 0) ==> RowOf(out.terminals, i) == o.terminals[i]
    ensures forall i :: 0 <= i < |o.infoMean| && (single ==> i == 0) ==> RowOf(out.infoMean, i) == o.infoMean[i]
    ensures forall i :: 0 <= i < |o.infoStd| && (single ==> i == 0) ==> RowOf(out.infoStd, i) == o.infoStd[i]
  {
    StepOut(Unwrap(o.next, d, single), Unwrap(o.rewards, 1, single), Unwrap(o.terminals, 1, single),
            Unwrap(o.infoMean, d + 2, single), Unwrap(o.infoStd, d + 2, single))
  }

  /** Row `i` of every output comes from the elite member drawn for it,
      `model_idxes[i] = elites[draws[i]]`. */
  predicate FromDrawnElite(env: string, out: StepOut, i: nat, means: Cube, stds: Cube, noise: Cube,
                           elites: seq<nat>, draws: seq<nat>, deterministic: bool) {
    i < |draws| && draws[i] < |elites| && FromMember(env, out, i, means, stds, noise, elites[draws[i]], deterministic)
  }

  /** Row `i` of every output is laid out from member `e`'s sample, mean and std rows. */
  predicate FromMember(env: string, out: StepOut, i: nat, means: Cube, stds: Cube, noise: Cube, e: nat, deterministic: bool) {
    && e < |means| == |stds| == |noise| && i < |means[e]| == |stds[e]| == |noise[e]|
    && |stds[e][i]| == |means[e][i]| == |noise[e][i]|
    && (out.nextObs.Mat? ==> i < |out.nextObs.rows|) && (out.rewards.Mat? ==> i < |out.rewards.rows|)
    && (out.terminals.Mat? ==> i < |out.terminals.rows|)
    && (out.infoMean.Mat? ==> i < |out.infoMean.rows|) && (out.infoStd.Mat? ==> i < |out.infoStd.rows|)
    && LaidOut(env, Rows([RowOf(out.nextObs, i)], [RowOf(out.rewards, i)], [RowOf(out.terminals, i)],
                         [RowOf(out.infoMean, i)], [RowOf(out.infoStd, i)]),
               0, SampleRow(means, stds, noise, e, i, deterministic), means[e][i], stds[e][i])
  }

  /** Everything `step` computes after the in-place correction, from the
      corrected means. */
  function StepOutputs(env: string, b: Batched, means: Cube, stds: Cube, noise: Cube,
                       elites: seq<nat>, draws: seq<nat>, deterministic: bool): (r: Result<StepOut, StepError>)
    requires Fits(b, Prediction(means, stds), noise, elites, draws)
    requires b.single ==> |b.obs| == 1
    ensures r.Err? <==> (|elites| == 0 && |b.obs| > 0) || !KnownEnvironment(env) || b.obsDim < 2
    ensures r.Ok? ==> ShapedFor(r.value, |b.obs|, b.single)
    ensures r.Ok? ==> forall i :: 0 <= i < |b.obs| ==>
                        FromDrawnElite(env, r.value, i, means, stds, noise, elites, draws, deterministic)
  {
    if |elites| == 0 && |b.obs| > 0 then Err(EmptyEliteSet)
    else SelectedOutputs(env, b, means, stds, noise, elites, draws, deterministic)
  }

  /** `step` once there is an elite to draw for every row: sample, pick each
      row's member, split and lay out. */
  function SelectedOutputs(env: string, b: Batched, means: Cube, stds: Cube, noise: Cube,
                           elites: seq<nat>, draws: seq<nat>, deterministic: bool): (r: Result<StepOut, StepError>)
    requires Fits(b, Prediction(means, stds), noise, elites, draws)
    requires b.single ==> |b.obs| == 1
    requires |elites| > 0 || |b.obs| == 0
    ensures r.Err? <==> !KnownEnvironment(env) || b.obsDim < 2
    ensures r.Ok? ==> ShapedFor(r.value, |b.obs|, b.single)
    ensures r.Ok? ==> forall i :: 0 <= i < |b.obs| ==>
                        FromDrawnElite(env, r.value, i, means, stds, noise, elites, draws, deterministic)
  {
    var rows, d, members := |b.obs|, b.obsDim, |means|;
    var idx := EliteMembers(elites, draws);
    var samples := Gather(Samples(means, stds, noise, members, rows, d + 1, deterministic), idx, members);
    match BatchOutputs(env, d, samples, Gather(means, idx, members), Gather(stds, idx, members))
    case Err(e) => Err(e)
    case Ok(o) =>
      var out := Unwrapped(o, d, b.single);
      UnwrappedFromMembers(env, b, means, stds, noise, idx, deterministic, samples, o);
      MembersAreDrawnElites(env, out, rows, means, stds, noise, elites, draws, deterministic);
      Ok(out)
  }

  /** A row laid out from member `EliteMembers(elites, draws)[i]` comes from the elite drawn for it. */
  lemma MembersAreDrawnElites(env: string, out: StepOut, rows: nat, means: Cube, stds: Cube, noise: Cube,
                              elites: seq<nat>, draws: seq<nat>, deterministic: bool)
    requires |draws| == rows && forall i :: 0 <= i < |draws| ==> draws[i] < |elites|
    requires forall i :: 0 <= i < rows ==>
               FromMember(env, out, i, means, stds, noise, EliteMembers(elites, draws)[i], deterministic)
    ensures forall i :: 0 <= i < rows ==> FromDrawnElite(env, out, i, means, stds, noise, elites, draws, deterministic)
  {
    var idx := EliteMembers(elites, draws);
    forall i | 0 <= i < rows
      ensures FromDrawnElite(env, out, i, means, stds, noise, elites, draws, deterministic)
    {
      assert idx[i] == elites[draws[i]];
      assert FromMember(env, out, i, means, stds, noise, idx[i], deterministic);
    }
  }

  /** Each row of the unwrapped outputs is laid out from the member drawn for it. */
  lemma UnwrappedFromMembers(env: string, b: Batched, means: Cube, stds: Cube, noise: Cube,
                            idx: seq<nat>, deterministic: bool, samples: Matrix, o: Rows)
    requires IsCube(means, |means|, |b.obs|, b.obsDim + 1) && IsCube(stds, |means|, |b.obs|, b.obsDim + 1)
    requires IsCube(noise, |means|, |b.obs|, b.obsDim + 1)
    requires b.single ==> |b.obs| == 1
    requires |idx| == |b.obs| && forall i :: 0 <= i < |idx| ==> idx[i] < |means|
    requires samples == Gather(Samples(means, stds, noise, |means|, |b.obs|, b.obsDim + 1, deterministic), idx, |means|)
    requires Width(samples, b.obsDim + 1)
    requires BatchOutputs(env, b.obsDim, samples, Gather(means, idx, |means|), Gather(stds, idx, |means|)) == Ok(o)
    ensures b.single ==> |o.next| >= 1 && |o.rewards| >= 1 && |o.terminals| >= 1 && |o.infoMean| >= 1 && |o.infoStd| >= 1
    ensures forall i :: 0 <= i < |b.obs| ==>
              FromMember(env, Unwrapped(o, b.obsDim, b.single), i, means, stds, noise, idx[i], deterministic)
  {
    var out := Unwrapped(o, b.obsDim, b.single);
    forall i | 0 <= i < |b.obs|
      ensures FromMember(env, out, i, means, stds, noise, idx[i], deterministic)
    {
      var e := idx[i];
      GatherSamples(means, stds, noise, |means|, |b.obs|, b.obsDim + 1, idx, deterministic, i);
      assert LaidOut(env, o, i, samples[i], means[e][i], stds[e][i]);
      UnwrapKeepsRow(env, o, b.obsDim, b.single, i, samples[i], means[e][i], stds[e][i]);
      assert FromMember(env, out, i, means, stds, noise, e, deterministic);
    }
  }

  lemma UnwrapKeepsRow(env: string, o: Rows, d: nat, single: bool, i: nat, s: Row, mean: Row, std: Row)
    requires LaidOut(env, o, i, s, mean, std)
    requires single ==> i == 0
    ensures var out := Unwrapped(o, d, single);
            && (out.nextObs.Mat? ==> i < |out.nextObs.rows|) && (out.rewards.Mat? ==> i < |out.rewards.rows|)
            && (out.terminals.Mat? ==> i < |out.terminals.rows|)
            && (out.infoMean.Mat? ==> i < |out.infoMean.rows|) && (out.infoStd.Mat? ==> i < |out.infoStd.rows|)
            && LaidOut(env, Rows([RowOf(out.nextObs, i)], [RowOf(out.rewards, i)], [RowOf(out.terminals, i)],
                                 [RowOf(out.infoMean, i)], [RowOf(out.infoStd, i)]), 0, s, mean, std)
  {
  }

  /** `FakeWorld.step`: promote shapes, query the ensemble on `obs ++ act`,
      add the observation to the predicted deltas in place, sample, select
      elite rows, and lay out the outputs. */
  method Step(env: string, obs: Tensor<real>, act: Tensor<real>, predict: Matrix -> Prediction,
              noise: Cube, elites: seq<nat>, draws: seq<nat>, deterministic: bool)
    returns (r: Result<StepOut, StepError>)
    requires WellFormed(obs) && WellFormed(act)
    requires var p := Promote(obs, act);
             p.Ok? ==> Fits(p.value, predict(ModelInputs(p.value.obs, p.value.act)), noise, elites, draws)
    ensures Promote(obs, act).Err? ==> r == Err(ShapeMismatch)
    ensures var p := Promote(obs, act);
            p.Ok? ==>
              var b := p.value;
              var pred := predict(ModelInputs(b.obs, b.act));
              var corrected := Corrected(pred.means, b.obs, |pred.means|, |b.obs|, b.obsDim);
              r == StepOutputs(env, b, corrected, pred.stds, noise, elites, draws, deterministic)
  {
    var p := Promote(obs, act);
    if p.Err? {
      return Err(p.error);
    }
    var b := p.value;
    var pred := predict(ModelInputs(b.obs, b.act));
    var members, rows := |pred.means|, |b.obs|;
    var means := ToArray(pred.means, members, rows, b.obsDim + 1);
    AddObservation(means, b.obs);
    var corrected := Snapshot(means);
    r := StepOutputs(env, b, corrected, pred.stds, noise, elites, draws, deterministic);
  }

  /** In deterministic mode the info means agree with the returned sample:
      an info mean row is the reward, the terminal flag and the next
      observation. */
  lemma DeterministicInfoIsSample(env: string, out: StepOut, i: nat, means: Cube, stds: Cube, noise: Cube, e: nat)
    requires FromMember(env, out, i, means, stds, noise, e, true)
    ensures var flag := if RowOf(out.terminals, i)[0] then 1.0 else 0.0;
            RowOf(out.infoMean, i) == RowOf(out.rewards, i) + [flag] + RowOf(out.nextObs, i)
  {
    var m := means[e][i];
    assert m[..1] == [m[0]];
  }

  /** A single observation yields single outputs; a batch of one does not. */
  lemma SingleIffVector(obs: Tensor<real>, act: Tensor<real>)
    requires WellFormed(obs) && WellFormed(act) && Promote(obs, act).Ok?
    ensures Promote(obs, act).value.single ==> |Promote(obs, act).value.obs| == 1
    ensures obs.Mat? ==> !Promote(obs, act).value.single
  {
  }

  // ---------------------------------------------------------------------
  // Training data

  /** What `train_fake_world` hands to the ensemble's `train`. */
  datatype TrainRequest = TrainRequest(inputs: Matrix, labels: Matrix, batchSize: nat, holdoutRatio: real)

  /** Inputs `state ++ action` and labels `[reward] ++ (next_state - state)`,
      trained with batch 256 and holdout ratio 0.2. */
  function TrainingData(state: Matrix, action: Matrix, reward: seq<real>, next: Matrix): (t: TrainRequest)
    requires |action| == |reward| == |next| == |state|
    requires forall i :: 0 <= i < |state| ==> |next[i]| == |state[i]|
    ensures t.batchSize == 256 && t.holdoutRatio == 0.2
    ensures t.inputs == ModelInputs(state, action)
    ensures |t.labels| == |state|
    ensures forall i :: 0 <= i < |state| ==> |t.labels[i]| == |state[i]| + 1 && t.labels[i][0] == reward[i]
    ensures forall i :: 0 <= i < |state| ==> CorrectRow(t.labels[i], state[i]) == [reward[i]] + next[i]
  {
    var labels := seq(|state|, i requires 0 <= i < |state| => Label(reward[i], state[i], next[i]));
    assert forall i :: 0 <= i < |state| ==> CorrectRow(labels[i], state[i]) == [reward[i]] + next[i] by {
      forall i | 0 <= i < |state|
        ensures CorrectRow(labels[i], state[i]) == [reward[i]] + next[i]
      {
        CorrectLabel(reward[i], state[i], next[i]);
      }
    }
    TrainRequest(ModelInputs(state, action), labels, 256, 0.2)
  }
}
