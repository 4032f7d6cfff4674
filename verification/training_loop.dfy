/** The skeleton of the MBPO training loop (`MBPO.learn`): epochs `n = 1..N`,
    each made of environment-step iterations `nt = 0, E, 2E, ...` below `NT`.
    After the initial-exploration epochs every iteration takes `G_sac`
    actor-critic gradient steps, and every `model_train_freq` steps it
    retrains the world model, recomputes the rollout horizon `K`, reallocates
    the model buffer and generates fresh rollouts. At the end of each of the
    last 50 epochs the agent is checkpointed when its evaluation score beats
    the best score so far.

    The environment, the networks and the evaluator are not modelled: the
    loop records WHAT it does in each iteration (a log), and the evaluation
    score of each epoch is an input. */
module TrainingLoop {
  import opened Numerics
  import Horizon

  /** The stage of training an epoch belongs to. */
  datatype Phase = InitialExploration | ExplorationAndLearning | Learning

  /** The configuration entries the loop reads. */
  datatype LoopConfig = LoopConfig(
    epochs: int,             // N
    epochSteps: int,         // NT
    initEpochs: int,         // Ni
    explEpochs: int,         // Nx
    envSteps: int,           // E
    gradSteps: int,          // G_sac
    modelTrainFreq: int,     // model_train_freq
    schedule: Option<Horizon.Schedule>,
    shadowHand: bool)        // environment type 'mujoco-pddm-shadowhand'

  /** One pass of the inner `while nt < NT` loop: `interactions` environment
      steps; `horizon == Some(K)` when the world model was retrained and
      rollouts of length `K` were generated; `gradSteps` actor-critic updates. */
  datatype Iteration = Iteration(nt: int, interactions: int, horizon: Option<int>, gradSteps: int)

  /** One epoch: its phase, its iterations, its evaluation score, whether the
      agent was saved, and the best score after it. */
  datatype Epoch = Epoch(n: int, phase: Phase, iterations: seq<Iteration>, score: real, saved: bool, best: real)

  /** The phase of epoch `n` (the banner printed at the start of the epoch). */
  function PhaseOf(n: int, initEpochs: int, explEpochs: int): (p: Phase)
    ensures p == Learning <==> n > explEpochs
    ensures p == ExplorationAndLearning <==> initEpochs < n <= explEpochs
    ensures p == InitialExploration <==> n <= initEpochs && n <= explEpochs
  {
    if n > explEpochs then Learning
    else if n > initEpochs then ExplorationAndLearning
    else InitialExploration
  }

  /** With `Ni <= Nx`, an epoch learns (takes gradient steps) exactly when it
      is past initial exploration, and phases never go back as epochs advance. */
  lemma PhasesInOrder(initEpochs: int, explEpochs: int, n: int, m: int)
    requires initEpochs <= explEpochs && n <= m
    ensures PhaseOf(n, initEpochs, explEpochs) != InitialExploration <==> n > initEpochs
    ensures PhaseOf(n, initEpochs, explEpochs) == Learning ==> PhaseOf(m, initEpochs, explEpochs) == Learning
    ensures PhaseOf(n, initEpochs, explEpochs) == ExplorationAndLearning ==>
              PhaseOf(m, initEpochs, explEpochs) != InitialExploration
  {
  }

  /** The score the checkpoint rule starts from: `lastES = -2` for the
      shadow-hand environments, `lastEZ = 0` otherwise. */
  function InitialBest(cfg: LoopConfig): real {
    if cfg.shadowHand then -2.0 else 0.0
  }

  /** Some epoch passes initial exploration and runs an iteration, so the
      loop reaches `nt % model_train_freq` and `set_rollout_length`. */
  predicate Retrains(cfg: LoopConfig) {
    cfg.epochSteps > 0 && cfg.epochs >= 1 && cfg.epochs > cfg.initEpochs
  }

  /** The loop finishes: with `E <= 0` the inner loop never ends, a zero
      `model_train_freq` raises `ZeroDivisionError`, and so does a schedule
      whose ramp has no length once it is reached. */
  predicate RunsToCompletion(cfg: LoopConfig) {
    && (cfg.envSteps >= 1 || cfg.epochSteps <= 0 || cfg.epochs < 1)
    && (Retrains(cfg) ==> cfg.modelTrainFreq != 0 && Horizon.RolloutLength(cfg.schedule, cfg.epochs).Ok?)
  }

  /** The largest of `init` and the scores of the epochs in the checkpoint
      window `m > N - 50` among the first `n` epochs (`scores[m - 1]` is the
      score of epoch `m`). */
  function BestScore(init: real, scores: seq<real>, epochs: int, n: nat): (b: real)
    requires n <= |scores|
    ensures init <= b
    ensures forall m :: 0 <= m < n && m >= epochs - 50 ==> scores[m] <= b
    ensures b == init || exists m :: 0 <= m < n && m >= epochs - 50 && b == scores[m]
  {
    if n == 0 then init
    else
      var b := BestScore(init, scores, epochs, n - 1);
      if n > epochs - 50 && scores[n - 1] > b then scores[n - 1] else b
  }

  /** The best score before epoch `i + 1`. */
  function BestBefore(init: real, log: seq<Epoch>, i: nat): real
    requires i <= |log|
  {
    if i == 0 then init else log[i - 1].best
  }

  /** The iterations of epoch `n`: one at each of `nt = 0, E, 2E, ...` while
      `nt < NT`, each with `E` interactions; after initial exploration the
      world model is retrained (and rollouts of the horizon
      `set_rollout_length(n)` generated) when `nt % model_train_freq == 0`,
      and `G_sac` gradient steps (none when `G_sac <= 0`) are taken. */
  predicate IterationsOf(cfg: LoopConfig, n: int, iterations: seq<Iteration>) {
    && |iterations| * cfg.envSteps >= cfg.epochSteps
    && forall j :: 0 <= j < |iterations| ==> IterationAt(cfg, n, j, iterations[j])
  }

  predicate IterationAt(cfg: LoopConfig, n: int, j: int, it: Iteration) {
    && it.nt == j * cfg.envSteps < cfg.epochSteps
    && it.interactions == cfg.envSteps
    && (it.horizon.Some? <==> n > cfg.initEpochs && cfg.modelTrainFreq != 0 && it.nt % cfg.modelTrainFreq == 0)
    && (it.horizon.Some? ==> Horizon.RolloutLength(cfg.schedule, n) == Ok(it.horizon.value))
    && it.gradSteps == (if n > cfg.initEpochs && cfg.gradSteps > 0 then cfg.gradSteps else 0)
  }

  /** Epoch `i + 1` of the log: its number and phase, its iterations, its
      score, and the checkpoint rule: the agent is saved when the epoch is in
      the window `n > N - 50` and its score strictly beats the best so far,
      and the best score is then the maximum over the window so far. */
  predicate EpochAt(cfg: LoopConfig, scores: seq<real>, log: seq<Epoch>, i: nat)
    requires i < |log| && i < |scores|
  {
    && log[i].n == i + 1
    && log[i].phase == PhaseOf(i + 1, cfg.initEpochs, cfg.explEpochs)
    && IterationsOf(cfg, i + 1, log[i].iterations)
    && log[i].score == scores[i]
    && (log[i].saved <==> i + 1 > cfg.epochs - 50 && scores[i] > BestBefore(InitialBest(cfg), log, i))
    && log[i].best == BestScore(InitialBest(cfg), scores, cfg.epochs, i + 1)
  }

  /** The training loop. `scores[n - 1]` is the mean evaluation score
      (`np.mean(ES)` or `np.mean(EZ)`, by environment type) of epoch `n`. */
  method Learn(cfg: LoopConfig, scores: seq<real>) returns (log: seq<Epoch>)
    requires RunsToCompletion(cfg)
    requires |scores| >= cfg.epochs
    ensures |log| == if cfg.epochs < 0 then 0 else cfg.epochs
    ensures |log| <= |scores|
    ensures forall i :: 0 <= i < |log| ==> EpochAt(cfg, scores, log, i)
  {
    var best := InitialBest(cfg);
    log := [];
    var n := 1;
    while n <= cfg.epochs
      invariant 1 <= n && |log| == n - 1
      invariant n - 1 <= if cfg.epochs < 0 then 0 else cfg.epochs
      invariant best == BestScore(InitialBest(cfg), scores, cfg.epochs, n - 1)
      invariant forall i :: 0 <= i < |log| ==> EpochAt(cfg, scores, log, i)
    {
      var iterations := EpochIterations(cfg, n);
      var score := scores[n - 1];
      var saved := false;
      if n > cfg.epochs - 50 && score > best {
        saved := true;
        best := score;
      }
      var log' := log + [Epoch(n, PhaseOf(n, cfg.initEpochs, cfg.explEpochs), iterations, score, saved, best)];
      if n > 1 {
        assert EpochAt(cfg, scores, log, n - 2);
      }
      assert BestBefore(InitialBest(cfg), log', n - 1) == BestScore(InitialBest(cfg), scores, cfg.epochs, n - 1);
      EarlierEpochsKept(cfg, scores, log, log'[|log|]);
      log := log';
      n := n + 1;
    }
  }

  /** Appending an epoch leaves what the log says about earlier epochs unchanged. */
  lemma EarlierEpochsKept(cfg: LoopConfig, scores: seq<real>, log: seq<Epoch>, e: Epoch)
    requires |log| < |scores|
    requires forall i :: 0 <= i < |log| ==> EpochAt(cfg, scores, log, i)
    ensures forall i :: 0 <= i < |log| ==> EpochAt(cfg, scores, log + [e], i)
  {
    forall i | 0 <= i < |log|
      ensures EpochAt(cfg, scores, log + [e], i)
    {
      assert (log + [e])[i] == log[i];
      assert EpochAt(cfg, scores, log, i);
      assert BestBefore(InitialBest(cfg), log + [e], i) == BestBefore(InitialBest(cfg), log, i);
    }
  }

  /** The inner loop of epoch `n`. */
  method EpochIterations(cfg: LoopConfig, n: int) returns (iterations: seq<Iteration>)
    requires RunsToCompletion(cfg) && 1 <= n <= cfg.epochs
    ensures IterationsOf(cfg, n, iterations)
  {
    iterations := [];
    var nt := 0;
    while nt < cfg.epochSteps
      invariant 0 <= nt && nt == |iterations| * cfg.envSteps
      invariant forall j :: 0 <= j < |iterations| ==> IterationAt(cfg, n, j, iterations[j])
      decreases cfg.epochSteps - nt
    {
      var horizon: Option<int> := None;
      var gradSteps := 0;
      if n > cfg.initEpochs {
        if nt % cfg.modelTrainFreq == 0 {
          // train the world model, then K := set_rollout_length(n), then
          // reallocate the model buffer and roll out with horizon K
          var k := Horizon.RolloutLength(cfg.schedule, n);
          horizon := Some(k.value);
        }
        gradSteps := if cfg.gradSteps > 0 then cfg.gradSteps else 0;
      }
      iterations := iterations + [Iteration(nt, cfg.envSteps, horizon, gradSteps)];
      nt := nt + cfg.envSteps;
    }
  }

  /** The best score never decreases from one epoch to the next, and an
      epoch saves the agent exactly when it raises the best score. */
  lemma SavedRaisesBest(init: real, scores: seq<real>, epochs: int, n: nat)
    requires 1 <= n <= |scores|
    ensures BestScore(init, scores, epochs, n - 1) <= BestScore(init, scores, epochs, n)
    ensures BestScore(init, scores, epochs, n - 1) < BestScore(init, scores, epochs, n) <==>
              n > epochs - 50 && scores[n - 1] > BestScore(init, scores, epochs, n - 1)
  {
  }

  /** Epochs before the checkpoint window never save: the best score is the
      initial one until epoch `N - 50` has passed. */
  lemma NoSaveBeforeWindow(init: real, scores: seq<real>, epochs: int, n: nat)
    requires n <= |scores| && n <= epochs - 50
    ensures BestScore(init, scores, epochs, n) == init
  {
  }

  /** In every epoch past initial exploration, the first iteration retrains
      the world model and rolls out, after that iteration's `E` environment
      interactions: at `nt = 0` it passes the `nt % model_train_freq == 0` test. */
  lemma LearningEpochStartsWithRetrain(cfg: LoopConfig, n: int, iterations: seq<Iteration>)
    requires IterationsOf(cfg, n, iterations)
    requires cfg.epochSteps > 0 && n > cfg.initEpochs && cfg.modelTrainFreq != 0
    ensures |iterations| >= 1 && iterations[0].horizon.Some?
  {
    assert |iterations| != 0;
    assert IterationAt(cfg, n, 0, iterations[0]);
  }

  /** With the Hopper configuration (`E = 1`, `NT = 1000`, `G_sac = 20`),
      an epoch runs exactly 1000 iterations, and after initial exploration
      each takes 20 gradient steps. */
  lemma ExampleHopperEpoch(cfg: LoopConfig, n: int, iterations: seq<Iteration>)
    requires cfg.envSteps == 1 && cfg.epochSteps == 1000 && cfg.gradSteps == 20
    requires IterationsOf(cfg, n, iterations)
    ensures |iterations| == 1000
    ensures n > cfg.initEpochs ==> forall j :: 0 <= j < 1000 ==> iterations[j].gradSteps == 20
  {
    assert |iterations| >= 1000;
    assert IterationAt(cfg, n, |iterations| - 1, iterations[|iterations| - 1]);
    assert forall j :: 0 <= j < |iterations| ==> IterationAt(cfg, n, j, iterations[j]);
  }
}
