# Model-based RL core of AMMI-RL, in Dafny

This project models the model-based reinforcement-learning core of
AMMI-RL: the MBPO and MBPPO trainers and the learned-world-model pieces
they rely on. It covers:

- **Rollout-horizon schedule** (`set_rollout_length`). Maps the epoch to the
  length `K` of synthetic rollouts: a constant `min_length`, then a linear
  ramp capped at `max_length`, truncated by Python's `int()`.
- **Branched world-model rollout** (`rollout_world_model`). Starts from
  `min(rollout_batch_size, buffer size)` sampled states. At each of up to
  `K` steps it stores every active branch, then keeps only the branches that
  did not terminate, and stops when none is left. MBPO compacts with a mask
  widened across the observation columns; MBPPO filters rows. The model
  proves that the two are the same.
- **Hybrid training batch** (`ppo_batch`, `sac_batch`). Takes
  `int(real_ratio * batch_size)` rows from the environment buffer and the
  rest from the model buffer, concatenated key by key with the real rows
  first.
- **MBPO training loop skeleton** (`MBPO.learn`):
  - epoch phases;
  - the `nt = 0, E, 2E, ...` iterations;
  - periodic world-model retraining with a fresh horizon and rollout;
  - actor-critic gradient steps;
  - the best-score checkpoint rule over the last 50 epochs.
- **The world model as an environment** (`FakeWorld.step`):
  - shape promotion of a single observation;
  - the in-place addition of the observation to the predicted deltas;
  - deterministic or noisy sampling;
  - per-row elite selection;
  - the reward and next-observation split;
  - the per-environment termination rules;
  - the info layout;
  - the assembly of the ensemble's training data (`train_fake_world`).
- **The world model's dataset** (`rl/data/dataset.py`):
  - the buffer as a map-style and as an iterable dataset;
  - the data module that splits it at random into training and validation
    subsets and serves them in unshuffled batches.

Modelling conventions:

- Floating-point numbers are exact reals.
- Python's `int()` of a float is truncation toward zero (`Numerics.Trunc`).
- Every random draw is an input: buffer sample indices, elite choices,
  normal noise, the split permutation.
- The policy and the ensemble network are function arguments.
- Python exceptions become `Err`/`None` results.
- A loop that updates state is a Dafny `method`, proved against a
  specification function or a predicate. The rest is functions and lemmas.
- `RLDataModule` is a class whose `split` field is assigned by
  `UpdateDataset`.

## Model

| member | source | states |
|---|---|---|
| Numerics.Trunc | rl/algorithms/mbrl/mbppo.py:322 | `int(x)` lies within 1 of `x`, on the side of zero |
| Horizon.RampFraction | rl/algorithms/mbrl/mbppo.py:318-319 | the capped ramp position is at most 1, non-negative from `min_epoch` on, and exactly 1 from `max_epoch` on |
| Horizon.RolloutLength | rl/algorithms/mbrl/mbppo.py:309-323 | 1 without a schedule; `min_length` up to `min_epoch`; the truncated ramp after it; division by zero exactly when the ramp is reached with `min_epoch == max_epoch` |
| Horizon.AtOrAfterMaxEpoch | rl/algorithms/mbrl/mbpo.py:221-226 | from `max_epoch` on the horizon is `max_length` |
| Horizon.WithinBounds | rl/algorithms/mbrl/mbpo.py:212-226 | for an increasing schedule the horizon always lies in `[min_length, max_length]` |
| Horizon.Monotone | rl/algorithms/mbrl/mbppo.py:315-323 | for an increasing schedule the horizon never decreases as epochs advance |
| Horizon.ExampleSchedule | rl/configs/hopper_movoq.py:70 | the schedule `[20, 100, 1, 15]` gives horizons 1, 8 and 15 at epochs 10, 60 and 150 |
| Rollout.StartStates | rl/algorithms/mbrl/mbppo.py:329-332 | the rollout starts from `min(rollout_batch_size, buffer size)` buffer states, at the sampled indices |
| Rollout.Batch | rl/algorithms/mbrl/mbppo.py:352 | each stored row pairs an active state with the action, reward, next state and done flag produced for it |
| Rollout.Survivors | rl/algorithms/mbrl/mbppo.py:361 | the kept next states are never more than the batch |
| Rollout.SurvivorsShrink | rl/algorithms/mbrl/mbppo.py:355-361 | strictly fewer next states are kept exactly when some branch is done, all of them otherwise |
| Rollout.SurvivorsAppend | rl/algorithms/mbrl/mbppo.py:361 | the compaction distributes over concatenation, so it is an order-preserving filter |
| Rollout.RolloutWorldModel | rl/algorithms/mbrl/mbppo.py:326-361 | the loop with early `break` stores exactly the batches of the reference definition `Generated` |
| Rollout.GeneratedShape | rl/algorithms/mbrl/mbppo.py:337-352 | at most `K` batches are stored, and the first holds exactly the starting states |
| Rollout.GeneratedChain | rl/algorithms/mbrl/mbppo.py:355-361 | each stored batch starts from the surviving next states of the previous one; the active count never increases |
| Rollout.StopsAfterAllDone | rl/algorithms/mbrl/mbpo.py:257-260 | no batch is stored after one in which every branch is done |
| Rollout.EarlyStopMeansAllDone | rl/algorithms/mbrl/mbppo.py:357-359 | fewer than `K` stored batches means the last one had every branch done |
| Rollout.TotalBound | rl/algorithms/mbrl/mbppo.py:337-361 | the rollout stores at most `start_batch * K` rows |
| Rollout.EarlyDoneYieldsLess | rl/algorithms/mbrl/mbppo.py:355-361 | a branch ending before the last step makes the total strictly less than `start_batch * K` |
| Rollout.ExampleAllDoneAtStep3 | rl/algorithms/mbrl/mbppo.py:337-359 | ten branches that all end at step 3 of a 5-step rollout store three batches, 30 rows |
| Rollout.WidenedMaskIsRowFilter | rl/algorithms/mbrl/mbpo.py:257-263 | widening the keep mask across the columns and reshaping keeps exactly the non-done rows in order, the same as MBPPO's row filter |
| Rollout.CompactByWidenedMask | rl/algorithms/mbrl/mbpo.py:261-263 | MBPO's compaction of the next states by the widened keep mask; WidenedMaskIsRowFilter proves it equal to MBPPO's row filter `Survivors` |
| HybridBatch.SplitCounts | rl/algorithms/mbrl/mbppo.py:368-369 | the real and synthetic counts add up to the batch size; the real count is the floor of `ratio * batch_size`, within `[0, batch_size]` for a ratio in `[0, 1]` |
| HybridBatch.Cat | rl/algorithms/mbrl/mbpo.py:275 | `torch.cat` along rows of two tensors of one width: the first tensor's rows, then the second's, with the width kept and well-shaped inputs giving a well-shaped result |
| HybridBatch.MixedBatch | rl/algorithms/mbrl/mbpo.py:267-278 | the real sample alone when the synthetic count is not positive; otherwise it fails with a KeyError exactly when a real key is missing from the model sample, and succeeds exactly when no key is missing and `torch.cat` finds equal widths under every key; the keys and widths are the real sample's, and concatenating well-shaped fields gives well-shaped fields |
| HybridBatch.RealRowsFirst | rl/algorithms/mbrl/mbppo.py:372-378 | every field has `batch_size` rows: the real rows first, then the synthetic ones |
| HybridBatch.ModelBufferUntouched | rl/algorithms/mbrl/mbpo.py:272-277 | with no synthetic rows the result does not depend on the model buffer |
| HybridBatch.ExampleSplit | rl/algorithms/mbrl/mbppo.py:368 | ratio 0.05 with batch 256 takes 12 real and 244 synthetic rows |
| HybridBatch.ExampleWidthMismatch | rl/algorithms/mbrl/mbpo.py:275 | a one-column real sample with a two-column synthetic one fails with the width mismatch, as `torch.cat` does |
| TrainingLoop.PhaseOf | rl/algorithms/mbrl/mbpo.py:99-104 | Learning iff `n > Nx`; Exploration + Learning iff `Ni < n <= Nx`; Initial Exploration otherwise |
| TrainingLoop.PhasesInOrder | rl/algorithms/mbrl/mbpo.py:99-116 | with `Ni <= Nx` an epoch is past initial exploration iff `n > Ni`, and phases never go back |
| TrainingLoop.BestScore | rl/algorithms/mbrl/mbpo.py:179-195 | the best score is at least the initial one and every windowed score, and equals one of them |
| TrainingLoop.EpochIterations | rl/algorithms/mbrl/mbpo.py:106-152 | iterations at `nt = 0, E, 2E, ...` exactly while `nt < NT`; `E` interactions each; retraining with `K = set_rollout_length(n)` iff `n > Ni` and `nt % freq == 0`; `max(G_sac, 0)` gradient steps after initial exploration |
| TrainingLoop.Learn | rl/algorithms/mbrl/mbpo.py:67-207 | epochs `1..N` in order with their phase and iterations; the agent is saved iff the epoch is in the window `n > N - 50` and strictly beats the best so far; the best is the window maximum, starting from -2 (shadow hand) or 0 |
| TrainingLoop.SavedRaisesBest | rl/algorithms/mbrl/mbpo.py:179-195 | the best score never decreases, and rises exactly at a saving epoch |
| TrainingLoop.NoSaveBeforeWindow | rl/algorithms/mbrl/mbpo.py:179 | before epoch `N - 50` the best stays at its initial value |
| TrainingLoop.LearningEpochStartsWithRetrain | rl/algorithms/mbrl/mbpo.py:115-134 | the first iteration of every epoch past initial exploration retrains the model and rolls out, after that iteration's E environment interactions |
| TrainingLoop.ExampleHopperEpoch | rl/configs/mbpo_hopper.py:18-26 | with `E = 1`, `NT = 1000`, `G_sac = 20` an epoch has exactly 1000 iterations of 20 gradient steps each |
| FakeWorld.Promote | rl/world_models/fake_world.py:100-110 | a 1-D observation becomes a batch of one and the action is promoted with it (a 1-D action to one row, a one-row matrix kept as is); the concatenation fails exactly on mismatched ranks or row counts |
| FakeWorld.SingleIffVector | rl/world_models/fake_world.py:100-108 | single-observation calls are batches of one, and batched calls are never unwrapped |
| FakeWorld.ModelInputs | rl/world_models/fake_world.py:110 | each ensemble input row is the observation followed by the action |
| FakeWorld.CorrectRow | rl/world_models/fake_world.py:114 | the reward column is kept, and subtracting the observation from every other column gives back the predicted delta |
| FakeWorld.Corrected | rl/world_models/fake_world.py:114 | every row of every ensemble member is corrected against that row's observation |
| FakeWorld.AddObservation | rl/world_models/fake_world.py:114 | the in-place `+=` on the means array leaves it holding the corrected cube |
| FakeWorld.Label | rl/world_models/fake_world.py:163-170 | the label is the reward, then deltas that added to the state give the next state |
| FakeWorld.CorrectLabel | rl/world_models/fake_world.py:160-174 | correcting a training label against its state reconstructs `[reward] ++ next_state` |
| FakeWorld.LabelCorrected | rl/world_models/fake_world.py:114 | the label of a corrected row against its observation is the predicted row |
| FakeWorld.Samples | rl/world_models/fake_world.py:117-122 | deterministic samples are the means; otherwise each entry differs from the mean by `noise * std` |
| FakeWorld.EliteMembers | rl/world_models/fake_world.py:128 | every selected ensemble member is an elite |
| FakeWorld.Gather | rl/world_models/fake_world.py:134-136 | row `i` comes from member `idx[i]`, row `i` |
| FakeWorld.GatherSamples | rl/world_models/fake_world.py:134 | gathering the sampled cube gives the chosen member's sample row |
| FakeWorld.Terminations | rl/world_models/fake_world.py:39-80 | one done flag per row, by the environment's rule; fails exactly for an unknown environment or fewer than two columns |
| FakeWorld.HopperBoundOneSided | rl/world_models/fake_world.py:48-51 | the Hopper rule bounds entries from above only: an entry of -1000 does not end the episode, one of 1000 does |
| FakeWorld.WalkerTasksShiftTheBand | rl/world_models/fake_world.py:55-80 | `walker_*` tasks apply the Walker2d band to the last two entries, shifted by 0.26 except for `walker_7`/`walker_5` |
| FakeWorld.InfoRow | rl/world_models/fake_world.py:144-146 | the info row inserts the flag at column 1, and dropping it gives back the row |
| FakeWorld.BatchOutputs | rl/world_models/fake_world.py:140-146 | rewards are column 0 of the sample and next observations the rest; info rows are `[reward mean, terminal, next means]` and `[reward std, 0, next stds]`; fails exactly when the termination rule does |
| FakeWorld.StepOutputs | rl/world_models/fake_world.py:117-153 | fails exactly on an empty elite set, an unknown environment or too few columns; all five outputs are vectors iff single, and otherwise each has one row per batch row; row i comes from the elite member `elites[draws[i]]` drawn for it |
| FakeWorld.SelectedOutputs | rl/world_models/fake_world.py:117-153 | once every row has an elite to draw from: fails exactly for an unknown environment or too few columns; all five outputs are vectors iff single, and otherwise each has one row per batch row; row i comes from the elite member `elites[draws[i]]` drawn for it |
| FakeWorld.UnwrappedFromMembers | rl/world_models/fake_world.py:128-153 | row i of the unwrapped outputs is laid out from model member `idx[i]`: its next state, reward, done flag and info mean and std |
| FakeWorld.Unwrapped | rl/world_models/fake_world.py:148-153 | every output is a vector exactly when the input was single; otherwise every row count is kept and row i is unchanged; when single, the vector is row 0 |
| FakeWorld.UnwrapKeepsRow | rl/world_models/fake_world.py:148-153 | unwrapping keeps the layout of every row (the only row, when the call was single) |
| FakeWorld.Step | rl/world_models/fake_world.py:98-157 | a shape error on bad ranks; otherwise the outputs of the corrected prediction for `obs ++ act` |
| FakeWorld.DeterministicInfoIsSample | rl/world_models/fake_world.py:117-146 | in deterministic mode an info mean row is the reward, the terminal flag and the next observation |
| FakeWorld.TrainingData | rl/world_models/fake_world.py:160-174 | inputs `state ++ action`; labels that reconstruct `[reward] ++ next_state` under correction; batch 256, holdout 0.2 |
| Dataset.PyIndex | rl/data/dataset.py:77-81 | Python indexing: in range iff `-n <= idx < n`, negative indices counting from the end |
| Dataset.GetItem | rl/data/dataset.py:50-83 | all five fields are read from one slot; IndexError exactly outside the arrays |
| Dataset.IndicesBelowLen | rl/data/dataset.py:47-48 | every index below `__len__` is readable, and its negative counterpart reads the same transition |
| Dataset.Len | rl/data/dataset.py:47-48 | the dataset's length is the buffer's fill level, not its capacity (IndicesBelowLen shows every index below it is readable) |
| Dataset.Iterate | rl/data/dataset.py:25-35 | one aligned tuple per terminal flag in order; IndexError exactly when another array is shorter |
| Dataset.IterateAgreesWithGetItem | rl/data/dataset.py:25-35 | aligned iteration yields exactly the map-style items at `0 .. len - 1` |
| Dataset.NewIterDatasetAsWritten | rl/data/dataset.py:17-20 | a constructed dataset wraps the given buffer |
| Dataset.IterDatasetNeverConstructed | rl/data/dataset.py:17-18 | as written, constructing the iterable dataset always fails |
| Dataset.NewIterDataset | rl/data/dataset.py:17-20 | a constructed dataset wraps the given buffer |
| Dataset.IterDatasetConstructed | rl/data/dataset.py:17-23 | the corrected constructor always succeeds, and its length is the buffer's fill level |
| Dataset.SplitSizes | rl/data/dataset.py:119-122 | train plus val is the dataset length; val is the floor of `ratio * len`, within `[0, len]` |
| Dataset.ExampleSplitSizes | rl/data/dataset.py:121-122 | ratio 0.2 over 1000 transitions keeps 800 for training and 200 for validation |
| Dataset.RandomSplit | rl/data/dataset.py:123 | the two subsets concatenate to the permutation, with the sizes above |
| Dataset.SplitPartitions | rl/data/dataset.py:115-123 | every dataset index lands in exactly one of the subsets |
| Dataset.SplitWithinRange | rl/data/dataset.py:115-123 | both subsets hold only dataset indices |
| Dataset.DataModule.constructor | rl/data/dataset.py:88-95 | keeps the configuration; no subsets yet |
| Dataset.DataModule.UpdateDataset | rl/data/dataset.py:115-123 | assigns the random split of the current buffer |
| Dataset.DataModule.TrainLoader | rl/data/dataset.py:126-135 | the training subset, batch `model_batch_size`, unshuffled; fails before a split or with a non-positive batch size |
| Dataset.DataModule.ValLoader | rl/data/dataset.py:138-147 | the validation subset, the same way |
| Dataset.Batches | rl/data/dataset.py:129-134 | batches are non-empty, at most `batch_size`, and all but the last exactly `batch_size` |
| Dataset.BatchesCoverInOrder | rl/data/dataset.py:129-134 | an unshuffled epoch visits the subset exactly once, in order |
| Dataset.BatchItems | rl/data/dataset.py:77-83 | a batch's items are the dataset's items at its indices |

## Left out

- Floating point: values are exact reals. NaN and infinity do not exist, so
  the Hopper rule's `np.isfinite` conjunct always holds and is not written.
- Randomness is passed in as inputs: buffer sampling, `np.random.choice`,
  `T.randn`, `torch.randperm` inside `random_split`. Each is assumed to
  return what its library promises.
- `T.sqrt` of the predicted variances: the standard deviations are given by
  the ensemble directly.
- The log-probability and ensemble-disagreement entries of `info`
  (`_get_logprob`) are exp/log float arithmetic.
- `_reward_fn` reads `next_obs` before assigning it.
- `FakeWorldOld` wraps an unseen model.
- rl/world_models/model.py is not part of this model: the ensemble's
  `predict` is a function argument and `train` is not modelled.
- The body of `MBPPO.learn` is not modelled.
- Object construction and configuration wiring are not modelled. This
  includes MBPO passing five arguments to the three-argument
  `FakeWorld.__init__`.
- MBPO's rollout calls `fake_world.step_np`, which `FakeWorld` does not
  define. The rollout's step function stands for whichever step is meant.
- Several steps are not part of this model and are recorded only as events
  in the log:
  - the interaction with the real environment (`internact`);
  - the actor-critic update (`trainAC`);
  - evaluation;
  - `reallocate_model_buffer`;
  - the world-model training call. MBPO calls `self.fake_world.train(...)`
    at rl/algorithms/mbrl/mbpo.py:122, but `FakeWorld` defines no `train`.
    Only `FakeWorldOld` does (rl/world_models/fake_world.py:269), and it
    returns three values where MBPO unpacks two.
- The model buffer's `store_batch` is the sequence of batches the rollout
  returns.
- The buffer's `return_all()` is not part of this model: its arrays are the
  input of `Dataset.Iterate`.
- Printing, timers, metric lists, wandb logging and the file written by
  `T.save` are left out. The save is the `saved` flag.
- TrainingLoop.Learn: it requires `RunsToCompletion`, so it excludes three
  configurations instead of modelling them as aborts:
  - `E <= 0`, where the inner loop never ends;
  - `model_train_freq == 0` once an epoch is past initial exploration,
    which raises ZeroDivisionError;
  - a schedule with `min_epoch == max_epoch` reached after `min_epoch`,
    which also raises ZeroDivisionError.
- TrainingLoop.Learn: Python's `%` floors and Dafny's is Euclidean. They
  agree on whether the remainder is zero, which is the only use here.
- Dataset.DataModule.UpdateDataset: it requires `0 <= model_val_ratio <= 1`.
  Ratios outside that range give negative subset lengths to
  `random_split`, whose behaviour depends on the torch version.
- FakeWorld.Step: it requires the ensemble output and the noise to have
  shape members × rows × (1 + observation width). Other shapes make the
  in-place `+=` broadcast or fail. Tensors of rank above 2 are not modelled.
  It also requires every elite index to be below the number of ensemble
  members. An out-of-range elite makes the gather at
  rl/world_models/fake_world.py:128-134 raise IndexError, which is not
  modelled.
- Dataset.RandomSplit: it requires `0 <= ratio <= 1`, for the same reason as
  `UpdateDataset`. A ratio outside that range gives `random_split` a
  negative length.
- FakeWorld.TrainingData: it requires the state, action, reward and next
  state to have equal row counts, and the state and next state equal widths.
  torch raises otherwise.
- HybridBatch.MixedBatch: the KeyError for a missing key does not name the
  key. When one key is missing and another key's widths differ, Python
  raises whichever error the dict's key order reaches first. The model
  always reports the missing key.
- HybridBatch.MixedBatch: each field of a sample is a 2-D tensor with an
  explicit width. Fields of any other rank, and dtype or device
  mismatches in `torch.cat`, are not modelled.

## Findings

| source | as written | input that shows it | evidently intended | confidence | as-written member | corrected member |
|---|---|---|---|---|---|---|
| rl/data/dataset.py:18 | `RLDataset_iter.__init__` calls `super(RLDataset, self).__init__()`, and an `RLDataset_iter` is not an `RLDataset`, so Python raises TypeError | constructing `RLDataset_iter` over any buffer | `super(RLDataset_iter, self).__init__()` | high, not executed | Dataset.IterDatasetNeverConstructed | Dataset.IterDatasetConstructed |
