# ClassyVision bookkeeping core, modelled in Dafny

This project models three pieces of ClassyVision's sequential bookkeeping. Torch tensors, the
distributed runtime and the terminal widget are replaced by abstract values.

- **ProgressBarHook** (`progress_bar_hook.dfy`, module `Hooks`). This is the training-loop hook
  that drives a progress bar. Its three fields `progress_bar`, `bar_size` and `batches` are fields
  of the class `Hooks.ProgressBarHook`. A ghost list `reported` records every event sent to the
  widget: `Start(n)`, `Update(v)` and `Finish`. Whether the `progressbar` module could be imported
  and whether the process is the master are boolean parameters of each callback. Each callback is
  proved to follow a pure transition (`PhaseStartStep`, `UpdateStep`, `PhaseEndStep`). Any
  sequence of callbacks is a `Run`. The lemmas about runs state the hook's promises:
  - the clamped count;
  - the invariant that no reported value exceeds the size of the bar it is reported to;
  - inertness on non-master processes;
  - the missing-module error.
- **ClassyOptimizer** (`classy_optimizer.dfy`, module `Optim`). This is the optimizer wrapper's
  parameter-group logic:
  - validation of the model's `get_optimizer_params()` result;
  - the override param groups;
  - the epoch/step gate of the learning-rate schedule;
  - the in-place rewrite of `lr` and `weight_decay` across the wrapped optimizer's
    `param_groups`, a sequence of maps held by the class `Optim.TorchOptimizer`;
  - the `optimizer_config` round trip through `set_classy_state`.

  The scheduler is an arbitrary function `real -> real` together with its update interval.
- **SumArbitraryLoss** (`sum_arbitrary_loss.dfy`, module `Losses`). This loss applies a list of
  losses to one prediction and target. The model covers the config checks of `from_config`, its
  loop that builds one loss per config, the constructor's default weights, and the weighted
  accumulation of `forward`. Each sub-loss's value is the exact real an arbitrary evaluation
  function gives. `forward` is proved against `Total`: the first value, plus each later value
  times its weight.

`wrappers.dfy` holds the `Option` and `Result` datatypes. A `Result` models Python's raised
exceptions.

Where a docstring and the code differ, the model follows the code:
- The docstring of `on_phase_end` (classy_vision/hooks/progress_bar_hook.py:63) says it clears
  the bar. The code only calls `finish()` and never sets `progress_bar` to None. Updates after a
  phase end therefore still count batches and report to the finished bar
  (`UpdateAfterPhaseEndStillCounts`).
- A non-master phase start leaves a bar from an earlier master phase in place.

## Model

| member | source | states |
|---|---|---|
| `Hooks.ProgressBarHook.constructor` | classy_vision/hooks/progress_bar_hook.py:31-34 | a fresh hook has no bar, `bar_size` 0, `batches` 0 and has reported nothing; it satisfies the hook invariant |
| `Hooks.ProgressBarHook.OnPhaseStart` | classy_vision/hooks/progress_bar_hook.py:36-51 | raises the missing-module RuntimeError exactly when progressbar is unavailable, on every role, with no field changed; on master it sets `bar_size` to the phase's batch count, resets `batches` to 0, creates the bar and starts it; on non-master it changes nothing |
| `Hooks.ProgressBarHook.OnUpdate` | classy_vision/hooks/progress_bar_hook.py:53-59 | when master with a bar, `batches` grows by exactly one and `min(batches, bar_size)` is reported; otherwise nothing changes; the hook invariant is kept, so the value never exceeds the size of the bar last started |
| `Hooks.ProgressBarHook.OnPhaseEnd` | classy_vision/hooks/progress_bar_hook.py:61-66 | reports `finish` only when master with a bar; never resets `progress_bar`, `bar_size` or `batches` |
| `Hooks.ProgressBarHook.OnNoop` | classy_vision/hooks/progress_bar_hook.py:23-29 | on_rendezvous, on_start, on_sample, on_forward, on_loss, on_backward and on_end change no state |
| `Hooks.FreshInv` | classy_vision/hooks/progress_bar_hook.py:31-34 | the state left by `__init__` satisfies the hook invariant |
| `Hooks.StepPreservesInv` | classy_vision/hooks/progress_bar_hook.py:36-66 | every callback keeps the invariant: a present bar has size `bar_size` and is the one last started, and every reported value is at most the size of the bar it was reported to |
| `Hooks.RunPreservesInv` | classy_vision/hooks/progress_bar_hook.py:36-66 | over any sequence of callbacks, no reported value exceeds its bar's size |
| `Hooks.PhaseStartWithoutProgressbarRaises` | classy_vision/hooks/progress_bar_hook.py:42-45 | without the progressbar module, phase start raises on master and non-master alike, before any change |
| `Hooks.UpdatesReportClampedCount` | classy_vision/hooks/progress_bar_hook.py:57-59 | on master with a bar, k updates add exactly k to `batches` and report `min(b+1, n), ..., min(b+k, n)`, where b is the earlier count and n is `bar_size` |
| `Hooks.KthUpdateReportsMin` | classy_vision/hooks/progress_bar_hook.py:47-59 | after a master phase start of size N, k updates leave `batches == k`, report exactly `min(1, N), ..., min(k, N)` after the start event, and the last value reported is `min(k, N)` |
| `Hooks.ClampedScenario` | classy_vision/hooks/progress_bar_hook.py:36-66 | with size 3, four updates and a phase end, the widget receives start(3), 1, 2, 3, 3 and finish |
| `Hooks.NonMasterIsInert` | classy_vision/hooks/progress_bar_hook.py:36-66 | any sequence of non-master callbacks either leaves the hook exactly as it was, reporting nothing, or raises the missing-module error |
| `Hooks.NoBarNoEffect` | classy_vision/hooks/progress_bar_hook.py:53-66 | without a bar (before any master phase start), updates, phase ends and no-op hooks change nothing; in particular `batches` stays 0 |
| `Hooks.UpdateAfterPhaseEndStillCounts` | classy_vision/hooks/progress_bar_hook.py:57-66 | after a phase end, a master update still increments `batches` and reports to the same bar |
| `Optim.Trainable` | classy_vision/optim/classy_optimizer.py:49-51 | the trainable parameters are the model's parameters with `requires_grad`, each kept as often as it occurs (so their count is determined), and there are no more of them than parameters |
| `Optim.ValidateOptimizerParams` | classy_vision/optim/classy_optimizer.py:35-59 | fails with the key assertion exactly when the result is not a dict whose key set is {"regularized_params", "unregularized_params"}; succeeds exactly when the keys are right and the trainable count equals the regularized count plus the unregularized count, returning both partitions |
| `Optim.OverrideGroupsPartition` | classy_vision/optim/classy_optimizer.py:15-30 | one group per non-empty partition; together the groups list the unregularized then the regularized params; only group 0, the unregularized one, overrides `weight_decay`, with 0.0 |
| `Optim.OverrideGroupsCoverTrainable` | classy_vision/optim/classy_optimizer.py:15-57 | for a validated model the override groups hold exactly as many params as the model trains |
| `Optim.ClassyOptimizer.constructor` | classy_vision/optim/classy_optimizer.py:9-33 | `contains_unregularized_params` iff the unregularized list is non-empty; the override groups are the unregularized group first and the regularized group last; `lr == lr_scheduler(0)` |
| `Optim.Create` | classy_vision/optim/classy_optimizer.py:9-33 | construction fails exactly when validation fails, with validation's error; otherwise the wrapper holds the validated partitions, the given scheduler, `lr_scheduler(0)`, no optimizer yet and no other attributes |
| `Optim.ClassyOptimizer.Optimizer` | classy_vision/optim/classy_optimizer.py:61-70 | NotImplementedError when `_optimizer` was never set, ValueError when it is not a torch optimizer, otherwise that optimizer |
| `Optim.ClassyOptimizer.OptimizerConfig` | classy_vision/optim/classy_optimizer.py:72-80 | the config has the single key "lr", holding `lr` |
| `Optim.ClassyOptimizer.GetClassyState` | classy_vision/optim/classy_optimizer.py:82-89 | fails exactly when the `optimizer` property does; otherwise saves `{"lr": lr}` as the config |
| `Optim.ClassyOptimizer.SetClassyState` | classy_vision/optim/classy_optimizer.py:91-94 | after the `optimizer` property is read successfully, every config entry is assigned as an attribute: "lr" sets `lr`, other names become attributes, nothing else changes |
| `Optim.ConfigRoundTrip` | classy_vision/optim/classy_optimizer.py:72-94 | assigning the wrapper's own `optimizer_config` leaves all attributes unchanged |
| `Optim.ConfigOverridesLr` | classy_vision/optim/classy_optimizer.py:72-94 | a config `{"lr": x}` sets the learning rate to x and changes no other attribute |
| `Optim.ResumeFromOwnCheckpoint` | classy_vision/optim/classy_optimizer.py:82-94 | `set_classy_state(get_classy_state())` leaves `lr`, every other assigned attribute, the optimizer slot, the scheduler, the partitions and the override groups unchanged, and raises only what the `optimizer` property raises |
| `Optim.ExactlyOneTriggerActs` | classy_vision/optim/classy_optimizer.py:101-117 | for EPOCH or STEP exactly one of the two triggers updates the schedule, the epoch one iff EPOCH and the step one iff STEP; any other interval fails the assertion on both |
| `Optim.ScheduledGroups` | classy_vision/optim/classy_optimizer.py:119-130 | every group gets the new `lr`; group 0 gets `weight_decay` 0.0 when unregularized params exist; no other key of any group changes and no group is added or removed; IndexError when that group 0 does not exist |
| `Optim.ClassyOptimizer.UpdateSchedule` | classy_vision/optim/classy_optimizer.py:119-130 | sets `lr` to `scheduler(where)` first, even when the `optimizer` property then raises; rewrites the wrapped optimizer's param groups in place as `ScheduledGroups` states; changes no other field of the wrapper (param groups taken as values, see Left out) |
| `Optim.ClassyOptimizer.UpdateScheduleOnEpoch` | classy_vision/optim/classy_optimizer.py:101-108 | raises the assertion for an unknown interval; updates the schedule for EPOCH; changes nothing for STEP |
| `Optim.ClassyOptimizer.UpdateScheduleOnStep` | classy_vision/optim/classy_optimizer.py:110-117 | raises the assertion for an unknown interval; updates the schedule for STEP; changes nothing for EPOCH |
| `Losses.New` | classy_vision/losses/sum_arbitrary_loss.py:24-32 | keeps the losses; given weights are kept, and missing weights become a vector of ones, one per loss |
| `Losses.CheckConfig` | classy_vision/losses/sum_arbitrary_loss.py:45-50 | passes exactly when "losses" is a non-empty list and "weights" is a list of the same length; a None `weights` is rejected |
| `Losses.NoneWeightsRejected` | classy_vision/losses/sum_arbitrary_loss.py:48-50 | a config with None weights fails the weights assertion; one without a "weights" key raises KeyError |
| `Losses.BuildLosses` | classy_vision/losses/sum_arbitrary_loss.py:52-58 | builds exactly one loss per loss config, in order, and fails the registration assertion iff some built loss is not a ClassyLoss |
| `Losses.FromConfig` | classy_vision/losses/sum_arbitrary_loss.py:34-60 | fails with the config check's error, or with the registration error iff some loss is not a ClassyLoss; otherwise the loss holds one built loss per config in order, and the config's weights |
| `Losses.Forward` | classy_vision/losses/sum_arbitrary_loss.py:62-69 | evaluates the losses in list order on one prediction and target and returns `Total`: loss_0 plus weights[i] times loss_i for i ≥ 1; raises when the list is empty or a weight is missing |
| `Losses.TotalIgnoresFirstWeight` | classy_vision/losses/sum_arbitrary_loss.py:63-69 | `weights[0]` is never applied: changing it does not change the result |
| `Losses.DefaultWeightsGiveSum` | classy_vision/losses/sum_arbitrary_loss.py:24-69 | with the default ones weights, the result is the plain sum of the sub-losses |
| `Losses.SingleLossUnchanged` | classy_vision/losses/sum_arbitrary_loss.py:65-66 | with a single loss, its value is returned unchanged, whatever the weights |
| `Losses.NoLossesRaise` | classy_vision/losses/sum_arbitrary_loss.py:63-69 | with no losses `total_loss` is never assigned, so the call raises instead of returning 0 |
| `Losses.ConfiguredWeightsSuffice` | classy_vision/losses/sum_arbitrary_loss.py:48-69 | with one weight per loss and at least one loss, the total never fails |
| `Losses.CheckConfigIntended` | classy_vision/losses/sum_arbitrary_loss.py:48-50 | corrected check: None or absent weights pass and select the default; a list must match the losses' length |
| `Losses.IntendedAdmitsWrittenConfigs` | classy_vision/losses/sum_arbitrary_loss.py:48-50 | the corrected check accepts every config the written one accepts, with the same losses and weights |
| `Losses.FromConfigIntended` | classy_vision/losses/sum_arbitrary_loss.py:34-60 | corrected `from_config`: as `FromConfig`, except that None or absent weights give a vector of ones, one per loss |

## Left out

- `backward`, `step`, `zero_grad`, `state_dict` and `load_state_dict` (classy_vision/optim/classy_optimizer.py:87, 92, 96-99, 132-142) are calls into torch. The saved state keeps only `optimizer_config`. `set_classy_state` does not model `load_state_dict` replacing the wrapped optimizer's state.
- `Optim.ClassyOptimizer.UpdateSchedule`: the model writes the base class's `optimizer_config`, `{"lr": lr}`, into every group. A subclass that overrides `optimizer_config` would write more keys into every group; that is not modelled.
- `Optim.ClassyOptimizer.UpdateSchedule`: param groups are modelled as values, not as shared dict objects. A subclass that hands `param_groups_override` to the torch optimizer shares those dicts with it, so the in-place `update` calls also rewrite the dicts held by `param_groups_override`. The model does not capture this aliasing; it keeps `param_groups_override` as built by `__init__`, which nothing in this file reads again.
- Unwrapping of DistributedDataParallel (classy_vision/optim/classy_optimizer.py:36-39): the model is taken as already unwrapped.
- `Optim.ClassyOptimizer.SetClassyState`: config values are reals. A config entry whose name is another existing attribute (such as `contains_unregularized_params`) is recorded among the other attributes and does not overwrite that field.
- `Optim.ValidateOptimizerParams`: the dict values are taken to be parameter lists; a dict value without a length is not modelled.
- `is_master()` and the `progressbar` widget: the role is a boolean per call, and rendering is the ghost `reported` event list. The widget's own treatment of its size argument is not modelled.
- The loss registry (`build_loss`, `register_loss`) is an arbitrary function from a loss config to a built loss, or to `None` when the result is not a ClassyLoss. An exception raised inside `build_loss` is not modelled.
- Tensor semantics (broadcasting, dtypes, floating-point rounding): loss values and weights are exact reals, and `forward` evaluates each sub-loss with a pure function.
- `classy_vision/criterions/barron_loss.py` is not part of this model: it is floating-point numerics on tensors.
- Concurrency: the hook and the optimizer are driven by a single thread; nothing concurrent is modelled.

## Findings

| source | as written | input that shows it | evidently intended | confidence | as-written member | corrected member |
|---|---|---|---|---|---|---|
| classy_vision/losses/sum_arbitrary_loss.py:48-60 | `from_config` asserts that `config["weights"]` is a list, so a None value fails the assertion. A config without "weights" raises KeyError. The default in `config.get("weights", None)` can never be used. | `{"losses": [c], "weights": None}` or `{"losses": [c]}` | The assertion message reads "weights must be None or a list". With no weights, the loss should take the constructor's default of ones. | medium; not executed | `Losses.NoneWeightsRejected` | `Losses.FromConfigIntended` |
