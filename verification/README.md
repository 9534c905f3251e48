# learning-rates: the control logic of `train.py`

`train.py` compares TensorFlow optimizers on MNIST. It trains a small CNN
through an `Estimator`, stops early once validation accuracy reaches a target,
and plots the results of three sweeps:

- `plt_time_to_train`: time to target against learning rate, over the `LRRange(6)` probes.
- `plt_time_vs_model_size`: time to target against model scale, over `i/oversample` for `i` in `[oversample, 10*oversample)`.
- `plt_train_trace`: accuracy over time, for the train and eval phases.

This project models the control logic around the training engine and proves
what it promises:

- the probe generator `LRRange`;
- the optimizer tables `optimizers` and `ideal_lr`;
- the schedule dispatch `lr_schedule`, including the arithmetic of its `triangle` branch;
- the part of the `Model` class that builds hook lists and the optimizer;
- `run`'s table lookup;
- the three sweep drivers, with their nested loops, per-point `try/except` and per-optimizer flush.

Modules:

- `Wrappers` (`wrappers.dfy`): `Option` and `Result`.
- `Rates` (`rates.dfy`): learning rates, kept as exponents `PowerOfTen(num, den)` = 10^(num/den). Also `LRRange`.
- `Schedules` (`schedules.dfy`): the optimizer table, `ideal_lr`, `lr_schedule` and the triangle arithmetic.
- `Training` (`training.dfy`):
  - the `Model` class, with its fields and `cnn_model_fn` reduced to hooks, optimizer and returned spec;
  - hook assembly;
  - `run` up to the engine call.
- `Plotting` (`plotting.dfy`): the `Ploty` sink, as a class whose `results` sequence `add_result` appends to. A point's y is either a number read from the relayed record or the whole record (`Ordinate`).
- `Sweeps` (`sweeps.dfy`): the three drivers as methods. Each one's postcondition ties the plot and the log to a specification function: `RateSweep`, `SizeSweep` or `TraceSweep`.
- `SweepFacts` (`sweep_facts.dfy`): what those specification functions promise, stated against reference definitions that do not mention the relay:
  - `Evals`: the evaluation reports of a run;
  - `Survivors`: the evaluation reports at or above 0.96;
  - `Shortfalls`: how many evaluation reports fall below 0.96;
  - `RatePoints`, `SizePoints`, `TracePoints`: the points those reports become.

How the training engine is modelled:

- The engine is an oracle `run: RunConfig -> RunOutcome`. For each configuration it gives:
  - the reports the `MetricHook` relays pass on, in order, each with its phase, accuracy, time taken and elapsed time;
  - whether the run then raised.
- A report reaches the callback installed for its phase, and nothing when no callback is installed. This is because `cnn_model_fn` adds a relay hook only for a callback that is not None.
- The callbacks are closures in the source. Here they are values of the `Callback` datatype, carrying the variables they capture.
- Whether a `copy_to_drive` flush raises is a parameter, `flushRaises`.

## Model

| member | source | states |
|---|---|---|
| Rates.LRRange | train.py:232-240 | the two counted loops yield exactly `RangeRates(mul)`: 10^(-i/mul) for i = 6mul..1, then 10^(i/mul) for i = 1..2mul; nothing at all when mul <= 0 |
| Rates.RangeLength | train.py:234-240 | there are 8·mul probes: the first 6·mul have negative exponents and the last 2·mul positive ones |
| Rates.RangeIncreasing | train.py:234-240 | the exponents, and so the probes, strictly increase; no rate is probed twice |
| Rates.RangeEndpoints | train.py:234-240 | the first probe is 10^-6 and the last is 10^2; exponent 0 (rate 1.0) never occurs |
| Rates.RangeCovers | train.py:234-240 | every non-zero exponent from -6·mul to 2·mul is probed |
| Schedules.OptimizerNamed | train.py:277-284 | the lookup returns the optimizer whose key is the name; it finds nothing exactly when no key matches |
| Schedules.NamedName | train.py:277-284 | every optimizer's key leads back to that optimizer |
| Schedules.OrderCoversRegistry | train.py:277-284 | the iteration order of `optimizers.keys()` lists every optimizer exactly once |
| Schedules.IdealRate | train.py:286-293 | every curated learning rate is positive and at most 4 |
| Schedules.LrSchedule | train.py:243-271 | as get_optimizer calls it, with a tensor global step. An optimizer is returned iff the mode is fixed, exp_decay or cosine_restart. "fixed" passes the start rate unchanged. The decaying modes pass the schedule built from the start rate and the keyword arguments (staircase on). Momentum gets momentum 0.5 and the others none. "triangle" raises TypeError, because `float()` of the tensor `2**(cycle-1)` fails. Any other mode falls off the end and gives None |
| Schedules.TriangleCycle | train.py:269 | the cycle is at least 1, and it is the floor of 1 + step/(2·cycle_length) |
| Schedules.TrianglePosition | train.py:270 | the position x inside the triangle lies in [0, 1] |
| Schedules.TriangleRate | train.py:265-271 | when min_lr <= start, the triangle rate lies in [start, 2·start - min_lr] |
| Training.AssembleHooks | train.py:141-150 | the training hooks are the early-stop hook, then one relay iff a train callback is set. The evaluation hooks are one relay iff an eval callback is set, and empty otherwise |
| Training.Model.constructor | train.py:43-51 | the fields hold the arguments, and start_time holds the clock reading |
| Training.Model.ModelFn | train.py:134-179 | PREDICT returns its spec. In TRAIN: an exception from optimizer_fn propagates and leaves `optimizer` as it was. Otherwise `optimizer` gets optimizer_fn's result, and the call fails with AttributeError exactly when that is None. On success it returns that optimizer with the training hooks above, led by EarlyStopping(start_time, val_target, check_every 1, max_mins). EVAL returns the evaluation hooks above. Only TRAIN changes `optimizer` |
| Training.RunSetup | train.py:302-317 | KeyError exactly when the optimizer name is not a table key. Otherwise the model gets target 0.97 and the given rate, schedule, scale, budget, callbacks and throttle |
| Training.KeyLookupSucceeds | train.py:304-307 | for a table key, the lookup succeeds and builds the sweep's configuration |
| SweepFacts.RateCallSetup | train.py:331 | the rate sweep's `run` call succeeds and builds target 0.97, the probe rate, the flags' scale and budget, only an eval callback, and throttle 5 |
| SweepFacts.SizeCallSetup | train.py:361 | the size sweep's `run` call succeeds and builds the curated rate, the grid scale, the flags' budget, only an eval callback, and throttle 5 |
| SweepFacts.TraceCallSetup | train.py:401 | the trace sweep's `run` call succeeds and builds schedule "fixed", the curated rate, the flags' scale and budget, both callbacks, and throttle 5 |
| SweepFacts.ListenerIsInstalledHook | train.py:141-150 | a report of a phase reaches exactly the callback that a MetricHook in that phase's hook list relays to |
| Training.NewModel | train.py:309-315 | `run`'s Model carries the configuration, the default output path and the current time; no optimizer yet |
| Training.UnreturnedScheduleFailsTraining | train.py:163-166 | with a schedule lr_schedule has no optimizer for, optimizer_fn raises TypeError ("triangle") or gives None (any unknown mode), so TRAIN fails |
| Plotting.Ploty.constructor | train.py:321 | a new plot has no results |
| Plotting.Ploty.AddResult | train.py:329 | `add_result` appends exactly one (x, y, label, data) entry and keeps the rest |
| Sweeps.Relay | train.py:144-150 | a run's reports add at most one point or log line each, and the only log lines they add are failure lines |
| Sweeps.PointEffects | train.py:325-335 | a grid point's log ends in a traceback exactly when its run raised; it adds at most one point per report |
| Sweeps.Fire | train.py:354-359 | a callback invocation appends the point `Invoke` gives to the plot, or logs "Failed to train." |
| Sweeps.RelayReports | train.py:144-150 | relaying a run's reports appends exactly `Relay`'s points, in report order |
| Sweeps.RunPoint | train.py:325-335 | one try/except point appends what its run relayed, then logs a traceback if the run raised; nothing propagates |
| Sweeps.RunRateProbes | train.py:324-335 | the probe loop appends the points of each probe in turn |
| Sweeps.RunRateBlock | train.py:323-335 | the schedule loop appends each schedule's probe row in turn, re-running LRRange each time |
| Sweeps.TimeToTrain | train.py:320-341 | plot, log and end are those of `RateSweep` over the optimizers in key order, the swept schedules and LRRange(6). After each optimizer a flush may raise; then a NameError escapes and the sweep stops |
| Sweeps.RateSweepEscapeSticks | train.py:337-341 | once a flush has raised, later optimizers add nothing |
| Sweeps.RunSizeRow | train.py:350-365 | the scale loop over i in [oversample, 10·oversample) appends the points of scale i/oversample in turn |
| Sweeps.RunSizeBlock | train.py:349-365 | the schedule loop appends each schedule's scale row in turn |
| Sweeps.TimeVsModelSize | train.py:343-370 | plot and log are those of `SizeSweep` over the optimizers, schedules and scale grid, whatever the flushes do |
| Sweeps.TrainTrace | train.py:374-406 | plot and log are those of `TraceSweep` over the optimizers with schedule "fixed"; there is no flush |
| SweepFacts.ScaleGridShape | train.py:350-351 | the scale grid has 9·oversample points, starts at 1, stays below 10 and strictly increases |
| SweepFacts.RateRelay | train.py:328-331 | under the rate callback, every evaluation report, and only those, becomes one point at the probe rate plotting its time taken, in order; nothing is logged |
| SweepFacts.SizeRelayEntries | train.py:354-361 | under the size callback, exactly the evaluation reports with accuracy >= 0.96 become points at the scale, plotting their time taken, in order |
| SweepFacts.SizeRelayLog | train.py:354-361 | under the size callback, each evaluation report below 0.96 logs one "Failed to train." and nothing else is logged |
| SweepFacts.TraceRelay | train.py:395-401 | under the trace callbacks, every report of either phase becomes one point at its elapsed time, in order. The point's y is the whole relayed argument, labelled "opt-phase". Nothing is logged |
| SweepFacts.PointEntries | train.py:325-335 | a point keeps what its run relayed whether or not the run raised afterwards |
| SweepFacts.SizePointResults | train.py:354-365 | every point a size run plots is at its scale and comes from an evaluation at or above 0.96 |
| SweepFacts.SizeSweepResults | train.py:348-365 | every point of the whole size sweep is at a grid scale and comes from an evaluation at or above 0.96, plotting its time taken |
| SweepFacts.RatePointResults | train.py:325-335 | a rate point plots only evaluation reports at its probe, and logs only its own traceback |
| SweepFacts.RateSweepResults | train.py:322-335 | every point of the rate sweep is at an LRRange probe and comes from an evaluation report, plotting its time taken; the log holds only tracebacks |
| SweepFacts.RateSweepEnd | train.py:337-341 | the rate sweep ends with an escaping NameError iff some flush raised |
| SweepFacts.TraceSweepComplete | train.py:386-406 | the trace sweep plots exactly as many points as its runs relayed reports, and its log holds only tracebacks |

## Left out

- The CNN layer stack, loss, metrics and the random seed in `cnn_model_fn` are TensorFlow graph construction. The `round(k*scale)` filter counts are float rounding.
- The dataset load, `Estimator`, `train_and_evaluate` and `evaluate` are the engine. They are the oracle `run`, and their reports are its output.
- The scratch directory named with `uuid` and its `shutil.rmtree` cleanup are filesystem I/O. The cleanup is not in a `finally`, so a run that raises skips it.
- `tf.train.exponential_decay` and `tf.train.cosine_decay_restarts`: the model records the arguments they receive, not the values they compute.
- `EarlyStopping` and `MetricHook` come from `hooks.py`, which is not part of this model. They are opaque hook values. That a report reaches the callback of its phase is the oracle's contract.
- `Ploty` itself (titles, axes, drawing) is not part of this model. Only the `results` sequence that `add_result` appends to is kept. `copy_to_drive` is reduced to whether it raises.
- `time.time()` is left out: the constructor's clock reading is a parameter, and the trace sweep's elapsed time is a field of each report. `print` and `tf.logging` output is left out, apart from the tracebacks and "Failed to train." lines, which form the log.
- The argparse command line, and which driver the script runs, are left out.
- The float values of `pow(0.1, i/mul)` and `pow(10, i/mul)` are not computed. Probes are kept as exponents.
- Schedules.TriangleRate: computed over unbounded reals, with the step a natural number. This is what the "triangle" branch would compute were the step a number; as the program calls it, the branch raises TypeError first. TensorFlow's float tensors and their rounding are not modelled.
- SweepFacts.TraceRelay: `MetricHook` is not part of this model. The model assumes it hands each callback one record, with accuracy and time taken. That is the reading the rate and size callbacks need, since they index `r["time_taken"]` and `r["accuracy"]`. The trace callback then plots that whole record as y (`Whole`). If the hook passed a bare accuracy instead, the trace would plot numbers, and every rate and size callback would raise TypeError at its first evaluation. One hook cannot serve both readings.
- Sweeps.Relay: the oracle `run` is not tied to the outcome of the model function. A configuration whose optimizer_fn fails in TRAIN may still relay reports in the model. The engine's order of training and evaluation is not part of this model.
- Sweeps.TimeToTrain: the NameError assumes that the star import from `hooks.py` binds no name `e`.

Two behaviours of the code worth knowing:

- A run that raises after a callback has fired keeps the points that callback appended, because the callback appends before the exception. So "only completed runs contribute" holds only for runs that raise before relaying anything (`SweepFacts.PointEntries`).
- The triangle rate rises above the start rate, to at most 2·start - min_lr. It does not stay between min_lr and start.
