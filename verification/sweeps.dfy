/**
 * The three sweep drivers: plt_time_to_train, plt_time_vs_model_size and
 * plt_train_trace.
 *
 * The engine behind `run` is an oracle `run: RunConfig -> RunOutcome`: for a
 * configuration it says which reports the relay hooks pass to the callbacks,
 * in order, and whether the run then raised. Each driver is a method with
 * nested loops over optimizer x schedule x value that appends to a fresh
 * Ploty; its postcondition ties the plot and the log to a specification
 * function, and the lemmas below state what the sweeps promise.
 */
module Sweeps {
  import opened Wrappers
  import opened Rates
  import opened Schedules
  import opened Training
  import opened Plotting

  /** The command-line flags the drivers read. */
  datatype Flags = Flags(maxMins: real, scale: int, oversample: int)

  /** Side-channel logging: a printed traceback, or the size sweep's "Failed to train." */
  datatype LogEvent =
    | Traceback(opt: Optimizer, sched: string)
    | FailedToTrain(opt: Optimizer, sched: string)

  /** What a stretch of a sweep adds to the plot and to the log. */
  datatype Effects = Effects(entries: seq<Entry>, log: seq<LogEvent>)
  {
    function Then(next: Effects): Effects
    {
      Effects(entries + next.entries, log + next.log)
    }
  }

  const NoEffects: Effects := Effects([], [])

  /** Appending a stretch's points one stretch at a time. */
  lemma ThenEntries(start: seq<Entry>, a: Effects, b: Effects)
    ensures start + a.Then(b).entries == (start + a.entries) + b.entries
  {
  }

  /** How a driver ends: normally, or with an exception escaping it. */
  datatype SweepEnd = Finished | Escaped(error: Failure)

  datatype SweepState = SweepState(effects: Effects, end: SweepEnd)

  /** The size sweep keeps a result only at this validation accuracy or better. */
  const AccuracyFloor: real := 0.96

  /** The rate sweep probes LRRange(6). */
  const ProbeMul: int := 6

  function SeriesLabel(opt: Optimizer, sched: string): string
  {
    Name(opt) + " " + sched
  }

  function PhaseName(p: Phase): string
  {
    match p
    case Train => "train"
    case Eval => "eval"
  }

  // ---------------------------------------------------------------------
  // Callbacks and the relay
  // ---------------------------------------------------------------------

  /** What one invocation of a callback adds: one plotted point, or one log line. */
  function Invoke(cb: Callback, r: Report): (e: Effects)
  {
    match cb
    case RateCb(lr, opt, sched) =>
      Effects([Entry(RateAt(lr), Value(r.timeTaken), SeriesLabel(opt, sched), Some(r))], [])
    case SizeCb(scale, opt, sched) =>
      if r.accuracy >= AccuracyFloor then
        Effects([Entry(At(scale), Value(r.timeTaken), SeriesLabel(opt, sched), Some(r))], [])
      else
        Effects([], [FailedToTrain(opt, sched)])
    case TraceCb(opt, mode) =>
      Effects([Entry(At(r.elapsed), Whole(r), Name(opt) + "-" + PhaseName(mode), None)], [])
  }

  /** The callback the relay hook of a phase forwards to; none when no hook is installed. */
  function Listener(cfg: RunConfig, phase: Phase): Option<Callback>
  {
    if phase == Train then cfg.trainCallback else cfg.evalCallback
  }

  function Deliver(cfg: RunConfig, r: Report): Effects
  {
    match Listener(cfg, r.phase)
    case None => NoEffects
    case Some(cb) => Invoke(cb, r)
  }

  /** The reports of one run, relayed in order; each adds at most one point or log line. */
  function Relay(cfg: RunConfig, reports: seq<Report>): (e: Effects)
    ensures |e.entries| + |e.log| <= |reports|
    ensures forall k :: 0 <= k < |e.log| ==> e.log[k].FailedToTrain?
    decreases |reports|
  {
    if reports == [] then NoEffects
    else Relay(cfg, reports[..|reports| - 1]).Then(Deliver(cfg, reports[|reports| - 1]))
  }

  /**
   * One grid point under try/except: whatever the run relayed stays in the
   * plot, and a run that raised adds a traceback to the log; nothing
   * propagates.
   */
  function PointEffects(cfg: RunConfig, run: RunConfig -> RunOutcome, opt: Optimizer, sched: string): (e: Effects)
    ensures |e.entries| <= |run(cfg).reports|
    ensures run(cfg).raised <==> |e.log| > 0 && e.log[|e.log| - 1] == Traceback(opt, sched)
  {
    var o := run(cfg);
    Relay(cfg, o.reports).Then(if o.raised then Effects([], [Traceback(opt, sched)]) else NoEffects)
  }

  /** A callback body, run against the plot. */
  method Fire(p: Ploty, cb: Callback, r: Report) returns (log: seq<LogEvent>)
    modifies p
    ensures p.results == old(p.results) + Invoke(cb, r).entries
    ensures log == Invoke(cb, r).log
  {
    log := [];
    match cb
    case RateCb(lr, opt, sched) =>
      p.AddResult(RateAt(lr), Value(r.timeTaken), SeriesLabel(opt, sched), Some(r));
    case SizeCb(scale, opt, sched) =>
      if r.accuracy >= AccuracyFloor {
        p.AddResult(At(scale), Value(r.timeTaken), SeriesLabel(opt, sched), Some(r));
      } else {
        log := [FailedToTrain(opt, sched)];
      }
    case TraceCb(opt, mode) =>
      p.AddResult(At(r.elapsed), Whole(r), Name(opt) + "-" + PhaseName(mode), None);
  }

  /** The engine's side of one run: each report goes to the relay hook of its phase, if any. */
  method RelayReports(p: Ploty, cfg: RunConfig, reports: seq<Report>) returns (log: seq<LogEvent>)
    modifies p
    ensures p.results == old(p.results) + Relay(cfg, reports).entries
    ensures log == Relay(cfg, reports).log
  {
    log := [];
    var k := 0;
    while k < |reports|
      invariant 0 <= k <= |reports|
      invariant p.results == old(p.results) + Relay(cfg, reports[..k]).entries
      invariant log == Relay(cfg, reports[..k]).log
    {
      RelayStep(old(p.results), cfg, reports, k);
      var listener := Listener(cfg, reports[k].phase);
      if listener.Some? {
        var more := Fire(p, listener.value, reports[k]);
        log := log + more;
      }
      k := k + 1;
    }
    assert reports[..k] == reports;
  }

  /** One `try: run(...) except Exception: traceback.print_exc()` block. */
  method RunPoint(p: Ploty, cfg: RunConfig, run: RunConfig -> RunOutcome,
                  opt: Optimizer, sched: string) returns (log: seq<LogEvent>)
    modifies p
    ensures p.results == old(p.results) + PointEffects(cfg, run, opt, sched).entries
    ensures log == PointEffects(cfg, run, opt, sched).log
  {
    var o := run(cfg);
    log := RelayReports(p, cfg, o.reports);
    ThenEntries(old(p.results), Relay(cfg, o.reports),
                if o.raised then Effects([], [Traceback(opt, sched)]) else NoEffects);
    if o.raised {
      log := log + [Traceback(opt, sched)];
    }
  }

  // ---------------------------------------------------------------------
  // plt_time_to_train: time to target against learning rate
  // ---------------------------------------------------------------------

  /** run(opt, sched, lr, scale=FLAGS.scale, max_mins=FLAGS.max_mins, eval_callback=cb). */
  function RateConfig(flags: Flags, opt: Optimizer, sched: string, lr: LearningRate): RunConfig
  {
    Configure(opt, sched, lr, flags.scale as real, flags.maxMins, None, Some(RateCb(lr, opt, sched)), 5)
  }

  /** One schedule of one optimizer, over the probes lrs. */
  function RateRow(flags: Flags, opt: Optimizer, sched: string, lrs: seq<LearningRate>,
                   run: RunConfig -> RunOutcome): Effects
    decreases |lrs|
  {
    if lrs == [] then NoEffects
    else
      RateRow(flags, opt, sched, lrs[..|lrs| - 1], run)
        .Then(PointEffects(RateConfig(flags, opt, sched, lrs[|lrs| - 1]), run, opt, sched))
  }

  /** All schedules of one optimizer, each over LRRange(6). */
  function RateBlock(flags: Flags, opt: Optimizer, scheds: seq<string>, lrs: seq<LearningRate>,
                     run: RunConfig -> RunOutcome): Effects
    decreases |scheds|
  {
    if scheds == [] then NoEffects
    else
      RateBlock(flags, opt, scheds[..|scheds| - 1], lrs, run)
        .Then(RateRow(flags, opt, scheds[|scheds| - 1], lrs, run))
  }

  /**
   * The optimizers in order, each followed by a flush. flushRaises(i) says
   * whether copy_to_drive raises at the i-th flush; its handler then reads
   * the unbound name `e`, so a NameError escapes and the sweep ends.
   */
  function RateSweep(flags: Flags, mul: int, opts: seq<Optimizer>, scheds: seq<string>,
                     run: RunConfig -> RunOutcome, flushRaises: nat -> bool): SweepState
    decreases |opts|
  {
    if opts == [] then SweepState(NoEffects, Finished)
    else
      var prev := RateSweep(flags, mul, opts[..|opts| - 1], scheds, run, flushRaises);
      if prev.end.Escaped? then prev
      else
        SweepState(prev.effects.Then(RateBlock(flags, opts[|opts| - 1], scheds, RangeRates(mul), run)),
                   if flushRaises(|opts| - 1) then Escaped(NameError) else Finished)
  }

  /** Once a flush has escaped, later optimizers change nothing. */
  lemma {:induction false} RateSweepEscapeSticks(flags: Flags, mul: int, opts: seq<Optimizer>, n: nat, scheds: seq<string>,
                                                 run: RunConfig -> RunOutcome, flushRaises: nat -> bool)
    requires n <= |opts|
    requires RateSweep(flags, mul, opts[..n], scheds, run, flushRaises).end.Escaped?
    ensures RateSweep(flags, mul, opts, scheds, run, flushRaises) == RateSweep(flags, mul, opts[..n], scheds, run, flushRaises)
    decreases |opts|
  {
    if n < |opts| {
      var init := opts[..|opts| - 1];
      assert init[..n] == opts[..n];
      RateSweepEscapeSticks(flags, mul, init, n, scheds, run, flushRaises);
    } else {
      assert opts[..n] == opts;
    }
  }

  /** The probe loop of one optimizer and schedule, over the probes lrs. */
  method RunRateProbes(p: Ploty, flags: Flags, opt: Optimizer, sched: string, lrs: seq<LearningRate>,
                       run: RunConfig -> RunOutcome)
    returns (log: seq<LogEvent>)
    modifies p
    ensures p.results == old(p.results) + RateRow(flags, opt, sched, lrs, run).entries
    ensures log == RateRow(flags, opt, sched, lrs, run).log
  {
    log := [];
    var k := 0;
    while k < |lrs|
      invariant 0 <= k <= |lrs|
      invariant p.results == old(p.results) + RateRow(flags, opt, sched, lrs[..k], run).entries
      invariant log == RateRow(flags, opt, sched, lrs[..k], run).log
    {
      RateRowStep(old(p.results), flags, opt, sched, lrs, k, run);
      var more := RunPoint(p, RateConfig(flags, opt, sched, lrs[k]), run, opt, sched);
      log := log + more;
      k := k + 1;
    }
    assert lrs[..k] == lrs;
  }

  /** The schedule loop of one optimizer; each schedule re-runs the LRRange generator. */
  method RunRateBlock(p: Ploty, flags: Flags, opt: Optimizer, scheds: seq<string>, mul: int,
                      ghost probes: seq<LearningRate>, run: RunConfig -> RunOutcome)
    returns (log: seq<LogEvent>)
    requires probes == RangeRates(mul)
    modifies p
    ensures p.results == old(p.results) + RateBlock(flags, opt, scheds, probes, run).entries
    ensures log == RateBlock(flags, opt, scheds, probes, run).log
  {
    log := [];
    var j := 0;
    while j < |scheds|
      invariant 0 <= j <= |scheds|
      invariant p.results == old(p.results) + RateBlock(flags, opt, scheds[..j], probes, run).entries
      invariant log == RateBlock(flags, opt, scheds[..j], probes, run).log
    {
      RateBlockStep(old(p.results), flags, opt, scheds, j, probes, run);
      var lrs := LRRange(mul);
      var more := RunRateProbes(p, flags, opt, scheds[j], lrs, run);
      log := log + more;
      j := j + 1;
    }
    assert scheds[..j] == scheds;
  }

  /** plt_time_to_train over the optimizer table and the swept schedules. */
  method TimeToTrain(flags: Flags, run: RunConfig -> RunOutcome, flushRaises: nat -> bool)
    returns (p: Ploty, log: seq<LogEvent>, end: SweepEnd)
    ensures fresh(p)
    ensures var s := RateSweep(flags, ProbeMul, OptimizerOrder, SweptSchedules, run, flushRaises);
      p.results == s.effects.entries && log == s.effects.log && end == s.end
  {
    p := new Ploty();
    log := [];
    var opts, scheds, mul := OptimizerOrder, SweptSchedules, ProbeMul;
    var i := 0;
    while i < |opts|
      invariant 0 <= i <= |opts| && mul == ProbeMul
      invariant var s := RateSweep(flags, mul, opts[..i], scheds, run, flushRaises);
        s.end == Finished && p.results == s.effects.entries && log == s.effects.log
    {
      assert opts[..i + 1][..i] == opts[..i];
      ThenEntries([], RateSweep(flags, mul, opts[..i], scheds, run, flushRaises).effects,
                  RateBlock(flags, opts[i], scheds, RangeRates(mul), run));
      var more := RunRateBlock(p, flags, opts[i], scheds, mul, RangeRates(mul), run);
      log := log + more;
      if flushRaises(i) {
        end := Escaped(NameError);
        RateSweepEscapeSticks(flags, mul, opts, i + 1, scheds, run, flushRaises);
        return;
      }
      i := i + 1;
    }
    assert opts[..i] == opts;
    end := Finished;
  }

  // ---------------------------------------------------------------------
  // plt_time_vs_model_size: time to target against model scale
  // ---------------------------------------------------------------------

  /** The scales i / oversample for i in range(oversample, 10 * oversample). */
  function ScaleGrid(oversample: int): (g: seq<real>)
    ensures |g| == if oversample > 0 then 9 * oversample else 0
    ensures forall k :: 0 <= k < |g| ==> g[k] == (k + oversample) as real / oversample as real
  {
    if oversample <= 0 then []
    else seq(9 * oversample, k => (k + oversample) as real / oversample as real)
  }

  /** run(opt, sched, ideal_lr[opt], scale=scale, max_mins=FLAGS.max_mins, eval_callback=cb). */
  function SizeConfig(flags: Flags, opt: Optimizer, sched: string, scale: real): RunConfig
  {
    Configure(opt, sched, Literal(IdealRate(opt)), scale, flags.maxMins, None, Some(SizeCb(scale, opt, sched)), 5)
  }

  /** One schedule of one optimizer, over the scales. */
  function SizeRow(flags: Flags, opt: Optimizer, sched: string, scales: seq<real>,
                   run: RunConfig -> RunOutcome): Effects
    decreases |scales|
  {
    if scales == [] then NoEffects
    else
      SizeRow(flags, opt, sched, scales[..|scales| - 1], run)
        .Then(PointEffects(SizeConfig(flags, opt, sched, scales[|scales| - 1]), run, opt, sched))
  }

  /** All schedules of one optimizer. */
  function SizeBlock(flags: Flags, opt: Optimizer, scheds: seq<string>, scales: seq<real>,
                     run: RunConfig -> RunOutcome): Effects
    decreases |scheds|
  {
    if scheds == [] then NoEffects
    else
      SizeBlock(flags, opt, scheds[..|scheds| - 1], scales, run)
        .Then(SizeRow(flags, opt, scheds[|scheds| - 1], scales, run))
  }

  /** The optimizers in order; the flush after each is inside a bare except, so it adds nothing. */
  function SizeSweep(flags: Flags, opts: seq<Optimizer>, scheds: seq<string>, scales: seq<real>,
                     run: RunConfig -> RunOutcome): Effects
    decreases |opts|
  {
    if opts == [] then NoEffects
    else
      SizeSweep(flags, opts[..|opts| - 1], scheds, scales, run)
        .Then(SizeBlock(flags, opts[|opts| - 1], scheds, scales, run))
  }

  /** The scale loop of one optimizer and schedule. */
  method RunSizeRow(p: Ploty, flags: Flags, opt: Optimizer, sched: string, run: RunConfig -> RunOutcome)
    returns (log: seq<LogEvent>)
    modifies p
    ensures p.results == old(p.results) + SizeRow(flags, opt, sched, ScaleGrid(flags.oversample), run).entries
    ensures log == SizeRow(flags, opt, sched, ScaleGrid(flags.oversample), run).log
  {
    var oversample := flags.oversample;
    ghost var grid := ScaleGrid(oversample);
    log := [];
    var i := 1 * oversample;
    while i < 10 * oversample
      invariant if oversample > 0 then oversample <= i <= 10 * oversample else i == oversample
      invariant p.results == old(p.results) + SizeRow(flags, opt, sched, grid[..i - oversample], run).entries
      invariant log == SizeRow(flags, opt, sched, grid[..i - oversample], run).log
    {
      var scale := i as real / oversample as real;
      ghost var k := i - oversample;
      assert grid[k] == scale;
      SizeRowStep(old(p.results), flags, opt, sched, grid, k, run);
      var more := RunPoint(p, SizeConfig(flags, opt, sched, scale), run, opt, sched);
      log := log + more;
      i := i + 1;
    }
    assert grid[..i - oversample] == grid;
  }

  /** The schedule loop of one optimizer. */
  method RunSizeBlock(p: Ploty, flags: Flags, opt: Optimizer, scheds: seq<string>,
                      ghost grid: seq<real>, run: RunConfig -> RunOutcome)
    returns (log: seq<LogEvent>)
    requires grid == ScaleGrid(flags.oversample)
    modifies p
    ensures p.results == old(p.results) + SizeBlock(flags, opt, scheds, grid, run).entries
    ensures log == SizeBlock(flags, opt, scheds, grid, run).log
  {
    log := [];
    var j := 0;
    while j < |scheds|
      invariant 0 <= j <= |scheds|
      invariant p.results == old(p.results) + SizeBlock(flags, opt, scheds[..j], grid, run).entries
      invariant log == SizeBlock(flags, opt, scheds[..j], grid, run).log
    {
      SizeBlockStep(old(p.results), flags, opt, scheds, j, grid, run);
      var more := RunSizeRow(p, flags, opt, scheds[j], run);
      log := log + more;
      j := j + 1;
    }
    assert scheds[..j] == scheds;
  }

  /**
   * plt_time_vs_model_size over the optimizer table and the swept schedules.
   * flushRaises says which copy_to_drive calls raise; the bare except
   * swallows them, so the result does not depend on it.
   */
  method TimeVsModelSize(flags: Flags, run: RunConfig -> RunOutcome, flushRaises: nat -> bool)
    returns (p: Ploty, log: seq<LogEvent>)
    ensures fresh(p)
    ensures p.results == SizeSweep(flags, OptimizerOrder, SweptSchedules, ScaleGrid(flags.oversample), run).entries
    ensures log == SizeSweep(flags, OptimizerOrder, SweptSchedules, ScaleGrid(flags.oversample), run).log
  {
    p := new Ploty();
    log := [];
    var opts, scheds := OptimizerOrder, SweptSchedules;
    ghost var grid := ScaleGrid(flags.oversample);
    var i := 0;
    while i < |opts|
      invariant 0 <= i <= |opts|
      invariant p.results == SizeSweep(flags, opts[..i], scheds, grid, run).entries
      invariant log == SizeSweep(flags, opts[..i], scheds, grid, run).log
    {
      SizeSweepStep([], flags, opts, i, scheds, grid, run);
      var more := RunSizeBlock(p, flags, opts[i], scheds, grid, run);
      log := log + more;
      if flushRaises(i) {
        // copy_to_drive raised: `except: pass`
      }
      i := i + 1;
    }
    assert opts[..i] == opts;
  }

  // ---------------------------------------------------------------------
  // plt_train_trace: accuracy over time, train and eval
  // ---------------------------------------------------------------------

  /** run(opt, "fixed", ideal_lr[opt], scale=FLAGS.scale, max_mins=FLAGS.max_mins, both callbacks, 5). */
  function TraceConfig(flags: Flags, opt: Optimizer): RunConfig
  {
    Configure(opt, "fixed", Literal(IdealRate(opt)), flags.scale as real, flags.maxMins,
              Some(TraceCb(opt, Train)), Some(TraceCb(opt, Eval)), 5)
  }

  function TraceSweep(flags: Flags, opts: seq<Optimizer>, run: RunConfig -> RunOutcome): Effects
    decreases |opts|
  {
    if opts == [] then NoEffects
    else
      var opt := opts[|opts| - 1];
      TraceSweep(flags, opts[..|opts| - 1], run).Then(PointEffects(TraceConfig(flags, opt), run, opt, "fixed"))
  }

  /** plt_train_trace over the optimizer table; it never flushes. */
  method TrainTrace(flags: Flags, run: RunConfig -> RunOutcome) returns (p: Ploty, log: seq<LogEvent>)
    ensures fresh(p)
    ensures p.results == TraceSweep(flags, OptimizerOrder, run).entries
    ensures log == TraceSweep(flags, OptimizerOrder, run).log
  {
    p := new Ploty();
    log := [];
    var opts := OptimizerOrder;
    var i := 0;
    while i < |opts|
      invariant 0 <= i <= |opts|
      invariant p.results == TraceSweep(flags, opts[..i], run).entries
      invariant log == TraceSweep(flags, opts[..i], run).log
    {
      TraceSweepStep([], flags, opts, i, run);
      var more := RunPoint(p, TraceConfig(flags, opts[i]), run, opts[i], "fixed");
      log := log + more;
      i := i + 1;
    }
    assert opts[..i] == opts;
  }

  // ---------------------------------------------------------------------
  // One loop iteration of each driver, as an unfolding of its specification
  // ---------------------------------------------------------------------
  // Each lemma says that after one more iteration, the plot (started from
  // `start`) and the log have grown by exactly the effects of that iteration.

  lemma RelayStep(start: seq<Entry>, cfg: RunConfig, reports: seq<Report>, k: nat)
    requires k < |reports|
    ensures var before := Relay(cfg, reports[..k]);
      var point := Deliver(cfg, reports[k]);
      var after := Relay(cfg, reports[..k + 1]);
      after == before.Then(point) &&
      start + after.entries == (start + before.entries) + point.entries && after.log == before.log + point.log
  {
    assert reports[..k + 1][..k] == reports[..k];
    ThenEntries(start, Relay(cfg, reports[..k]), Deliver(cfg, reports[k]));
  }

  lemma RateRowStep(start: seq<Entry>, flags: Flags, opt: Optimizer, sched: string, lrs: seq<LearningRate>, k: nat,
                    run: RunConfig -> RunOutcome)
    requires k < |lrs|
    ensures var before := RateRow(flags, opt, sched, lrs[..k], run);
      var point := PointEffects(RateConfig(flags, opt, sched, lrs[k]), run, opt, sched);
      var after := RateRow(flags, opt, sched, lrs[..k + 1], run);
      after == before.Then(point) &&
      start + after.entries == (start + before.entries) + point.entries && after.log == before.log + point.log
  {
    assert lrs[..k + 1][..k] == lrs[..k];
    ThenEntries(start, RateRow(flags, opt, sched, lrs[..k], run), PointEffects(RateConfig(flags, opt, sched, lrs[k]), run, opt, sched));
  }

  lemma RateBlockStep(start: seq<Entry>, flags: Flags, opt: Optimizer, scheds: seq<string>, j: nat, lrs: seq<LearningRate>,
                      run: RunConfig -> RunOutcome)
    requires j < |scheds|
    ensures var before := RateBlock(flags, opt, scheds[..j], lrs, run);
      var point := RateRow(flags, opt, scheds[j], lrs, run);
      var after := RateBlock(flags, opt, scheds[..j + 1], lrs, run);
      after == before.Then(point) &&
      start + after.entries == (start + before.entries) + point.entries && after.log == before.log + point.log
  {
    assert scheds[..j + 1][..j] == scheds[..j];
    ThenEntries(start, RateBlock(flags, opt, scheds[..j], lrs, run), RateRow(flags, opt, scheds[j], lrs, run));
  }

  lemma SizeRowStep(start: seq<Entry>, flags: Flags, opt: Optimizer, sched: string, scales: seq<real>, k: nat,
                    run: RunConfig -> RunOutcome)
    requires k < |scales|
    ensures var before := SizeRow(flags, opt, sched, scales[..k], run);
      var point := PointEffects(SizeConfig(flags, opt, sched, scales[k]), run, opt, sched);
      var after := SizeRow(flags, opt, sched, scales[..k + 1], run);
      after == before.Then(point) &&
      start + after.entries == (start + before.entries) + point.entries && after.log == before.log + point.log
  {
    assert scales[..k + 1][..k] == scales[..k];
    ThenEntries(start, SizeRow(flags, opt, sched, scales[..k], run), PointEffects(SizeConfig(flags, opt, sched, scales[k]), run, opt, sched));
  }

  lemma SizeBlockStep(start: seq<Entry>, flags: Flags, opt: Optimizer, scheds: seq<string>, j: nat, scales: seq<real>,
                      run: RunConfig -> RunOutcome)
    requires j < |scheds|
    ensures var before := SizeBlock(flags, opt, scheds[..j], scales, run);
      var point := SizeRow(flags, opt, scheds[j], scales, run);
      var after := SizeBlock(flags, opt, scheds[..j + 1], scales, run);
      after == before.Then(point) &&
      start + after.entries == (start + before.entries) + point.entries && after.log == before.log + point.log
  {
    assert scheds[..j + 1][..j] == scheds[..j];
    ThenEntries(start, SizeBlock(flags, opt, scheds[..j], scales, run), SizeRow(flags, opt, scheds[j], scales, run));
  }

  lemma SizeSweepStep(start: seq<Entry>, flags: Flags, opts: seq<Optimizer>, i: nat, scheds: seq<string>, scales: seq<real>,
                      run: RunConfig -> RunOutcome)
    requires i < |opts|
    ensures var before := SizeSweep(flags, opts[..i], scheds, scales, run);
      var point := SizeBlock(flags, opts[i], scheds, scales, run);
      var after := SizeSweep(flags, opts[..i + 1], scheds, scales, run);
      after == before.Then(point) &&
      start + after.entries == (start + before.entries) + point.entries && after.log == before.log + point.log
  {
    assert opts[..i + 1][..i] == opts[..i];
    ThenEntries(start, SizeSweep(flags, opts[..i], scheds, scales, run), SizeBlock(flags, opts[i], scheds, scales, run));
  }

  lemma TraceSweepStep(start: seq<Entry>, flags: Flags, opts: seq<Optimizer>, i: nat, run: RunConfig -> RunOutcome)
    requires i < |opts|
    ensures var before := TraceSweep(flags, opts[..i], run);
      var point := PointEffects(TraceConfig(flags, opts[i]), run, opts[i], "fixed");
      var after := TraceSweep(flags, opts[..i + 1], run);
      after == before.Then(point) &&
      start + after.entries == (start + before.entries) + point.entries && after.log == before.log + point.log
  {
    assert opts[..i + 1][..i] == opts[..i];
    ThenEntries(start, TraceSweep(flags, opts[..i], run), PointEffects(TraceConfig(flags, opts[i]), run, opts[i], "fixed"));
  }
}
