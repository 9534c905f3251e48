/**
 * What the three sweeps promise about their plots and logs, stated against
 * reference definitions that do not mention the relay: which reports of a
 * run turn into points, and where every plotted point comes from.
 */
module SweepFacts {
  import opened Wrappers
  import opened Rates
  import opened Schedules
  import opened Training
  import opened Plotting
  import opened Sweeps

  // ---------------------------------------------------------------------
  // Reference views of a run's reports
  // ---------------------------------------------------------------------

  /** The evaluation reports of a run, in order. */
  function Evals(rs: seq<Report>): (es: seq<Report>)
    ensures |es| <= |rs|
    ensures forall k :: 0 <= k < |es| ==> es[k].phase == Eval
    decreases |rs|
  {
    if rs == [] then []
    else
      var last := rs[|rs| - 1];
      Evals(rs[..|rs| - 1]) + (if last.phase == Eval then [last] else [])
  }

  /** The evaluation reports that reach the size sweep's accuracy floor, in order. */
  function Survivors(rs: seq<Report>): (ss: seq<Report>)
    ensures |ss| <= |rs|
    ensures forall k :: 0 <= k < |ss| ==> ss[k].phase == Eval && ss[k].accuracy >= AccuracyFloor
    decreases |rs|
  {
    if rs == [] then []
    else
      var last := rs[|rs| - 1];
      Survivors(rs[..|rs| - 1]) + (if last.phase == Eval && last.accuracy >= AccuracyFloor then [last] else [])
  }

  /** How many evaluation reports fall short of the floor. */
  function Shortfalls(rs: seq<Report>): (n: nat)
    ensures n <= |rs|
    decreases |rs|
  {
    if rs == [] then 0
    else
      var last := rs[|rs| - 1];
      Shortfalls(rs[..|rs| - 1]) + (if last.phase == Eval && last.accuracy < AccuracyFloor then 1 else 0)
  }

  /** Reports plotted as time to target against the probe lr. */
  function RatePoints(lr: LearningRate, opt: Optimizer, sched: string, rs: seq<Report>): (ps: seq<Entry>)
    ensures |ps| == |rs|
    ensures forall k :: 0 <= k < |ps| ==> ps[k].x == RateAt(lr) && ps[k].data == Some(rs[k]) && ps[k].y == Value(rs[k].timeTaken)
    decreases |rs|
  {
    if rs == [] then []
    else
      var r := rs[|rs| - 1];
      RatePoints(lr, opt, sched, rs[..|rs| - 1]) + [Entry(RateAt(lr), Value(r.timeTaken), SeriesLabel(opt, sched), Some(r))]
  }

  /** Reports plotted as time to target against the model scale. */
  function SizePoints(scale: real, opt: Optimizer, sched: string, rs: seq<Report>): (ps: seq<Entry>)
    ensures |ps| == |rs|
    ensures forall k :: 0 <= k < |ps| ==> ps[k].x == At(scale) && ps[k].data == Some(rs[k]) && ps[k].y == Value(rs[k].timeTaken)
    decreases |rs|
  {
    if rs == [] then []
    else
      var r := rs[|rs| - 1];
      SizePoints(scale, opt, sched, rs[..|rs| - 1]) + [Entry(At(scale), Value(r.timeTaken), SeriesLabel(opt, sched), Some(r))]
  }

  /** Reports plotted against elapsed time, one series per phase, each plotting the record it was handed. */
  function TracePoints(opt: Optimizer, rs: seq<Report>): (ps: seq<Entry>)
    ensures |ps| == |rs|
    decreases |rs|
  {
    if rs == [] then []
    else
      var r := rs[|rs| - 1];
      TracePoints(opt, rs[..|rs| - 1]) + [Entry(At(r.elapsed), Whole(r), Name(opt) + "-" + PhaseName(r.phase), None)]
  }

  /** `n` copies of the size sweep's "Failed to train." line. */
  function FailedLines(opt: Optimizer, sched: string, n: nat): (l: seq<LogEvent>)
    ensures |l| == n
    ensures forall k :: 0 <= k < n ==> l[k] == FailedToTrain(opt, sched)
  {
    seq(n, _ => FailedToTrain(opt, sched))
  }

  // ---------------------------------------------------------------------
  // What each sweep hands to run, and where the relayed reports go
  // ---------------------------------------------------------------------

  /**
   * plt_time_to_train's call run(opt, sched, lr, scale=FLAGS.scale,
   * max_mins=FLAGS.max_mins, eval_callback=cb): the lookup succeeds, and the
   * run gets target 0.97, only an eval callback and the default throttle 5.
   */
  lemma RateCallSetup(flags: Flags, opt: Optimizer, sched: string, lr: LearningRate)
    ensures RunSetup(Name(opt), sched, lr, flags.scale as real, flags.maxMins, None, Some(RateCb(lr, opt, sched)), 5)
         == Ok(RateConfig(flags, opt, sched, lr))
    ensures var c := RateConfig(flags, opt, sched, lr);
      && c.optimizerFn == OptimizerFn(opt, lr, sched) && c.valTarget == 0.97
      && c.maxMins == flags.maxMins && c.scale == flags.scale as real
      && c.trainCallback == None && c.evalCallback == Some(RateCb(lr, opt, sched)) && c.evalThrottleSecs == 5
  {
    KeyLookupSucceeds(opt, sched, lr, flags.scale as real, flags.maxMins, None, Some(RateCb(lr, opt, sched)), 5);
  }

  /**
   * plt_time_vs_model_size's call run(opt, sched, ideal_lr[opt], scale=scale,
   * max_mins=FLAGS.max_mins, eval_callback=cb): the curated rate, the grid
   * scale, only an eval callback and the default throttle 5.
   */
  lemma SizeCallSetup(flags: Flags, opt: Optimizer, sched: string, scale: real)
    ensures RunSetup(Name(opt), sched, Literal(IdealRate(opt)), scale, flags.maxMins, None, Some(SizeCb(scale, opt, sched)), 5)
         == Ok(SizeConfig(flags, opt, sched, scale))
    ensures var c := SizeConfig(flags, opt, sched, scale);
      && c.optimizerFn == OptimizerFn(opt, Literal(IdealRate(opt)), sched) && c.valTarget == 0.97
      && c.maxMins == flags.maxMins && c.scale == scale
      && c.trainCallback == None && c.evalCallback == Some(SizeCb(scale, opt, sched)) && c.evalThrottleSecs == 5
  {
    KeyLookupSucceeds(opt, sched, Literal(IdealRate(opt)), scale, flags.maxMins, None, Some(SizeCb(scale, opt, sched)), 5);
  }

  /**
   * plt_train_trace's call run(opt, "fixed", ideal_lr[opt], scale=FLAGS.scale,
   * max_mins=FLAGS.max_mins, train_callback=cb("train"),
   * eval_callback=cb("eval"), eval_throttle_secs=5): both callbacks installed.
   */
  lemma TraceCallSetup(flags: Flags, opt: Optimizer)
    ensures RunSetup(Name(opt), "fixed", Literal(IdealRate(opt)), flags.scale as real, flags.maxMins,
                     Some(TraceCb(opt, Train)), Some(TraceCb(opt, Eval)), 5)
         == Ok(TraceConfig(flags, opt))
    ensures var c := TraceConfig(flags, opt);
      && c.optimizerFn == OptimizerFn(opt, Literal(IdealRate(opt)), "fixed") && c.valTarget == 0.97
      && c.maxMins == flags.maxMins && c.scale == flags.scale as real
      && c.trainCallback == Some(TraceCb(opt, Train)) && c.evalCallback == Some(TraceCb(opt, Eval))
      && c.evalThrottleSecs == 5
  {
    KeyLookupSucceeds(opt, "fixed", Literal(IdealRate(opt)), flags.scale as real, flags.maxMins,
                      Some(TraceCb(opt, Train)), Some(TraceCb(opt, Eval)), 5);
  }

  /**
   * The callback a report of a phase reaches is exactly the one a MetricHook
   * in that phase's hook list (as cnn_model_fn assembles them) relays to.
   */
  lemma ListenerIsInstalledHook(cfg: RunConfig, earlyStop: Hook, trainHooks: seq<Hook>, evalHooks: seq<Hook>)
    requires earlyStop.EarlyStopping?
    requires TrainHookList(earlyStop, cfg.trainCallback, trainHooks)
    requires EvalHookList(cfg.evalCallback, evalHooks)
    ensures forall cb :: Listener(cfg, Train) == Some(cb) <==> MetricHook(cb) in trainHooks
    ensures forall cb :: Listener(cfg, Eval) == Some(cb) <==> MetricHook(cb) in evalHooks
  {
    forall cb
      ensures Listener(cfg, Train) == Some(cb) <==> MetricHook(cb) in trainHooks
    {
      if MetricHook(cb) in trainHooks {
        var k :| 0 <= k < |trainHooks| && trainHooks[k] == MetricHook(cb);
        assert k == 1;
      }
    }
  }

  // ---------------------------------------------------------------------
  // The scale grid
  // ---------------------------------------------------------------------

  /** Dividing by a positive number keeps the order. */
  lemma QuotientOrder(a: real, b: real, d: real)
    requires d > 0.0 && a < b
    ensures a / d < b / d
  {
    assert (b / d - a / d) * d == b - a;
  }

  /** n/d lies in [1, 10) when d <= n < 10d. */
  lemma QuotientRange(n: real, d: real)
    requires d > 0.0 && d <= n < 10.0 * d
    ensures 1.0 <= n / d < 10.0
  {
    assert d / d == 1.0;
    assert (10.0 * d) / d == 10.0;
    if d < n {
      QuotientOrder(d, n, d);
    }
    QuotientOrder(n, 10.0 * d, d);
  }

  /**
   * The scales plt_time_vs_model_size visits: 9*oversample of them, from 1
   * upwards in strictly increasing order, all below 10.
   */
  lemma ScaleGridShape(oversample: int)
    requires oversample > 0
    ensures |ScaleGrid(oversample)| == 9 * oversample
    ensures ScaleGrid(oversample)[0] == 1.0
    ensures forall k :: 0 <= k < |ScaleGrid(oversample)| ==> 1.0 <= ScaleGrid(oversample)[k] < 10.0
    ensures forall i, j :: 0 <= i < j < |ScaleGrid(oversample)| ==> ScaleGrid(oversample)[i] < ScaleGrid(oversample)[j]
  {
    var g, o := ScaleGrid(oversample), oversample as real;
    assert g[0] == o / o == 1.0;
    forall k | 0 <= k < |g|
      ensures 1.0 <= g[k] < 10.0
    {
      QuotientRange((k + oversample) as real, o);
    }
    forall i, j | 0 <= i < j < |g|
      ensures g[i] < g[j]
    {
      QuotientOrder((i + oversample) as real, (j + oversample) as real, o);
    }
  }

  // ---------------------------------------------------------------------
  // One run, relayed
  // ---------------------------------------------------------------------

  /** Rate sweep: every evaluation report becomes one point at the probe, in order; nothing is logged. */
  lemma {:induction false} RateRelay(flags: Flags, opt: Optimizer, sched: string, lr: LearningRate, rs: seq<Report>)
    ensures Relay(RateConfig(flags, opt, sched, lr), rs) == Effects(RatePoints(lr, opt, sched, Evals(rs)), [])
    decreases |rs|
  {
    if rs != [] {
      var init, last := rs[..|rs| - 1], rs[|rs| - 1];
      RateRelay(flags, opt, sched, lr, init);
      if last.phase == Eval {
        assert (Evals(init) + [last])[..|Evals(init)|] == Evals(init);
      } else {
        assert Evals(init) + [] == Evals(init);
      }
    }
  }

  /** What one report does under the size sweep's callback. */
  lemma SizeDeliver(flags: Flags, opt: Optimizer, sched: string, scale: real, r: Report)
    ensures Deliver(SizeConfig(flags, opt, sched, scale), r)
         == if r.phase == Train then NoEffects
            else if r.accuracy >= AccuracyFloor then Effects([Entry(At(scale), Value(r.timeTaken), SeriesLabel(opt, sched), Some(r))], [])
            else Effects([], [FailedToTrain(opt, sched)])
  {
  }

  /** Size sweep, plot side: exactly the evaluation reports at or above the floor become points, in order. */
  lemma {:induction false} SizeRelayEntries(flags: Flags, opt: Optimizer, sched: string, scale: real, rs: seq<Report>)
    ensures Relay(SizeConfig(flags, opt, sched, scale), rs).entries == SizePoints(scale, opt, sched, Survivors(rs))
    decreases |rs|
  {
    if rs != [] {
      var cfg := SizeConfig(flags, opt, sched, scale);
      var init, last := rs[..|rs| - 1], rs[|rs| - 1];
      SizeRelayEntries(flags, opt, sched, scale, init);
      SizeDeliver(flags, opt, sched, scale, last);
      assert Relay(cfg, rs).entries == Relay(cfg, init).entries + Deliver(cfg, last).entries;
      if last.phase == Eval && last.accuracy >= AccuracyFloor {
        assert Survivors(rs) == Survivors(init) + [last];
        assert (Survivors(init) + [last])[..|Survivors(init)|] == Survivors(init);
      } else {
        assert Survivors(rs) == Survivors(init) + [] == Survivors(init);
        assert Relay(cfg, rs).entries == Relay(cfg, init).entries + [];
      }
    }
  }

  /** Size sweep, log side: each evaluation report below the floor logs one failure line. */
  lemma {:induction false} SizeRelayLog(flags: Flags, opt: Optimizer, sched: string, scale: real, rs: seq<Report>)
    ensures Relay(SizeConfig(flags, opt, sched, scale), rs).log == FailedLines(opt, sched, Shortfalls(rs))
    decreases |rs|
  {
    if rs != [] {
      var cfg := SizeConfig(flags, opt, sched, scale);
      var init, last := rs[..|rs| - 1], rs[|rs| - 1];
      SizeRelayLog(flags, opt, sched, scale, init);
      SizeDeliver(flags, opt, sched, scale, last);
      assert Relay(cfg, rs).log == Relay(cfg, init).log + Deliver(cfg, last).log;
      if last.phase == Eval && last.accuracy < AccuracyFloor {
        assert Shortfalls(rs) == Shortfalls(init) + 1;
        assert FailedLines(opt, sched, Shortfalls(init) + 1)
            == FailedLines(opt, sched, Shortfalls(init)) + [FailedToTrain(opt, sched)];
      } else {
        assert Shortfalls(rs) == Shortfalls(init);
        assert Relay(cfg, rs).log == Relay(cfg, init).log + [];
      }
    }
  }

  /**
   * Trace sweep: every report of either phase becomes one point at its
   * elapsed time, whose y is the relayed record itself, in order; nothing is
   * logged.
   */
  lemma {:induction false} TraceRelay(flags: Flags, opt: Optimizer, rs: seq<Report>)
    ensures Relay(TraceConfig(flags, opt), rs) == Effects(TracePoints(opt, rs), [])
    decreases |rs|
  {
    if rs != [] {
      TraceRelay(flags, opt, rs[..|rs| - 1]);
    }
  }

  // ---------------------------------------------------------------------
  // Whole sweeps: where every plotted point comes from
  // ---------------------------------------------------------------------

  /** A size-sweep point: at a grid scale, from an evaluation that reached the floor, plotting its time. */
  predicate SizeResult(e: Entry, scales: seq<real>)
  {
    e.x.At? && e.x.value in scales && e.data.Some? && e.data.value.phase == Eval
    && e.data.value.accuracy >= AccuracyFloor && e.y == Value(e.data.value.timeTaken)
  }

  /** Containment: a grid point plots what its run relayed, whether or not the run then raised. */
  lemma PointEntries(cfg: RunConfig, run: RunConfig -> RunOutcome, opt: Optimizer, sched: string)
    ensures PointEffects(cfg, run, opt, sched).entries == Relay(cfg, run(cfg).reports).entries
  {
    var o := run(cfg);
    assert Relay(cfg, o.reports).entries + [] == Relay(cfg, o.reports).entries;
  }

  lemma SizePointResults(flags: Flags, opt: Optimizer, sched: string, scale: real, run: RunConfig -> RunOutcome)
    ensures forall e :: e in PointEffects(SizeConfig(flags, opt, sched, scale), run, opt, sched).entries ==>
      e.x == At(scale) && e.data.Some? && e.data.value.phase == Eval
      && e.data.value.accuracy >= AccuracyFloor && e.y == Value(e.data.value.timeTaken)
  {
    var cfg := SizeConfig(flags, opt, sched, scale);
    var rs := run(cfg).reports;
    PointEntries(cfg, run, opt, sched);
    SizeRelayEntries(flags, opt, sched, scale, rs);
  }

  lemma {:induction false} SizeRowResults(flags: Flags, opt: Optimizer, sched: string, scales: seq<real>,
                                          run: RunConfig -> RunOutcome)
    ensures forall e :: e in SizeRow(flags, opt, sched, scales, run).entries ==> SizeResult(e, scales)
    decreases |scales|
  {
    if scales != [] {
      var init, last := scales[..|scales| - 1], scales[|scales| - 1];
      SizeRowResults(flags, opt, sched, init, run);
      SizePointResults(flags, opt, sched, last, run);
      forall e | e in SizeRow(flags, opt, sched, scales, run).entries
        ensures SizeResult(e, scales)
      {
        if e in SizeRow(flags, opt, sched, init, run).entries {
          assert e.x.value in init;
        }
      }
    }
  }

  lemma {:induction false} SizeBlockResults(flags: Flags, opt: Optimizer, scheds: seq<string>, scales: seq<real>,
                                            run: RunConfig -> RunOutcome)
    ensures forall e :: e in SizeBlock(flags, opt, scheds, scales, run).entries ==> SizeResult(e, scales)
    decreases |scheds|
  {
    if scheds != [] {
      SizeBlockResults(flags, opt, scheds[..|scheds| - 1], scales, run);
      SizeRowResults(flags, opt, scheds[|scheds| - 1], scales, run);
    }
  }

  /**
   * The accuracy filter of plt_time_vs_model_size: every plotted point is at
   * a grid scale and comes from an evaluation at or above 0.96, plotting that
   * evaluation's time to target.
   */
  lemma {:induction false} SizeSweepResults(flags: Flags, opts: seq<Optimizer>, scheds: seq<string>, scales: seq<real>,
                                            run: RunConfig -> RunOutcome)
    ensures forall e :: e in SizeSweep(flags, opts, scheds, scales, run).entries ==> SizeResult(e, scales)
    decreases |opts|
  {
    if opts != [] {
      SizeSweepResults(flags, opts[..|opts| - 1], scheds, scales, run);
      SizeBlockResults(flags, opts[|opts| - 1], scheds, scales, run);
    }
  }

  /** A rate-sweep point: at a probe, from an evaluation report, plotting its time. */
  predicate RateResult(e: Entry, lrs: seq<LearningRate>)
  {
    e.x.RateAt? && e.x.rate in lrs && e.data.Some? && e.data.value.phase == Eval && e.y == Value(e.data.value.timeTaken)
  }

  lemma RatePointResults(flags: Flags, opt: Optimizer, sched: string, lr: LearningRate, run: RunConfig -> RunOutcome)
    ensures var pe := PointEffects(RateConfig(flags, opt, sched, lr), run, opt, sched);
      (forall e :: e in pe.entries ==>
         e.x == RateAt(lr) && e.data.Some? && e.data.value.phase == Eval && e.y == Value(e.data.value.timeTaken))
      && (forall ev :: ev in pe.log ==> ev == Traceback(opt, sched))
  {
    var cfg := RateConfig(flags, opt, sched, lr);
    var rs := run(cfg).reports;
    PointEntries(cfg, run, opt, sched);
    RateRelay(flags, opt, sched, lr, rs);
  }

  lemma {:induction false} RateRowResults(flags: Flags, opt: Optimizer, sched: string, lrs: seq<LearningRate>,
                                          run: RunConfig -> RunOutcome)
    ensures forall e :: e in RateRow(flags, opt, sched, lrs, run).entries ==> RateResult(e, lrs)
    ensures forall ev :: ev in RateRow(flags, opt, sched, lrs, run).log ==> ev.Traceback?
    decreases |lrs|
  {
    if lrs != [] {
      var init, last := lrs[..|lrs| - 1], lrs[|lrs| - 1];
      var before := RateRow(flags, opt, sched, init, run);
      var point := PointEffects(RateConfig(flags, opt, sched, last), run, opt, sched);
      assert RateRow(flags, opt, sched, lrs, run) == before.Then(point);
      RateRowResults(flags, opt, sched, init, run);
      RatePointResults(flags, opt, sched, last, run);
      forall e | e in before.entries + point.entries
        ensures RateResult(e, lrs)
      {
        if e in before.entries {
          assert RateResult(e, init);
        }
      }
    }
  }

  lemma {:induction false} RateBlockResults(flags: Flags, opt: Optimizer, scheds: seq<string>, lrs: seq<LearningRate>,
                                            run: RunConfig -> RunOutcome)
    ensures var b := RateBlock(flags, opt, scheds, lrs, run);
      (forall e :: e in b.entries ==> RateResult(e, lrs)) && (forall ev :: ev in b.log ==> ev.Traceback?)
    decreases |scheds|
  {
    if scheds != [] {
      RateBlockResults(flags, opt, scheds[..|scheds| - 1], lrs, run);
      RateRowResults(flags, opt, scheds[|scheds| - 1], lrs, run);
    }
  }

  /**
   * plt_time_to_train plots only evaluation reports, at LRRange probes,
   * against their time to target; its log holds only tracebacks of runs
   * that raised.
   */
  lemma {:induction false} RateSweepResults(flags: Flags, mul: int, opts: seq<Optimizer>, scheds: seq<string>,
                                            run: RunConfig -> RunOutcome, flushRaises: nat -> bool)
    ensures var s := RateSweep(flags, mul, opts, scheds, run, flushRaises);
      (forall e :: e in s.effects.entries ==> RateResult(e, RangeRates(mul)))
      && (forall ev :: ev in s.effects.log ==> ev.Traceback?)
    decreases |opts|
  {
    if opts != [] {
      RateSweepResults(flags, mul, opts[..|opts| - 1], scheds, run, flushRaises);
      RateBlockResults(flags, opts[|opts| - 1], scheds, RangeRates(mul), run);
    }
  }

  /** The rate sweep ends with an escaping NameError exactly when some flush raised. */
  lemma {:induction false} RateSweepEnd(flags: Flags, mul: int, opts: seq<Optimizer>, scheds: seq<string>,
                                        run: RunConfig -> RunOutcome, flushRaises: nat -> bool)
    ensures var s := RateSweep(flags, mul, opts, scheds, run, flushRaises);
      (s.end.Escaped? <==> exists m :: 0 <= m < |opts| && flushRaises(m))
      && (s.end.Escaped? ==> s.end.error == NameError)
    decreases |opts|
  {
    if opts != [] {
      var n := |opts| - 1;
      RateSweepEnd(flags, mul, opts[..n], scheds, run, flushRaises);
      if RateSweep(flags, mul, opts[..n], scheds, run, flushRaises).end.Escaped? {
        var m :| 0 <= m < n && flushRaises(m);
        assert 0 <= m < |opts|;
      } else if flushRaises(n) {
      } else {
        assert forall m :: 0 <= m < |opts| ==> !flushRaises(m) by {
          forall m | 0 <= m < |opts|
            ensures !flushRaises(m)
          {
            if m < n {
              assert 0 <= m < |opts[..n]|;
            }
          }
        }
      }
    }
  }

  // ---------------------------------------------------------------------
  // The trace sweep plots everything it is told
  // ---------------------------------------------------------------------

  /** How many reports the trace runs of opts relay, in total. */
  function TraceReportCount(flags: Flags, opts: seq<Optimizer>, run: RunConfig -> RunOutcome): nat
    decreases |opts|
  {
    if opts == [] then 0
    else TraceReportCount(flags, opts[..|opts| - 1], run) + |run(TraceConfig(flags, opts[|opts| - 1])).reports|
  }

  /**
   * plt_train_trace plots one point per relayed report of either phase,
   * and its log holds only tracebacks.
   */
  lemma {:induction false} TraceSweepComplete(flags: Flags, opts: seq<Optimizer>, run: RunConfig -> RunOutcome)
    ensures var t := TraceSweep(flags, opts, run);
      |t.entries| == TraceReportCount(flags, opts, run) && (forall ev :: ev in t.log ==> ev.Traceback?)
    decreases |opts|
  {
    if opts != [] {
      var opt := opts[|opts| - 1];
      var cfg := TraceConfig(flags, opt);
      TraceSweepComplete(flags, opts[..|opts| - 1], run);
      PointEntries(cfg, run, opt, "fixed");
      TraceRelay(flags, opt, run(cfg).reports);
      assert PointEffects(cfg, run, opt, "fixed").log == [] + (if run(cfg).raised then [Traceback(opt, "fixed")] else []);
    }
  }
}
