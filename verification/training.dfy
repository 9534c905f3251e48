/**
 * One training session: the `run` setup (optimizer lookup and the
 * get_optimizer closure), the `Model` object, and the hook lists its model
 * function hands to the engine.
 *
 * The engine itself (Estimator, train_and_evaluate, evaluate) is not
 * modelled; what it delivers to the callbacks is described by RunOutcome.
 */
module Training {
  import opened Wrappers
  import opened Rates
  import opened Schedules

  datatype Phase = Train | Eval

  /**
   * The closures the sweep drivers hand to `run` as train/eval callbacks,
   * with the variables each one captures.
   */
  datatype Callback =
    | RateCb(lr: LearningRate, opt: Optimizer, sched: string)  // plt_time_to_train's cb
    | SizeCb(scale: real, opt: Optimizer, sched: string)       // plt_time_vs_model_size's cb
    | TraceCb(opt: Optimizer, mode: Phase)                     // plt_train_trace's cb(mode)

  /**
   * One relayed evaluation: the record a MetricHook hands its callback
   * (accuracy and time taken), the phase whose hook relayed it, and the
   * seconds since the point started, as the trace callback's clock reads them.
   */
  datatype Report = Report(phase: Phase, accuracy: real, timeTaken: real, elapsed: real)

  /**
   * What the engine does with one run: the reports it relays, in order, and
   * whether the run then raised.
   */
  datatype RunOutcome = RunOutcome(reports: seq<Report>, raised: bool)

  /** The opaque hooks; only which ones are installed, and with what, is modelled. */
  datatype Hook =
    | EarlyStopping(startTime: real, target: real, checkEvery: int, maxMins: real)
    | MetricHook(callback: Callback)

  /** `get_optimizer`: lr_schedule over the looked-up optimizer, rate and mode. */
  datatype OptimizerFn = OptimizerFn(kind: Optimizer, lr: LearningRate, schedule: string)

  function ApplyOptimizerFn(f: OptimizerFn): Result<Option<OptimizerInstance>, Failure>
  {
    LrSchedule(f.kind, f.lr, f.schedule, DefaultParams)
  }

  /** Training hooks: always the early stop hook first, then one relay iff there is a train callback. */
  ghost predicate TrainHookList(earlyStop: Hook, trainCallback: Option<Callback>, hooks: seq<Hook>)
  {
    && |hooks| == (if trainCallback.Some? then 2 else 1)
    && hooks[0] == earlyStop
    && (trainCallback.Some? ==> hooks[1] == MetricHook(trainCallback.value))
  }

  /** Evaluation hooks: one relay iff there is an eval callback, and nothing otherwise. */
  ghost predicate EvalHookList(evalCallback: Option<Callback>, hooks: seq<Hook>)
  {
    && |hooks| == (if evalCallback.Some? then 1 else 0)
    && (evalCallback.Some? ==> hooks[0] == MetricHook(evalCallback.value))
  }

  method AssembleHooks(earlyStop: Hook, trainCallback: Option<Callback>, evalCallback: Option<Callback>)
    returns (trainHooks: seq<Hook>, evalHooks: seq<Hook>)
    ensures TrainHookList(earlyStop, trainCallback, trainHooks)
    ensures EvalHookList(evalCallback, evalHooks)
  {
    trainHooks := [earlyStop];
    evalHooks := [];
    if trainCallback.Some? {
      trainHooks := trainHooks + [MetricHook(trainCallback.value)];
    }
    if evalCallback.Some? {
      evalHooks := evalHooks + [MetricHook(evalCallback.value)];
    }
  }

  datatype Mode = TRAIN | EVAL | PREDICT

  /** What the model function returns to the engine for each mode. */
  datatype EstimatorSpec =
    | PredictSpec
    | TrainSpec(optimizer: OptimizerInstance, trainingHooks: seq<Hook>)
    | EvalSpec(evaluationHooks: seq<Hook>)

  /** The `Model` object: its settings, fixed at construction, and the optimizer it builds. */
  class Model {
    var optimizerFn: OptimizerFn
    var valTarget: real
    var maxMins: real
    var scale: real
    var outputPath: string
    var trainCallback: Option<Callback>
    var evalCallback: Option<Callback>
    var startTime: real
    /** Unset until the first TRAIN call, and None again if lr_schedule gave None. */
    var optimizer: Option<OptimizerInstance>

    /** `now` is the clock reading time.time() gives at construction. */
    constructor (optimizerFn: OptimizerFn, valTarget: real, maxMins: real, scale: real, outputPath: string,
                 trainCallback: Option<Callback>, evalCallback: Option<Callback>, now: real)
      ensures this.optimizerFn == optimizerFn && this.valTarget == valTarget && this.maxMins == maxMins
      ensures this.scale == scale && this.outputPath == outputPath
      ensures this.trainCallback == trainCallback && this.evalCallback == evalCallback
      ensures startTime == now && optimizer == None
    {
      this.optimizerFn := optimizerFn;
      this.valTarget := valTarget;
      this.maxMins := maxMins;
      this.scale := scale;
      this.outputPath := outputPath;
      this.trainCallback := trainCallback;
      this.evalCallback := evalCallback;
      startTime := now;
      optimizer := None;
    }

    /** The early stop hook every call builds: the model's target and budget, checked every second. */
    function EarlyStop(): (h: Hook)
      reads this
    {
      EarlyStopping(startTime, valTarget, 1, maxMins)
    }

    /**
     * cnn_model_fn with the layer stack left out: it builds the hook lists,
     * and in TRAIN mode builds the optimizer through optimizerFn. If
     * optimizerFn raises, the exception propagates and `optimizer` keeps its
     * old value; if it gives None, the model fails with AttributeError
     * (None.minimize).
     */
    method ModelFn(mode: Mode) returns (r: Result<EstimatorSpec, Failure>)
      modifies this`optimizer
      ensures mode == TRAIN && ApplyOptimizerFn(optimizerFn).Ok? ==> optimizer == ApplyOptimizerFn(optimizerFn).value
      ensures mode == TRAIN && ApplyOptimizerFn(optimizerFn).Err? ==>
        optimizer == old(optimizer) && r == Err(ApplyOptimizerFn(optimizerFn).error)
      ensures mode != TRAIN ==> optimizer == old(optimizer)
      ensures mode == PREDICT ==> r == Ok(PredictSpec)
      ensures mode == TRAIN ==> (r.Ok? <==> ApplyOptimizerFn(optimizerFn).Ok? && optimizer.Some?)
      ensures mode == TRAIN && ApplyOptimizerFn(optimizerFn).Ok? && r.Err? ==> r.error == AttributeError
      ensures mode == TRAIN && r.Ok? ==>
        && r.value.TrainSpec?
        && r.value.optimizer == optimizer.value
        && TrainHookList(EarlyStopping(startTime, valTarget, 1, maxMins), trainCallback, r.value.trainingHooks)
      ensures mode == EVAL ==>
        r.Ok? && r.value.EvalSpec? && EvalHookList(evalCallback, r.value.evaluationHooks)
    {
      var trainHooks, evalHooks := AssembleHooks(EarlyStop(), trainCallback, evalCallback);
      if mode == PREDICT {
        return Ok(PredictSpec);
      }
      if mode == TRAIN {
        var built := ApplyOptimizerFn(optimizerFn);
        if built.Err? {
          return Err(built.error);
        }
        optimizer := built.value;
        if optimizer.None? {
          return Err(AttributeError);
        }
        return Ok(TrainSpec(optimizer.value, trainHooks));
      }
      return Ok(EvalSpec(evalHooks));
    }
  }

  /** The settings `run` hands to Model and to train_and_evaluate. */
  datatype RunConfig = RunConfig(
    optimizerFn: OptimizerFn,
    valTarget: real,
    maxMins: real,
    scale: real,
    trainCallback: Option<Callback>,
    evalCallback: Option<Callback>,
    evalThrottleSecs: int)

  /** `run` always asks for 97% validation accuracy. */
  const RunValTarget: real := 0.97

  /**
   * `run` up to the engine call: look the optimizer up by name (KeyError if
   * absent) and close get_optimizer over it, the rate and the schedule.
   */
  function RunSetup(optimizer: string, schedule: string, lr: LearningRate, scale: real, maxMins: real,
                    trainCallback: Option<Callback>, evalCallback: Option<Callback>, evalThrottleSecs: int)
    : (r: Result<RunConfig, Failure>)
    ensures r.Err? <==> forall k :: Name(k) != optimizer
    ensures r.Err? ==> r.error == KeyError
    ensures r.Ok? ==>
      && Name(r.value.optimizerFn.kind) == optimizer
      && r.value.optimizerFn.lr == lr && r.value.optimizerFn.schedule == schedule
      && r.value.valTarget == RunValTarget
      && r.value.maxMins == maxMins && r.value.scale == scale
      && r.value.trainCallback == trainCallback && r.value.evalCallback == evalCallback
      && r.value.evalThrottleSecs == evalThrottleSecs
  {
    match OptimizerNamed(optimizer)
    case None => Err(KeyError)
    case Some(kind) => Ok(Configure(kind, schedule, lr, scale, maxMins, trainCallback, evalCallback, evalThrottleSecs))
  }

  /** The configuration `run` builds once the optimizer is known. */
  function Configure(kind: Optimizer, schedule: string, lr: LearningRate, scale: real, maxMins: real,
                     trainCallback: Option<Callback>, evalCallback: Option<Callback>, evalThrottleSecs: int)
    : RunConfig
  {
    RunConfig(OptimizerFn(kind, lr, schedule), RunValTarget, maxMins, scale, trainCallback, evalCallback, evalThrottleSecs)
  }

  /** The sweeps pass table keys, so their lookups never raise KeyError. */
  lemma KeyLookupSucceeds(kind: Optimizer, schedule: string, lr: LearningRate, scale: real, maxMins: real,
                          trainCallback: Option<Callback>, evalCallback: Option<Callback>, evalThrottleSecs: int)
    ensures RunSetup(Name(kind), schedule, lr, scale, maxMins, trainCallback, evalCallback, evalThrottleSecs)
         == Ok(Configure(kind, schedule, lr, scale, maxMins, trainCallback, evalCallback, evalThrottleSecs))
  {
    NamedName(kind);
  }

  /** The Model `run` builds for a configuration (output path left at its default). */
  method NewModel(cfg: RunConfig, now: real) returns (m: Model)
    ensures fresh(m)
    ensures m.optimizerFn == cfg.optimizerFn && m.valTarget == cfg.valTarget && m.maxMins == cfg.maxMins
    ensures m.scale == cfg.scale && m.trainCallback == cfg.trainCallback && m.evalCallback == cfg.evalCallback
    ensures m.outputPath == "/tmp/" && m.startTime == now && m.optimizer == None
  {
    m := new Model(cfg.optimizerFn, cfg.valTarget, cfg.maxMins, cfg.scale, "/tmp/",
                   cfg.trainCallback, cfg.evalCallback, now);
  }

  /**
   * A run whose schedule lr_schedule has no optimizer for fails as soon as
   * the engine asks for the training graph: "triangle" with TypeError inside
   * optimizer_fn, any unknown mode with AttributeError on the None it gives.
   */
  lemma UnreturnedScheduleFailsTraining(f: OptimizerFn)
    requires f.schedule !in {"fixed", "exp_decay", "cosine_restart"}
    ensures f.schedule == "triangle" ==> ApplyOptimizerFn(f) == Err(TypeError)
    ensures f.schedule != "triangle" ==> ApplyOptimizerFn(f) == Ok(None)
  {
  }
}
