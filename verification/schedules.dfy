/**
 * The optimizer registry (`optimizers`, `ideal_lr`) and the learning-rate
 * schedule dispatch `lr_schedule`.
 *
 * The decaying schedules are TensorFlow library calls: the model records the
 * arguments handed to them and leaves their values abstract.
 */
module Schedules {
  import opened Wrappers
  import opened Rates

  /** Exceptions the modelled code raises. */
  datatype Failure =
    | KeyError        // optimizers[name] on an unknown name
    | AttributeError  // None.minimize(...) when lr_schedule returned None
    | NameError       // an unbound name read in an exception handler
    | TypeError       // float() of a graph tensor in the "triangle" branch

  datatype Optimizer = Adam | Adagrad | Momentum | GD | Adadelta | RMSProp

  /** The keys of the optimizer table, in insertion (and so iteration) order. */
  const OptimizerOrder: seq<Optimizer> := [Adam, Adagrad, Momentum, GD, Adadelta, RMSProp]

  /** Schedules swept by the drivers; the decaying ones are commented out. */
  const SweptSchedules: seq<string> := ["fixed"]

  function Name(o: Optimizer): string
  {
    match o
    case Adam => "Adam"
    case Adagrad => "Adagrad"
    case Momentum => "Momentum"
    case GD => "GD"
    case Adadelta => "Adadelta"
    case RMSProp => "RMSProp"
  }

  /** `optimizers[name]`: the key lookup, absent for any other string. */
  function OptimizerNamed(name: string): (o: Option<Optimizer>)
    ensures o.Some? ==> Name(o.value) == name
    ensures o.None? ==> forall k :: Name(k) != name
  {
    if name == "Adam" then Some(Adam)
    else if name == "Adagrad" then Some(Adagrad)
    else if name == "Momentum" then Some(Momentum)
    else if name == "GD" then Some(GD)
    else if name == "Adadelta" then Some(Adadelta)
    else if name == "RMSProp" then Some(RMSProp)
    else None
  }

  /** Every optimizer's name is a key of the table and leads back to it. */
  lemma NamedName(o: Optimizer)
    ensures OptimizerNamed(Name(o)) == Some(o)
  {
  }

  /** The iteration order lists every optimizer exactly once. */
  lemma OrderCoversRegistry()
    ensures forall o: Optimizer :: o in OptimizerOrder
    ensures forall i, j :: 0 <= i < j < |OptimizerOrder| ==> OptimizerOrder[i] != OptimizerOrder[j]
  {
    forall o: Optimizer ensures o in OptimizerOrder {
      match o
      case Adam => assert OptimizerOrder[0] == o;
      case Adagrad => assert OptimizerOrder[1] == o;
      case Momentum => assert OptimizerOrder[2] == o;
      case GD => assert OptimizerOrder[3] == o;
      case Adadelta => assert OptimizerOrder[4] == o;
      case RMSProp => assert OptimizerOrder[5] == o;
    }
  }

  /** `ideal_lr[o]`: the curated learning rate of each optimizer. */
  function IdealRate(o: Optimizer): (r: real)
    ensures 0.0 < r <= 4.0
  {
    match o
    case Adam => 0.001
    case Adagrad => 0.1
    case Momentum => 0.2
    case GD => 0.2
    case Adadelta => 4.0
    case RMSProp => 0.001
  }

  /** The learning-rate argument handed to an optimizer constructor. */
  datatype RateSource =
    | Constant(rate: LearningRate)
    | ExponentialDecay(start: LearningRate, decaySteps: int, decayRate: real, staircase: bool)
    | CosineDecayRestarts(start: LearningRate, firstDecaySteps: int, alpha: real)

  /** An optimizer object; only Momentum fixes a momentum (0.5). */
  datatype OptimizerInstance = Instance(kind: Optimizer, rate: RateSource, momentum: Option<real>)

  /** `optimizers[name](lr)`. */
  function Construct(kind: Optimizer, rate: RateSource): (o: OptimizerInstance)
    ensures o.kind == kind && o.rate == rate
    ensures o.momentum.Some? <==> kind == Momentum
    ensures o.momentum.Some? ==> o.momentum.value == 0.5
  {
    Instance(kind, rate, if kind == Momentum then Some(0.5) else None)
  }

  /** Keyword arguments of lr_schedule besides the optimizer, start rate and mode. */
  datatype ScheduleParams = ScheduleParams(decayRate: real, decaySteps: int, cycleLrDecay: real, cycleLength: int)

  const DefaultParams: ScheduleParams := ScheduleParams(0.96, 100, 0.001, 1000)

  /**
   * lr_schedule as get_optimizer calls it, with the global step a graph
   * tensor: "fixed" hands the start rate to the optimizer untouched;
   * "exp_decay" and "cosine_restart" hand it a decaying rate built from the
   * start rate; "triangle" raises TypeError at float(2**(cycle-1)), since
   * cycle is a tensor; every other mode falls off the end and gives None.
   */
  function LrSchedule(kind: Optimizer, start: LearningRate, mode: string, params: ScheduleParams)
    : (r: Result<Option<OptimizerInstance>, Failure>)
    ensures r.Err? <==> mode == "triangle"
    ensures r.Err? ==> r.error == TypeError
    ensures r.Ok? && r.value.Some? <==> mode in {"fixed", "exp_decay", "cosine_restart"}
    ensures r.Ok? && r.value.Some? ==>
      && r.value.value.kind == kind
      && (r.value.value.momentum.Some? <==> kind == Momentum)
      && (kind == Momentum ==> r.value.value.momentum == Some(0.5))
    ensures mode == "fixed" ==> r.Ok? && r.value.Some? && r.value.value.rate == Constant(start)
    ensures mode == "exp_decay" ==>
      r.Ok? && r.value.Some? && r.value.value.rate == ExponentialDecay(start, params.decaySteps, params.decayRate, true)
    ensures mode == "cosine_restart" ==>
      r.Ok? && r.value.Some? && r.value.value.rate == CosineDecayRestarts(start, params.cycleLength, params.cycleLrDecay)
  {
    if mode == "fixed" then
      Ok(Some(Construct(kind, Constant(start))))
    else if mode == "exp_decay" then
      Ok(Some(Construct(kind, ExponentialDecay(start, params.decaySteps, params.decayRate, true))))
    else if mode == "cosine_restart" then
      Ok(Some(Construct(kind, CosineDecayRestarts(start, params.cycleLength, params.cycleLrDecay))))
    else if mode == "triangle" then
      Err(TypeError)
    else
      Ok(None)
  }

  // The "triangle" branch's arithmetic, over reals: what the branch would
  // compute were the step a number. In the program it never gets that far
  // (see LrSchedule), and it returns nothing even then.

  function Abs(x: real): real { if x < 0.0 then -x else x }

  function Pow2(n: nat): (p: real)
    ensures p >= 1.0
  {
    if n == 0 then 1.0 else 2.0 * Pow2(n - 1)
  }

  /** cycle = floor(1 + step / (2 * cycleLength)): the 1-based triangle index. */
  function TriangleCycle(step: nat, cycleLength: int): (c: int)
    requires cycleLength > 0
    ensures c >= 1
    ensures (c - 1) as real <= step as real / (2.0 * cycleLength as real) < c as real
  {
    var u := step as real / (2.0 * cycleLength as real);
    NonNegativeQuotient(step as real, 2.0 * cycleLength as real);
    (1.0 + u).Floor
  }

  lemma NonNegativeQuotient(s: real, d: real)
    requires s >= 0.0 && d > 0.0
    ensures s / d >= 0.0
  {
  }

  /** Dividing by a length is twice dividing by twice the length. */
  lemma TwiceHalf(s: real, l: real)
    requires l > 0.0
    ensures s / l == 2.0 * (s / (2.0 * l))
  {
    var q := s / (2.0 * l);
    assert q * (2.0 * l) == s;
    assert (2.0 * q) * l == s;
  }

  /** x = |step / cycleLength - 2 * cycle + 1|: the position inside the triangle. */
  function TrianglePosition(step: nat, cycleLength: int): (x: real)
    requires cycleLength > 0
    ensures 0.0 <= x <= 1.0
  {
    var c := TriangleCycle(step, cycleLength);
    var t := step as real / cycleLength as real;
    TwiceHalf(step as real, cycleLength as real);
    Abs(t - 2.0 * c as real + 1.0)
  }

  /**
   * The triangle rate: the start rate plus a bump of height (start - min)
   * that halves every cycle, so it never leaves [start, 2 * start - min].
   */
  function TriangleRate(start: real, step: nat, cycleLrDecay: real, cycleLength: int): (lr: real)
    requires cycleLength > 0
    ensures start * cycleLrDecay <= start ==> start <= lr <= 2.0 * start - start * cycleLrDecay
  {
    var minLr := start * cycleLrDecay;
    var c := TriangleCycle(step, cycleLength);
    var x := TrianglePosition(step, cycleLength);
    var bump := if 1.0 - x > 0.0 then 1.0 - x else 0.0;
    start + ScaledBump(start - minLr, bump, Pow2(c - 1))
  }

  /** The bump's height h, scaled by f and divided by the halving factor p. */
  function ScaledBump(h: real, f: real, p: real): (b: real)
    requires 0.0 <= f <= 1.0 && p >= 1.0
    ensures h >= 0.0 ==> 0.0 <= b <= h
  {
    ScaledBumpBounds(h, f, p);
    h * f / p
  }

  lemma ScaledBumpBounds(h: real, f: real, p: real)
    requires 0.0 <= f <= 1.0 && p >= 1.0
    ensures h >= 0.0 ==> 0.0 <= h * f / p <= h
  {
    if h >= 0.0 {
      var hf := h * f;
      assert 0.0 <= hf <= h by {
        assert h * f <= h * 1.0;
      }
      var q := hf / p;
      assert q * p == hf;
      assert q >= 0.0;
      assert q <= q * p by {
        assert q * p - q == q * (p - 1.0);
      }
    }
  }
}
