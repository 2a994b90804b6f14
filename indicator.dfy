/**
 * The `Indicator` sum type (src/indicators/indicator.rs): one variant per
 * streaming indicator, a pass-through `None` variant, dispatch of `next` on a
 * single value and on a candle, `reset` and `period` forwarded to the wrapped
 * indicator, and the factory functions.  Dispatch works on values: the new
 * indicator is returned beside the output.
 */
module IndicatorEnum {
  import opened Wrappers
  import opened Output
  import Externals
  import Candles
  import Alligator
  import Ao
  import Atr
  import Bb
  import Ema
  import Kc
  import Macd
  import Mae
  import Obv
  import Rsi
  import Sd
  import Sma
  import Smma
  import Stoch
  import SuperTrend
  import Tr
  import WilliamsR

  datatype Indicator =
    | None
    | Alligator(alligator: Alligator.AlligatorState)
    | Ao(ao: Ao.AoState)
    | Atr(atr: Atr.AtrState)
    | Bb(bb: Bb.BbState)
    | Ema(ema: Ema.EmaState)
    | Kc(kc: Kc.KcState)
    | Macd(macd: Macd.MacdState)
    | Mae(mae: Mae.MaeState)
    | Obv(obv: Obv.ObvState)
    | Rsi(rsi: Rsi.RsiState)
    | Sd(sd: Sd.SdState)
    | Sma(sma: Sma.SmaState)
    | Smma(smma: Smma.SmmaState)
    | Stoch(stoch: Stoch.StochState)
    | SuperTrend(superTrend: SuperTrend.SuperTrendState)
    | Tr(tr: Tr.TrState)
    | WilliamsR(williamsR: WilliamsR.WrState)

  /** The wrapped indicator is one its constructor can build or its `next` can reach. */
  predicate Valid(ind: Indicator)
  {
    match ind
    case None => true
    case Alligator(s) => Alligator.Valid(s)
    case Ao(s) => Ao.Valid(s)
    case Atr(s) => Atr.Valid(s)
    case Bb(s) => Bb.Valid(s)
    case Ema(s) => Ema.Valid(s)
    case Kc(s) => Kc.Valid(s)
    case Macd(s) => Macd.Valid(s)
    case Mae(s) => Mae.Valid(s)
    case Obv(_) => true
    case Rsi(s) => s.period > 0
    case Sd(s) => Sd.Valid(s)
    case Sma(s) => Sma.Valid(s)
    case Smma(s) => Smma.Valid(s) && s.period >= 2
    case Stoch(s) => Stoch.Valid(s)
    case SuperTrend(s) => SuperTrend.Valid(s)
    case Tr(_) => true
    case WilliamsR(s) => WilliamsR.Valid(s)
  }

  /** The position of the variant in the enum. */
  function Kind(ind: Indicator): nat
  {
    match ind
    case None => 0
    case Alligator(_) => 1
    case Ao(_) => 2
    case Atr(_) => 3
    case Bb(_) => 4
    case Ema(_) => 5
    case Kc(_) => 6
    case Macd(_) => 7
    case Mae(_) => 8
    case Obv(_) => 9
    case Rsi(_) => 10
    case Sd(_) => 11
    case Sma(_) => 12
    case Smma(_) => 13
    case Stoch(_) => 14
    case SuperTrend(_) => 15
    case Tr(_) => 16
    case WilliamsR(_) => 17
  }

  /** Both hold the same variant. */
  predicate SameVariant(a: Indicator, b: Indicator)
  {
    Kind(a) == Kind(b)
  }

  /** How many values one output of the variant holds. */
  function Arity(ind: Indicator): nat
  {
    match ind
    case Alligator(_) => 3
    case Bb(_) => 3
    case Kc(_) => 3
    case Macd(_) => 3
    case Stoch(_) => 2
    case SuperTrend(_) => 2
    case _ => 1
  }

  /** The on-balance volume as an output: a missing (NaN) total is a NaN single. */
  function ObvOutput(v: Option<real>): (o: OutputType)
    ensures v.Some? ==> o == Single(v.value)
    ensures v.None? ==> o == SingleNaN
  {
    if v.Some? then Single(v.value) else SingleNaN
  }

  /**
   * `next(x)` on a single value: forwarded to the wrapped indicator.  The
   * stochastic oscillator and the on-balance volume take only candles: they
   * answer `Unexpected` and stay as they were.
   */
  function NextValue(env: Externals.Env, ind: Indicator, x: real): (r: (Indicator, Result<OutputType>))
    requires Valid(ind)
    ensures Valid(r.0) && SameVariant(ind, r.0)
    ensures r.1.Err? <==> ind.Stoch? || ind.Obv?
    ensures r.1.Err? ==> r.0 == ind && r.1.error == Unexpected
  {
    match ind
    case None => (ind, Ok(Single(x)))
    case Alligator(s) =>
      var (s1, o) := Alligator.Step(s, x);
      (Alligator(s1), Ok(Array([o.jaw, o.teeth, o.lips])))
    case Ema(s) => var (s1, o) := Ema.Step(s, x); (Ema(s1), Ok(Single(o)))
    case Sma(s) => var (s1, o) := Sma.Step(s, x); (Sma(s1), Ok(Single(o)))
    case Smma(s) => var (s1, o) := Smma.Step(s, x); (Smma(s1), Ok(Single(o)))
    case Rsi(s) => var (s1, o) := Rsi.Step(env, s, x); (Rsi(s1), Ok(Single(o)))
    case Macd(s) => var (s1, o) := Macd.Step(s, x); (Macd(s1), Ok(Array(Macd.ToVec(o))))
    case Tr(s) => var (s1, o) := Tr.StepValue(s, x); (Tr(s1), Ok(Single(o)))
    case Atr(s) => var (s1, o) := Atr.StepValue(s, x); (Atr(s1), Ok(Single(o)))
    case SuperTrend(s) =>
      var (s1, o) := SuperTrend.Step(s, x);
      (SuperTrend(s1), Ok(Array(SuperTrend.ToVec(o))))
    case Bb(s) =>
      var (s1, o) := Bb.Step(env, s, x);
      (Bb(s1), Ok(Array([o.average, o.upper, o.lower])))
    case Stoch(_) => (ind, Err(Unexpected))
    case Sd(s) => var (s1, o) := Sd.Step(env, s, x); (Sd(s1), Ok(Single(o)))
    case Mae(s) => var (s1, o) := Mae.Step(s, x); (Mae(s1), Ok(Single(o)))
    case Obv(_) => (ind, Err(Unexpected))
    case Ao(s) => var (s1, o) := Ao.Step(s, x); (Ao(s1), Ok(Single(o)))
    case Kc(s) => var (s1, o) := Kc.Step(s, x); (Kc(s1), Ok(Array(Kc.ToVec(o))))
    case WilliamsR(s) => var (s1, o) := WilliamsR.Step(s, x); (WilliamsR(s1), Ok(Single(o)))
  }

  /** `next(candle)`: forwarded to the wrapped indicator; every variant accepts a candle. */
  function NextCandle(env: Externals.Env, ind: Indicator, b: Candles.Bar): (r: (Indicator, Result<OutputType>))
    requires Valid(ind)
    ensures Valid(r.0) && SameVariant(ind, r.0)
    ensures r.1.Ok?
  {
    match ind
    case None => (ind, Ok(Single(b.close)))
    case Alligator(s) =>
      var (s1, o) := Alligator.StepCandle(s, b);
      (Alligator(s1), Ok(Array([o.jaw, o.teeth, o.lips])))
    case Ao(s) => var (s1, o) := Ao.StepCandle(s, b); (Ao(s1), Ok(Single(o)))
    case Ema(s) => var (s1, o) := Ema.StepCandle(s, b); (Ema(s1), Ok(Single(o)))
    case Sma(s) => var (s1, o) := Sma.StepCandle(s, b); (Sma(s1), Ok(Single(o)))
    case Smma(s) => var (s1, o) := Smma.StepCandle(s, b); (Smma(s1), Ok(Single(o)))
    case Rsi(s) => var (s1, o) := Rsi.StepCandle(env, s, b); (Rsi(s1), Ok(Single(o)))
    case Macd(s) => var (s1, o) := Macd.StepCandle(s, b); (Macd(s1), Ok(Array(Macd.ToVec(o))))
    case Tr(s) => var (s1, o) := Tr.Step(s, b); (Tr(s1), Ok(Single(o)))
    case Atr(s) => var (s1, o) := Atr.Step(s, b); (Atr(s1), Ok(Single(o)))
    case SuperTrend(s) =>
      var (s1, o) := SuperTrend.StepCandle(s, b);
      (SuperTrend(s1), Ok(Array(SuperTrend.ToVec(o))))
    case Bb(s) =>
      var (s1, o) := Bb.StepCandle(env, s, b);
      (Bb(s1), Ok(Array([o.average, o.upper, o.lower])))
    case Stoch(s) => var (s1, o) := Stoch.Step(s, b); (Stoch(s1), Ok(Array([o.k, o.d])))
    case Sd(s) => var (s1, o) := Sd.Step(env, s, b.close); (Sd(s1), Ok(Single(o)))
    case Mae(s) => var (s1, o) := Mae.StepCandle(s, b); (Mae(s1), Ok(Single(o)))
    case Obv(s) => var (s1, o) := Obv.Step(s, b); (Obv(s1), Ok(ObvOutput(o)))
    case Kc(s) => var (s1, o) := Kc.StepCandle(s, b); (Kc(s1), Ok(Array(Kc.ToVec(o))))
    case WilliamsR(s) => var (s1, o) := WilliamsR.StepCandle(s, b); (WilliamsR(s1), Ok(Single(o)))
  }

  /** `reset`, forwarded to the wrapped indicator; `None` has nothing to reset. */
  function Restart(ind: Indicator): (r: Indicator)
    requires Valid(ind)
    ensures Valid(r) && SameVariant(ind, r)
  {
    match ind
    case None => ind
    case Alligator(s) => Alligator(Alligator.Restart(s))
    case Ao(s) => Ao(Ao.Restart(s))
    case Atr(s) => Atr(Atr.Restart(s))
    case Bb(s) => Bb(Bb.Restart(s))
    case Ema(s) => Ema(Ema.Restart(s))
    case Kc(s) => Kc(Kc.Restart(s))
    case Macd(s) => Macd(Macd.Restart(s))
    case Mae(s) => Mae(Mae.Restart(s))
    case Obv(s) => Obv(Obv.Restart(s))
    case Rsi(s) => Rsi(Rsi.Restart(s))
    case Sd(s) => Sd(Sd.Restart(s))
    case Sma(s) => Sma(Sma.Restart(s))
    case Smma(s) => Smma(Smma.Restart(s))
    case Stoch(s) => Stoch(Stoch.Restart(s))
    case SuperTrend(s) => SuperTrend(SuperTrend.Restart(s))
    case Tr(s) => Tr(Tr.Restart(s))
    case WilliamsR(s) => WilliamsR(WilliamsR.Restart(s))
  }

  /** `period`, forwarded to the wrapped indicator; `None` needs no history. */
  function Period(env: Externals.Env, ind: Indicator): (p: nat)
    ensures ind.None? ==> p == 0
  {
    match ind
    case None => 0
    case Alligator(s) => Alligator.Period(s)
    case Ao(s) => Ao.Period(s)
    case Atr(s) => Atr.Period(s)
    case Bb(s) => Bb.Period(s)
    case Ema(s) => Ema.Period(s)
    case Kc(s) => Kc.Period(s)
    case Macd(s) => Macd.Period(s)
    case Mae(s) => Mae.Period(s)
    case Obv(s) => Obv.Period(s)
    case Rsi(s) => Rsi.Period(s)
    case Sd(s) => Sd.Period(s)
    case Sma(s) => Sma.Period(s)
    case Smma(s) => Smma.Period(s)
    case Stoch(s) => Stoch.Period(s)
    case SuperTrend(s) => SuperTrend.Period(s)
    case Tr(_) => env.trPeriod
    case WilliamsR(s) => WilliamsR.Period(s)
  }

  /** Stepping on a value does not change how much history an indicator needs. */
  lemma NextValueKeepsPeriod(env: Externals.Env, ind: Indicator, x: real)
    requires Valid(ind)
    ensures Period(env, NextValue(env, ind, x).0) == Period(env, ind)
  {
  }

  /** Stepping on a candle does not change it either. */
  lemma NextCandleKeepsPeriod(env: Externals.Env, ind: Indicator, b: Candles.Bar)
    requires Valid(ind)
    ensures Period(env, NextCandle(env, ind, b).0) == Period(env, ind)
  {
  }

  /** An answer to a value has as many components as the variant's output. */
  lemma NextValueShape(env: Externals.Env, ind: Indicator, x: real)
    requires Valid(ind)
    ensures NextValue(env, ind, x).1.Ok? ==> ShapeOf(NextValue(env, ind, x).1.value) == Some(Arity(ind))
  {
  }

  /** So has an answer to a candle. */
  lemma NextCandleShape(env: Externals.Env, ind: Indicator, b: Candles.Bar)
    requires Valid(ind)
    ensures ShapeOf(NextCandle(env, ind, b).1.value) == Some(Arity(ind))
  {
  }

  /** Neither does resetting. */
  lemma RestartKeepsPeriod(env: Externals.Env, ind: Indicator)
    requires Valid(ind)
    ensures Period(env, Restart(ind)) == Period(env, ind)
  {
  }

  // ---------------------------------------------------------------- the pass-through

  /** The pass-through answers its input, a candle's close, needs no history and resets to itself. */
  lemma NoneIsPassThrough(env: Externals.Env, x: real, b: Candles.Bar)
    ensures NextValue(env, Indicator.None, x) == (Indicator.None, Ok(Single(x)))
    ensures NextCandle(env, Indicator.None, b) == (Indicator.None, Ok(Single(b.close)))
    ensures Period(env, Indicator.None) == 0 && Restart(Indicator.None) == Indicator.None
  {
  }

  /** `Default` is the pass-through. */
  function Default(): (r: Indicator)
    ensures r.None? && Valid(r)
  {
    Indicator.None
  }

  // ---------------------------------------------------------------- output mapping

  /** Bollinger bands answer [average, upper, lower]. */
  lemma BbOutputOrder(env: Externals.Env, s: Bb.BbState, x: real)
    requires Bb.Valid(s)
    ensures var o := Bb.Step(env, s, x).1;
            NextValue(env, Bb(s), x) == (Bb(Bb.Step(env, s, x).0), Ok(Array([o.average, o.upper, o.lower])))
  {
  }

  /** The stochastic oscillator answers a candle with [%K, %D]. */
  lemma StochOutputOrder(env: Externals.Env, s: Stoch.StochState, b: Candles.Bar)
    requires Stoch.Valid(s)
    ensures var o := Stoch.Step(s, b).1;
            NextCandle(env, Stoch(s), b) == (Stoch(Stoch.Step(s, b).0), Ok(Array([o.k, o.d])))
  {
  }

  /** The Alligator answers [jaw, teeth, lips]. */
  lemma AlligatorOutputOrder(env: Externals.Env, s: Alligator.AlligatorState, x: real)
    requires Alligator.Valid(s)
    ensures var o := Alligator.Step(s, x).1;
            NextValue(env, Alligator(s), x) == (Alligator(Alligator.Step(s, x).0), Ok(Array([o.jaw, o.teeth, o.lips])))
  {
  }

  /** A single-valued variant forwards the value and wraps the answer as a single value. */
  lemma SinglesForward(env: Externals.Env, ind: Indicator, x: real)
    requires Valid(ind) && Arity(ind) == 1 && !ind.Obv?
    ensures NextValue(env, ind, x).1.Ok? && NextValue(env, ind, x).1.value.Single?
  {
  }

  /** An on-balance volume without a total (a candle without volume first) answers a NaN single. */
  lemma ObvNaN(env: Externals.Env, b: Candles.Bar)
    requires b.volume.None?
    ensures NextCandle(env, Obv(Obv.Create()), b).1 == Ok(SingleNaN)
  {
  }

  // ---------------------------------------------------------------- factories

  function NewNone(): (r: Indicator)
    ensures r == Default()
  {
    Indicator.None
  }

  function NewEma(period: nat): (r: Result<Indicator>)
    ensures r.Ok? <==> period > 0
    ensures r.Err? ==> r.error == InvalidParameter
    ensures r.Ok? ==> r.value == Ema(Ema.Create(period).value) && Valid(r.value)
  {
    match Ema.Create(period)
    case Err(e) => Err(e)
    case Ok(s) => Ok(Ema(s))
  }

  function NewSma(period: nat): (r: Result<Indicator>)
    ensures r.Ok? <==> period > 0
    ensures r.Err? ==> r.error == InvalidParameter
    ensures r.Ok? ==> r.value == Sma(Sma.Create(period).value) && Valid(r.value)
  {
    match Sma.Create(period)
    case Err(e) => Err(e)
    case Ok(s) => Ok(Sma(s))
  }

  function NewRsi(period: nat): (r: Result<Indicator>)
    ensures r.Ok? <==> period > 0
    ensures r.Err? ==> r.error == InvalidParameter
    ensures r.Ok? ==> r.value == Rsi(Rsi.Create(period).value) && Valid(r.value)
  {
    match Rsi.Create(period)
    case Err(e) => Err(e)
    case Ok(s) => Ok(Rsi(s))
  }

  function NewMacd(fast: nat, slow: nat, signal: nat): (r: Result<Indicator>)
    ensures r.Ok? <==> fast > 0 && slow > 0 && signal > 0
    ensures r.Err? ==> r.error == InvalidParameter
    ensures r.Ok? ==> r.value == Macd(Macd.Create(fast, slow, signal).value) && Valid(r.value)
  {
    match Macd.Create(fast, slow, signal)
    case Err(e) => Err(e)
    case Ok(s) => Ok(Macd(s))
  }

  /** `tr()` cannot fail. */
  function NewTr(): (r: Indicator)
    ensures r == Tr(Tr.Create()) && Valid(r)
  {
    Tr(Tr.Create())
  }

  function NewAtr(period: nat): (r: Result<Indicator>)
    ensures r.Ok? <==> period > 0
    ensures r.Err? ==> r.error == InvalidParameter
    ensures r.Ok? ==> r.value == Atr(Atr.Create(period).value) && Valid(r.value)
  {
    match Atr.Create(period)
    case Err(e) => Err(e)
    case Ok(s) => Ok(Atr(s))
  }

  function NewSuperTrend(multiplier: real, period: nat): (r: Result<Indicator>)
    ensures r.Ok? <==> period > 0
    ensures r.Err? ==> r.error == InvalidParameter
    ensures r.Ok? ==> r.value == SuperTrend(SuperTrend.Create(multiplier, period).value) && Valid(r.value)
  {
    match SuperTrend.Create(multiplier, period)
    case Err(e) => Err(e)
    case Ok(s) => Ok(SuperTrend(s))
  }

  function NewBb(period: nat, k: real): (r: Result<Indicator>)
    ensures r.Ok? <==> period > 0
    ensures r.Err? ==> r.error == InvalidParameter
    ensures r.Ok? ==> r.value == Bb(Bb.Create(period, k).value) && Valid(r.value)
  {
    match Bb.Create(period, k)
    case Err(e) => Err(e)
    case Ok(s) => Ok(Bb(s))
  }

  function NewStoch(period: nat, smoothing: nat): (r: Result<Indicator>)
    ensures r.Ok? <==> period > 0 && smoothing > 0
    ensures r.Err? ==> r.error == InvalidParameter
    ensures r.Ok? ==> r.value == Stoch(Stoch.Create(period, smoothing).value) && Valid(r.value)
  {
    match Stoch.Create(period, smoothing)
    case Err(e) => Err(e)
    case Ok(s) => Ok(Stoch(s))
  }

  function NewMae(period: nat): (r: Result<Indicator>)
    ensures r.Ok? <==> period > 0
    ensures r.Err? ==> r.error == InvalidParameter
    ensures r.Ok? ==> r.value == Mae(Mae.Create(period).value) && Valid(r.value)
  {
    match Mae.Create(period)
    case Err(e) => Err(e)
    case Ok(s) => Ok(Mae(s))
  }

  function NewSd(period: nat): (r: Result<Indicator>)
    ensures r.Ok? <==> period > 0
    ensures r.Err? ==> r.error == InvalidParameter
    ensures r.Ok? ==> r.value == Sd(Sd.Create(period).value) && Valid(r.value)
  {
    match Sd.Create(period)
    case Err(e) => Err(e)
    case Ok(s) => Ok(Sd(s))
  }

  function NewKc(period: nat, multiplier: real): (r: Result<Indicator>)
    ensures r.Ok? <==> period > 0
    ensures r.Err? ==> r.error == InvalidParameter
    ensures r.Ok? ==> r.value == Kc(Kc.Create(period, multiplier).value) && Valid(r.value)
  {
    match Kc.Create(period, multiplier)
    case Err(e) => Err(e)
    case Ok(s) => Ok(Kc(s))
  }

  /** `obv()` cannot fail. */
  function NewObv(): (r: Indicator)
    ensures r == Obv(Obv.Create()) && Valid(r)
  {
    Obv(Obv.Create())
  }

  function NewAo(short: nat, long: nat): (r: Result<Indicator>)
    ensures r.Ok? <==> short > 0 && long > 0
    ensures r.Err? ==> r.error == InvalidParameter
    ensures r.Ok? ==> r.value == Ao(Ao.Create(short, long).value) && Valid(r.value)
  {
    match Ao.Create(short, long)
    case Err(e) => Err(e)
    case Ok(s) => Ok(Ao(s))
  }

  function NewWilliamsR(period: nat): (r: Result<Indicator>)
    ensures r.Ok? <==> period > 0
    ensures r.Err? ==> r.error == InvalidParameter
    ensures r.Ok? ==> r.value == WilliamsR(WilliamsR.Create(period).value) && Valid(r.value)
  {
    match WilliamsR.Create(period)
    case Err(e) => Err(e)
    case Ok(s) => Ok(WilliamsR(s))
  }

  function NewSmma(period: nat): (r: Result<Indicator>)
    ensures r.Ok? <==> period >= 2
    ensures r.Err? ==> r.error == InvalidParameter
    ensures r.Ok? ==> r.value == Smma(Smma.Create(period).value) && Valid(r.value)
  {
    match Smma.Create(period)
    case Err(e) => Err(e)
    case Ok(s) => Ok(Smma(s))
  }

  /** RSI(14) from the factory needs 14 inputs of history. */
  lemma RsiFactoryPeriod(env: Externals.Env)
    ensures NewRsi(14).Ok? && Period(env, NewRsi(14).value) == 14
  {
  }

  // ---------------------------------------------------------------- serialisation

  /**
   * The serialised form of an indicator: the variant's tag and what that
   * variant's own serialisation writes, its parameters.  No running state is
   * written; the true range and the pass-through write the tag alone.
   */
  datatype Encoded =
    | NoneForm
    | AlligatorForm(Alligator.AlligatorParams)
    | AoForm(Ao.AoParams)
    | AtrForm(Atr.AtrParams)
    | BbForm(Bb.BbParams)
    | EmaForm(Ema.EmaParams)
    | KcForm(Kc.KcParams)
    | MacdForm(Macd.MacdParams)
    | MaeForm(Mae.MaeParams)
    | ObvForm(Obv.ObvParams)
    | RsiForm(Rsi.RsiParams)
    | SdForm(Sd.SdParams)
    | SmaForm(Sma.SmaParams)
    | SmmaForm(Smma.SmmaParams)
    | StochForm(Stoch.StochParams)
    | SuperTrendForm(SuperTrend.SuperTrendParams)
    | TrForm
    | WilliamsRForm(WilliamsR.WrParams)

  function Encode(ind: Indicator): Encoded
  {
    match ind
    case None => NoneForm
    case Alligator(s) => AlligatorForm(Alligator.Encode(s))
    case Ao(s) => AoForm(Ao.Encode(s))
    case Atr(s) => AtrForm(Atr.Encode(s))
    case Bb(s) => BbForm(Bb.Encode(s))
    case Ema(s) => EmaForm(Ema.Encode(s))
    case Kc(s) => KcForm(Kc.Encode(s))
    case Macd(s) => MacdForm(Macd.Encode(s))
    case Mae(s) => MaeForm(Mae.Encode(s))
    case Obv(s) => ObvForm(Obv.Encode(s))
    case Rsi(s) => RsiForm(Rsi.Encode(s))
    case Sd(s) => SdForm(Sd.Encode(s))
    case Sma(s) => SmaForm(Sma.Encode(s))
    case Smma(s) => SmmaForm(Smma.Encode(s))
    case Stoch(s) => StochForm(Stoch.Encode(s))
    case SuperTrend(s) => SuperTrendForm(SuperTrend.Encode(s))
    case Tr(_) => TrForm
    case WilliamsR(s) => WilliamsRForm(WilliamsR.Encode(s))
  }

  /**
   * Deserialisation: the tag selects the variant and that variant's reader
   * builds it from its parameters.  The SMMA, the stochastic oscillator and
   * the mean absolute error are read through `new` here; `DecodeAsWritten` is
   * the reader with their own deserialisers as the source writes them.
   */
  function Decode(e: Encoded): (r: Result<Indicator>)
    ensures r.Err? ==> r.error == InvalidParameter
    ensures e.NoneForm? ==> r == Ok(Indicator.None)
    ensures e.TrForm? ==> r == Ok(NewTr())
    ensures e.ObvForm? ==> r == Ok(NewObv())
  {
    match e
    case NoneForm => Ok(Indicator.None)
    case AlligatorForm(p) => Alligator.Decode(p).Map(s => Alligator(s))
    case AoForm(p) => Ao.Decode(p).Map(s => Ao(s))
    case AtrForm(p) => Atr.Decode(p).Map(s => Atr(s))
    case BbForm(p) => Bb.Decode(p).Map(s => Bb(s))
    case EmaForm(p) => Ok(Ema(Ema.Decode(p)))
    case KcForm(p) => Kc.Decode(p).Map(s => Kc(s))
    case MacdForm(p) => Macd.Decode(p).Map(s => Macd(s))
    case MaeForm(p) => Mae.Decode(p).Map(s => Mae(s))
    case ObvForm(p) => Ok(Obv(Obv.Decode(p)))
    case RsiForm(p) => Rsi.Decode(p).Map(s => Rsi(s))
    case SdForm(p) => Sd.Decode(p).Map(s => Sd(s))
    case SmaForm(p) => Sma.Decode(p).Map(s => Sma(s))
    case SmmaForm(p) => Smma.Decode(p).Map(s => Smma(s))
    case StochForm(p) => Stoch.Decode(p).Map(s => Stoch(s))
    case SuperTrendForm(p) => SuperTrend.Decode(p).Map(s => SuperTrend(s))
    case TrForm => Ok(NewTr())
    case WilliamsRForm(p) => WilliamsR.Decode(p).Map(s => WilliamsR(s))
  }

  /** The reader with the SMMA's, the oscillator's and the mean absolute error's deserialisers as written. */
  function DecodeAsWritten(e: Encoded): (r: Result<Indicator>)
    ensures !(e.SmmaForm? || e.StochForm? || e.MaeForm?) ==> r == Decode(e)
  {
    match e
    case SmmaForm(p) => Smma.DecodeAsWritten(p).Map(s => Smma(s))
    case StochForm(p) => Stoch.DecodeAsWritten(p).Map(s => Stoch(s))
    case MaeForm(p) => Mae.DecodeAsWritten(p).Map(s => Mae(s))
    case _ => Decode(e)
  }

  /** Writing then reading an indicator gives it back reset: its parameters survive, its running state does not. */
  lemma DecodeEncode(ind: Indicator)
    requires Valid(ind)
    ensures Decode(Encode(ind)) == Ok(Restart(ind))
  {
    match ind
    case Alligator(s) => Alligator.DecodeEncode(s);
    case Ao(s) => Ao.DecodeEncode(s);
    case Atr(s) => Atr.DecodeEncode(s);
    case Bb(s) => Bb.DecodeEncode(s);
    case Ema(s) => Ema.DecodeEncode(s);
    case Kc(s) => Kc.DecodeEncode(s);
    case Macd(s) => Macd.DecodeEncode(s);
    case Mae(s) => Mae.DecodeEncode(s);
    case Obv(s) => Obv.DecodeEncode(s);
    case Rsi(s) => Rsi.DecodeEncode(s);
    case Sd(s) => Sd.DecodeEncode(s);
    case Sma(s) => Sma.DecodeEncode(s);
    case Smma(s) => Smma.DecodeEncode(s);
    case Stoch(s) => Stoch.DecodeEncode(s);
    case SuperTrend(s) => SuperTrend.DecodeEncode(s);
    case WilliamsR(s) => WilliamsR.DecodeEncode(s);
    case _ =>
  }

  /** The written form depends on the parameters alone: a reset indicator writes what it wrote before. */
  lemma EncodeForgetsState(ind: Indicator)
    requires Valid(ind)
    ensures Encode(Restart(ind)) == Encode(ind)
  {
  }

  /** A form that reads back is the form the indicator read writes again. */
  lemma EncodeDecode(e: Encoded)
    requires Decode(e).Ok?
    ensures Encode(Decode(e).value) == e
  {
  }

  /**
   * With the readers as written, a written indicator reads back reset except
   * a smoothed average: it comes back without the zero `new` queues first.
   */
  lemma DecodeAsWrittenEncode(ind: Indicator)
    requires Valid(ind) && !ind.Smma?
    ensures DecodeAsWritten(Encode(ind)) == Ok(Restart(ind))
  {
    DecodeEncode(ind);
  }

  /** The smoothed average of period 2, written and read back as written, is not the one `new` builds. */
  lemma DecodeAsWrittenSmma()
    ensures NewSmma(2).Ok? && DecodeAsWritten(Encode(NewSmma(2).value)).Ok?
    ensures DecodeAsWritten(Encode(NewSmma(2).value)) != Ok(Restart(NewSmma(2).value))
  {
    Smma.DecodeEncode(Smma.Create(2).value);
  }

  // ---------------------------------------------------------------- next_batched

  /** `next_batched`: every value in order, stopping at the first error, which is the result. */
  function FeedValues(env: Externals.Env, ind: Indicator, xs: seq<real>): (r: (Indicator, Result<seq<OutputType>>))
    requires Valid(ind)
    ensures Valid(r.0) && SameVariant(ind, r.0)
    ensures r.1.Ok? ==> |r.1.value| == |xs|
    decreases |xs|
  {
    if |xs| == 0 then (ind, Ok([]))
    else
      var (i1, o) := NextValue(env, ind, xs[0]);
      if o.Err? then (i1, Err(o.error))
      else
        var (i2, rest) := FeedValues(env, i1, xs[1..]);
        if rest.Err? then (i2, rest) else (i2, Ok([o.value] + rest.value))
  }

  /** Outputs gathered so far, put in front of the outcome of the rest. */
  function Prepend(done: seq<OutputType>, rest: Result<seq<OutputType>>): Result<seq<OutputType>>
  {
    if rest.Ok? then Ok(done + rest.value) else rest
  }

  lemma PrependNothing(rest: Result<seq<OutputType>>)
    ensures Prepend([], rest) == rest
  {
    if rest.Ok? {
      assert [] + rest.value == rest.value;
    }
  }

  lemma PrependSnoc(done: seq<OutputType>, o: OutputType, rest: Result<seq<OutputType>>)
    ensures Prepend(done, if rest.Err? then rest else Ok([o] + rest.value)) == Prepend(done + [o], rest)
  {
    if rest.Ok? {
      assert done + ([o] + rest.value) == (done + [o]) + rest.value;
    }
  }

  /** On values the batch fails exactly for the candle-only variants, and then leaves them as they were. */
  lemma {:induction false} FeedValuesOutcome(env: Externals.Env, ind: Indicator, xs: seq<real>)
    requires Valid(ind) && |xs| > 0
    ensures FeedValues(env, ind, xs).1.Err? <==> ind.Stoch? || ind.Obv?
    ensures ind.Stoch? || ind.Obv? ==> FeedValues(env, ind, xs) == (ind, Err(Unexpected))
    decreases |xs|
  {
    if |xs| > 1 && !(ind.Stoch? || ind.Obv?) {
      FeedValuesOutcome(env, NextValue(env, ind, xs[0]).0, xs[1..]);
    }
  }

  /** A refused value ends the batch with its error. */
  lemma FeedStops(env: Externals.Env, cur: Indicator, xs: seq<real>)
    requires Valid(cur) && |xs| > 0 && NextValue(env, cur, xs[0]).1.Err?
    ensures FeedValues(env, cur, xs) == (NextValue(env, cur, xs[0]).0, Err(NextValue(env, cur, xs[0]).1.error))
  {
  }

  /** One successful step of the batch moves its output from the outcome to the outputs gathered. */
  lemma FeedStep(env: Externals.Env, cur: Indicator, xs: seq<real>, done: seq<OutputType>)
    requires Valid(cur) && |xs| > 0 && NextValue(env, cur, xs[0]).1.Ok?
    ensures var (next, o) := NextValue(env, cur, xs[0]);
            && FeedValues(env, cur, xs).0 == FeedValues(env, next, xs[1..]).0
            && Prepend(done, FeedValues(env, cur, xs).1) == Prepend(done + [o.value], FeedValues(env, next, xs[1..]).1)
  {
    var (next, o) := NextValue(env, cur, xs[0]);
    PrependSnoc(done, o.value, FeedValues(env, next, xs[1..]).1);
  }

  /** The batch drives `next` over the values with a loop; the first error ends it. */
  method NextBatched(env: Externals.Env, ind: Indicator, xs: seq<real>) returns (fin: Indicator, r: Result<seq<OutputType>>)
    requires Valid(ind)
    ensures (fin, r) == FeedValues(env, ind, xs)
  {
    var cur := ind;
    var done: seq<OutputType> := [];
    var i := 0;
    assert xs[0..] == xs;
    PrependNothing(FeedValues(env, ind, xs).1);
    while i < |xs|
      invariant 0 <= i <= |xs| && Valid(cur)
      invariant FeedValues(env, ind, xs) == (FeedValues(env, cur, xs[i..]).0, Prepend(done, FeedValues(env, cur, xs[i..]).1))
      decreases |xs| - i
    {
      var (next, o) := NextValue(env, cur, xs[i]);
      assert xs[i..][0] == xs[i] && xs[i..][1..] == xs[i + 1..];
      if o.Err? {
        FeedStops(env, cur, xs[i..]);
        return next, Err(o.error);
      }
      FeedStep(env, cur, xs[i..], done);
      cur, done, i := next, done + [o.value], i + 1;
    }
    assert xs[i..] == [] && done + [] == done;
    fin, r := cur, Ok(done);
  }
}
