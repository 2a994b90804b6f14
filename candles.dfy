/**
 * Candles (src/traits.rs): anything with a price; open, close, high and low
 * default to the price and volume defaults to NaN.  `Bar` is the plain
 * six-field bar of the utility crate (its source is not part of this model);
 * a NaN volume is modelled as an absent one (`None`).
 */
module Candles {
  import opened Wrappers

  datatype Bar = Bar(open: real, high: real, low: real, close: real, price: real, volume: Option<real>)

  /**
   * A `Candle` implementor: the price it must provide and, for every other
   * projection, the value it overrides it with (`None` keeps the trait default).
   */
  datatype Candle = Candle(
    price: real,
    openOverride: Option<real>,
    closeOverride: Option<real>,
    highOverride: Option<real>,
    lowOverride: Option<real>,
    volumeOverride: Option<Option<real>>)

  function Open(c: Candle): real { if c.openOverride.Some? then c.openOverride.value else c.price }

  function Close(c: Candle): real { if c.closeOverride.Some? then c.closeOverride.value else c.price }

  function High(c: Candle): real { if c.highOverride.Some? then c.highOverride.value else c.price }

  function Low(c: Candle): real { if c.lowOverride.Some? then c.lowOverride.value else c.price }

  function Volume(c: Candle): Option<real> { if c.volumeOverride.Some? then c.volumeOverride.value else None }

  /** Copies the six projections of a candle into a bar. */
  function ToBar(c: Candle): (b: Bar)
    ensures b.open == Open(c) && b.high == High(c) && b.low == Low(c)
    ensures b.close == Close(c) && b.price == c.price && b.volume == Volume(c)
  {
    Bar(Open(c), High(c), Low(c), Close(c), c.price, Volume(c))
  }

  /** A candle that provides only its price. */
  function PriceOnly(p: real): Candle { Candle(p, None, None, None, None, None) }

  /** With no overrides every price projection is the price and the volume is absent. */
  lemma DefaultProjections(p: real)
    ensures Open(PriceOnly(p)) == p && Close(PriceOnly(p)) == p
    ensures High(PriceOnly(p)) == p && Low(PriceOnly(p)) == p
    ensures Volume(PriceOnly(p)) == None
    ensures ToBar(PriceOnly(p)) == Bar(p, p, p, p, p, None)
  {
  }

  /** A bar as a candle: it overrides every projection with its own field. */
  function BarCandle(b: Bar): Candle
  {
    Candle(b.price, Some(b.open), Some(b.close), Some(b.high), Some(b.low), Some(b.volume))
  }

  /** Reading a bar's projections back into a bar gives the bar itself. */
  lemma ToBarOfBar(b: Bar)
    ensures ToBar(BarCandle(b)) == b
  {
  }

  /** A candle is determined, for every indicator, by the bar of its projections. */
  lemma ToBarDeterminesProjections(c: Candle, d: Candle)
    requires ToBar(c) == ToBar(d)
    ensures Open(c) == Open(d) && Close(c) == Close(d) && High(c) == High(d) && Low(c) == Low(d)
    ensures c.price == d.price && Volume(c) == Volume(d)
  {
  }

  /** The typical price (high + low + close) / 3 of a bar. */
  function TypicalPrice(b: Bar): real { (b.high + b.low + b.close) / 3.0 }

  /** The bar of a single value: every price projection is that value, no volume. */
  function ValueBar(x: real): Bar { Bar(x, x, x, x, x, None) }

  /** Each bar's low is at most its close, which is at most its high. */
  predicate Ordered(b: Bar) { b.low <= b.close <= b.high }
}
