/** Market data handed to strategies (src/strategy/market_data.rs). */
module MarketData {
  import opened Wrappers
  import Candles

  datatype MarketData = Bar(bar: Candles.Bar) | Float(value: real)

  function Open(d: MarketData): real { match d case Bar(b) => b.open case Float(v) => v }

  function Close(d: MarketData): real { match d case Bar(b) => b.close case Float(v) => v }

  function High(d: MarketData): real { match d case Bar(b) => b.high case Float(v) => v }

  function Low(d: MarketData): real { match d case Bar(b) => b.low case Float(v) => v }

  function Price(d: MarketData): real { match d case Bar(b) => b.price case Float(v) => v }

  function Volume(d: MarketData): Option<real> { match d case Bar(b) => b.volume case Float(_) => None }

  function TypicalPrice(d: MarketData): real
  {
    match d case Bar(b) => Candles.TypicalPrice(b) case Float(v) => v
  }

  /** Market data as a candle: it overrides every projection. */
  function AsCandle(d: MarketData): Candles.Candle
  {
    Candles.Candle(Price(d), Some(Open(d)), Some(Close(d)), Some(High(d)), Some(Low(d)), Some(Volume(d)))
  }

  /** The bar an indicator sees when it is fed market data. */
  function ToBar(d: MarketData): (b: Candles.Bar)
    ensures b == Candles.ToBar(AsCandle(d))
  {
    Candles.Bar(Open(d), High(d), Low(d), Close(d), Price(d), Volume(d))
  }

  /** A float is a bar whose every price is that value and whose volume is absent. */
  lemma FloatProjections(v: real)
    ensures ToBar(Float(v)) == Candles.ValueBar(v)
    ensures TypicalPrice(Float(v)) == v
    ensures Volume(Float(v)) == None
  {
  }

  /** A wrapped bar answers every projection with the bar's own field. */
  lemma BarDelegates(b: Candles.Bar)
    ensures ToBar(Bar(b)) == b
    ensures TypicalPrice(Bar(b)) == Candles.TypicalPrice(b)
  {
  }
}
