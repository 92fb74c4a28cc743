/** The per-symbol price store and signal check of src/core/market_manager.cpp.
    update_tick hands process_symbol to a thread pool; here it is a direct call, and
    the lock around the map is left out. The signal, which the source only logs, is
    returned. */
module MarketData {
  import opened Wrappers
  import opened IndicatorMath
  import opened Indicators
  import opened PriceSeries

  /** Fewest prices before a signal is looked for (the slowest indicator, MACD 26). */
  const MinSignalSamples: nat := 26
  /** The RSI window and the Bollinger window and multiplier used by process_symbol. */
  const RsiWindow: int := 14
  const BandWindow: int := 20
  const BandWidth: real := 2.0

  // ---------------------------------------------------------------- the abstract store

  /** Every stored series is non-empty and within the default bound. */
  ghost predicate WellFormed(series: map<string, seq<real>>) {
    forall k | k in series :: 0 < |series[k]| <= DefaultMaxSize
  }

  /** process_symbol on the store: market_data[symbol] creates an empty series for a new
      symbol, and add_price appends with the default bound. */
  function ProcessSeries(series: map<string, seq<real>>, symbol: string, price: real): map<string, seq<real>>
  {
    var old_ := if symbol in series then series[symbol] else [];
    series[symbol := AppendBounded(old_, price, DefaultMaxSize)]
  }

  /** get_last_price on the store: the newest price, 0.0 for an unknown symbol. */
  function LastPrice(series: map<string, seq<real>>, symbol: string): real
    requires symbol in series ==> series[symbol] != []
  {
    if symbol in series then series[symbol][|series[symbol]| - 1] else 0.0
  }

  /** The signal process_symbol computes from a snapshot: HOLD (0) below 26 prices,
      otherwise the classifier on RSI(14) and Bollinger(20, 2.0). */
  function SignalFor(snapshot: seq<real>, sqrt: real -> real): int
  {
    if |snapshot| >= MinSignalSamples then
      ComputeSignals(Rsi(snapshot, RsiWindow), snapshot,
                     Bollinger(snapshot, BandWindow, BandWidth, sqrt, UpperBand),
                     Bollinger(snapshot, BandWindow, BandWidth, sqrt, LowerBand))
    else 0
  }

  /** process_symbol touches only the processed symbol: it is stored afterwards with
      the new price last, a known symbol under its bound just gains that price, a new
      one holds it alone, and every other symbol keeps its series. */
  lemma ProcessSeriesUpdatesOnlySymbol(series: map<string, seq<real>>, symbol: string, price: real)
    ensures var r := ProcessSeries(series, symbol, price);
      && r.Keys == series.Keys + {symbol}
      && |r[symbol]| > 0 && r[symbol][|r[symbol]| - 1] == price
      && (symbol !in series ==> r[symbol] == [price])
      && (symbol in series && |series[symbol]| < DefaultMaxSize ==> r[symbol] == series[symbol] + [price])
      && (symbol in series && |series[symbol]| == DefaultMaxSize ==> r[symbol] == series[symbol][1..] + [price])
      && (forall k | k in series && k != symbol :: r[k] == series[k])
  {
  }

  /** process_symbol keeps every series non-empty and within 200 prices. */
  lemma ProcessSeriesKeepsWellFormed(series: map<string, seq<real>>, symbol: string, price: real)
    requires WellFormed(series)
    ensures WellFormed(ProcessSeries(series, symbol, price))
  {
  }

  /** After process_symbol, get_last_price of that symbol reads back the new price, and
      for every other symbol what it read before. */
  lemma LastPriceAfterProcess(series: map<string, seq<real>>, symbol: string, price: real, other: string)
    requires WellFormed(series)
    ensures WellFormed(ProcessSeries(series, symbol, price))
    ensures LastPrice(ProcessSeries(series, symbol, price), symbol) == price
    ensures other != symbol ==> LastPrice(ProcessSeries(series, symbol, price), other) == LastPrice(series, other)
  {
    ProcessSeriesKeepsWellFormed(series, symbol, price);
  }

  /** The signal check: HOLD below 26 prices; from 26 on the RSI and both bands at the
      last index are defined, the RSI lies in [0, 100], the bands are ordered when the
      square root is never negative, and the signal is BUY exactly when RSI < 30 with the
      price under the lower band, SELL exactly when RSI > 70 with the price over the
      upper band. */
  lemma SignalForFacts(snapshot: seq<real>, sqrt: real -> real)
    ensures SignalFor(snapshot, sqrt) in {-1, 0, 1}
    ensures |snapshot| < MinSignalSamples ==> SignalFor(snapshot, sqrt) == 0
    ensures |snapshot| >= MinSignalSamples ==>
      var last := |snapshot| - 1;
      var rsi := Rsi(snapshot, RsiWindow)[last];
      var upper := Bollinger(snapshot, BandWindow, BandWidth, sqrt, UpperBand)[last];
      var lower := Bollinger(snapshot, BandWindow, BandWidth, sqrt, LowerBand)[last];
      && rsi.Some? && upper.Some? && lower.Some?
      && 0.0 <= rsi.value <= 100.0
      && ((forall x: real :: x >= 0.0 ==> sqrt(x) >= 0.0) ==> lower.value <= upper.value)
      && (SignalFor(snapshot, sqrt) == 1 <==> rsi.value < 30.0 && snapshot[last] < lower.value)
      && (SignalFor(snapshot, sqrt) == -1 <==> rsi.value > 70.0 && snapshot[last] > upper.value)
  {
    if |snapshot| >= MinSignalSamples {
      var last := |snapshot| - 1;
      RsiShapeAndRange(snapshot, RsiWindow);
      assert Rsi(snapshot, RsiWindow)[last].Some?;
      assert BollingerAt(snapshot, BandWindow, BandWidth, sqrt, last).Some?;
      if forall x: real :: x >= 0.0 ==> sqrt(x) >= 0.0 {
        BollingerBandsOrdered(snapshot, BandWindow, BandWidth, sqrt);
      }
    }
  }

  // ---------------------------------------------------------------- the objects

  /** AssetData: the price vector of one symbol, changed in place by add_price. */
  class AssetData {
    var prices: seq<real>

    constructor()
      ensures prices == []
    {
      prices := [];
    }

    /** push_back, then erase the front element when the vector grew past maxSize. */
    method AddPrice(price: real, maxSize: nat)
      modifies this
      ensures prices == AppendBounded(old(prices), price, maxSize)
    {
      prices := prices + [price];
      if |prices| > maxSize {
        prices := prices[1..];
      }
    }
  }

  /** MarketManager: the map from symbol to its AssetData. */
  class MarketManager {
    var marketData: map<string, AssetData>

    /** Each symbol owns its own AssetData, and every stored series is well formed. */
    ghost predicate Valid()
      reads this, marketData.Values
    {
      Distinct() && WellFormed(Series())
    }

    /** No two symbols share an AssetData. */
    ghost predicate Distinct()
      reads this
    {
      forall a, b | a in marketData && b in marketData && a != b :: marketData[a] != marketData[b]
    }

    /** The stored series by symbol. */
    ghost function Series(): map<string, seq<real>>
      reads this, marketData.Values
    {
      map k | k in marketData :: marketData[k].prices
    }

    /** A new manager stores nothing (the thread count only sizes the pool). */
    constructor(numThreads: nat)
      ensures Valid()
      ensures Series() == map[]
    {
      marketData := map[];
    }

    /** process_symbol: add the price to the symbol's series (creating it when new), take
        the snapshot, and when it holds at least 26 prices classify it with RSI(14) and
        Bollinger(20, 2.0). The signal is the logged outcome; the store is not touched
        by the signal check. */
    method ProcessSymbol(symbol: string, price: real, sqrt: real -> real) returns (signal: int)
      requires Valid()
      modifies this, marketData.Values
      ensures Valid()
      ensures Series() == ProcessSeries(old(Series()), symbol, price)
      ensures signal == SignalFor(Series()[symbol], sqrt)
    {
      var snapshot := AddToSymbol(symbol, price);
      signal := CheckSnapshot(snapshot, sqrt);
    }

    /** The critical section of process_symbol: market_data[symbol] (a new, empty
        AssetData when the symbol is unknown), add_price, and the copy of the series. */
    method AddToSymbol(symbol: string, price: real) returns (snapshot: seq<real>)
      requires Valid()
      modifies this, marketData.Values
      ensures Valid()
      ensures Series() == ProcessSeries(old(Series()), symbol, price)
      ensures symbol in Series() && snapshot == Series()[symbol]
    {
      ghost var before := Series();
      if symbol !in marketData {
        var data := new AssetData();
        marketData := marketData[symbol := data];
      }
      assert Series() == before[symbol := if symbol in before then before[symbol] else []];
      snapshot := AddToKnown(symbol, price, before);
    }

    /** add_price on the AssetData now stored for the symbol. Only its series changes,
        because no other symbol shares that AssetData. */
    method AddToKnown(symbol: string, price: real, ghost before: map<string, seq<real>>) returns (snapshot: seq<real>)
      requires symbol in marketData && Distinct() && WellFormed(before)
      requires Series() == before[symbol := if symbol in before then before[symbol] else []]
      modifies marketData[symbol]
      ensures Valid()
      ensures Series() == ProcessSeries(before, symbol, price)
      ensures symbol in Series() && snapshot == Series()[symbol]
    {
      var data := marketData[symbol];
      assert forall k | k in marketData && k != symbol :: marketData[k] != data;
      data.AddPrice(price, DefaultMaxSize);
      ghost var after := ProcessSeries(before, symbol, price);
      assert Series().Keys == after.Keys;
      forall k | k in after
        ensures Series()[k] == after[k]
      {
      }
      ProcessSeriesKeepsWellFormed(before, symbol, price);
      snapshot := data.prices;
    }

    /** update_tick, run synchronously instead of on the pool. */
    method UpdateTick(symbol: string, price: real, sqrt: real -> real)
      requires Valid()
      modifies this, marketData.Values
      ensures Valid()
      ensures Series() == ProcessSeries(old(Series()), symbol, price)
    {
      var _ := ProcessSymbol(symbol, price, sqrt);
    }

    /** get_last_price: the newest stored price of the symbol, 0.0 when it is unknown. */
    function GetLastPrice(symbol: string): (price: real)
      reads this, marketData.Values
      requires Valid()
      ensures price == LastPrice(Series(), symbol)
    {
      if symbol in marketData then
        var prices := marketData[symbol].prices;
        assert prices == Series()[symbol];
        prices[|prices| - 1]
      else 0.0
    }
  }

  /** The signal check on a snapshot, outside the critical section; it reads nothing
      but the snapshot. */
  method CheckSnapshot(snapshot: seq<real>, sqrt: real -> real) returns (signal: int)
    ensures signal == SignalFor(snapshot, sqrt)
  {
    signal := 0;
    if |snapshot| >= MinSignalSamples {
      var rsi := ComputeRsi(snapshot, RsiWindow);
      var upper, middle, lower := ComputeBollingerBands(snapshot, BandWindow, BandWidth, sqrt);
      signal := ComputeSignals(rsi, snapshot, upper, lower);
    }
  }
}
