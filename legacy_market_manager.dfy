/** The legacy copy of the price store, src/market_manager.cpp. Its add_price and map
    handling are those of the vector version, so the AssetData class, the abstract
    store and the signal check of module MarketData are shared; the manager itself is
    its own class. The signal, which the source prints, is returned. */
module LegacyMarketData {
  import M = MarketData
  import opened PriceSeries

  /** MarketManager: the map from symbol to its AssetData. */
  class MarketManager {
    var marketData: map<string, M.AssetData>

    /** Each symbol owns its own AssetData, and every stored series is well formed. */
    ghost predicate Valid()
      reads this, marketData.Values
    {
      Distinct() && M.WellFormed(Series())
    }

    /** No two symbols share an AssetData. */
    ghost predicate Distinct()
      reads this
    {
      forall a, b | a in marketData && b in marketData && a != b :: marketData[a] != marketData[b]
    }

    /** The stored series by symbol. */
    ghost function Series(): map<string, seq<real>>
      reads this, marketData.Values
    {
      map k | k in marketData :: marketData[k].prices
    }

    /** A new manager stores nothing (the thread count only sizes the pool). */
    constructor(numThreads: nat)
      ensures Valid()
      ensures Series() == map[]
    {
      marketData := map[];
    }

    /** process_symbol: add the price to the symbol's series (creating it when new), take
        the snapshot, and when it holds at least 26 prices classify it with RSI(14) and
        Bollinger(20, 2.0). The signal is what the source prints; the store is not
        touched by the signal check. */
    method ProcessSymbol(symbol: string, price: real, sqrt: real -> real) returns (signal: int)
      requires Valid()
      modifies this, marketData.Values
      ensures Valid()
      ensures Series() == M.ProcessSeries(old(Series()), symbol, price)
      ensures signal == M.SignalFor(Series()[symbol], sqrt)
    {
      var snapshot := AddToSymbol(symbol, price);
      signal := M.CheckSnapshot(snapshot, sqrt);
    }

    /** The critical section of process_symbol: market_data[symbol] (a new, empty
        AssetData when the symbol is unknown), add_price, and the copy of the series. */
    method AddToSymbol(symbol: string, price: real) returns (snapshot: seq<real>)
      requires Valid()
      modifies this, marketData.Values
      ensures Valid()
      ensures Series() == M.ProcessSeries(old(Series()), symbol, price)
      ensures symbol in Series() && snapshot == Series()[symbol]
    {
      ghost var before := Series();
      if symbol !in marketData {
        var data := new M.AssetData();
        marketData := marketData[symbol := data];
      }
      assert Series() == before[symbol := if symbol in before then before[symbol] else []];
      snapshot := AddToKnown(symbol, price, before);
    }

    /** add_price on the AssetData now stored for the symbol. Only its series changes,
        because no other symbol shares that AssetData. */
    method AddToKnown(symbol: string, price: real, ghost before: map<string, seq<real>>) returns (snapshot: seq<real>)
      requires symbol in marketData && Distinct() && M.WellFormed(before)
      requires Series() == before[symbol := if symbol in before then before[symbol] else []]
      modifies marketData[symbol]
      ensures Valid()
      ensures Series() == M.ProcessSeries(before, symbol, price)
      ensures symbol in Series() && snapshot == Series()[symbol]
    {
      var data := marketData[symbol];
      assert forall k | k in marketData && k != symbol :: marketData[k] != data;
      data.AddPrice(price, DefaultMaxSize);
      ghost var after := M.ProcessSeries(before, symbol, price);
      assert Series().Keys == after.Keys;
      forall k | k in after
        ensures Series()[k] == after[k]
      {
      }
      M.ProcessSeriesKeepsWellFormed(before, symbol, price);
      snapshot := data.prices;
    }

    /** update_tick, run synchronously instead of on the pool. */
    method UpdateTick(symbol: string, price: real, sqrt: real -> real)
      requires Valid()
      modifies this, marketData.Values
      ensures Valid()
      ensures Series() == M.ProcessSeries(old(Series()), symbol, price)
    {
      var _ := ProcessSymbol(symbol, price, sqrt);
    }

    /** get_last_price: the newest stored price of the symbol, 0.0 when it is unknown. */
    function GetLastPrice(symbol: string): (price: real)
      reads this, marketData.Values
      requires Valid()
      ensures price == M.LastPrice(Series(), symbol)
    {
      if symbol in marketData then
        var prices := marketData[symbol].prices;
        assert prices == Series()[symbol];
        prices[|prices| - 1]
      else 0.0
    }
  }

}
