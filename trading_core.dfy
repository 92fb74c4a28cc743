/** The legacy array indicators of src/trading_core.cpp. Each one allocates an output
    buffer without initialising it, writes the undefined sentinel over the part the
    source fills (std::fill with quiet NaN), and then runs the same running-state loops
    as the vector indicators, whose loop bodies are shared with module Indicators. */
module TradingCore {
  import opened Wrappers
  import opened IndicatorMath
  import opened Indicators

  /** std::fill(a + lo, a + hi, NaN): exactly the positions lo..hi-1 become undefined. */
  method FillNaN(a: array<Option<real>>, lo: int, hi: int)
    requires 0 <= lo <= hi <= a.Length
    modifies a
    ensures forall j | 0 <= j < a.Length :: a[j] == if lo <= j < hi then None else old(a[j])
  {
    var i := lo;
    while i < hi
      invariant lo <= i <= hi
      invariant forall j | 0 <= j < a.Length :: a[j] == if lo <= j < i then None else old(a[j])
    {
      a[i] := None;
      i := i + 1;
    }
  }

  /** calculate_sma_cpp: the whole buffer is undefined first; a window longer than the
      input returns it as it is. */
  method CalculateSma(input: seq<real>, window: int) returns (result: array<Option<real>>)
    requires window >= 1
    ensures fresh(result)
    ensures result[..] == Sma(input, window)
  {
    var size := |input|;
    result := new Option<real>[size];
    FillNaN(result, 0, size);
    if size < window {
      return;
    }
    FillSma(input, window, result);
  }

  /** calculate_ema_cpp: no sentinel at all; the recurrence writes every position. */
  method CalculateEma(input: seq<real>, window: int) returns (result: array<real>)
    requires window != -1
    ensures fresh(result)
    ensures result[..] == Ema(input, EmaAlpha(window))
  {
    var size := |input|;
    result := new real[size];
    if size == 0 {
      return;
    }
    FillEma(input, EmaAlpha(window), result);
  }

  /** calculate_rsi_cpp: a window at least as long as the input leaves every position
      undefined; otherwise only the first `window` positions are filled with the
      sentinel before the seeded and smoothed averages write the rest. */
  method CalculateRsi(input: seq<real>, window: int) returns (result: array<Option<real>>)
    requires window >= 1
    ensures fresh(result)
    ensures result[..] == Rsi(input, window)
  {
    var size := |input|;
    result := new Option<real>[size];
    if size <= window {
      FillNaN(result, 0, size);
      return;
    }
    FillNaN(result, 0, window);
    var avgGain, avgLoss := SeedAverages(input, window);
    AveragesNonNegative(input, window, window);
    result[window] := Some(RsiValue(avgGain, avgLoss));
    SmoothRsi(input, window, avgGain, avgLoss, result);
  }

  /** calculate_bollinger_bands_cpp: three buffers filled with the sentinel, then the
      first window and the sliding window of sums and sums of squares. */
  method CalculateBollingerBands(input: seq<real>, window: int, k: real, sqrt: real -> real)
    returns (upper: array<Option<real>>, middle: array<Option<real>>, lower: array<Option<real>>)
    requires window >= 1
    ensures fresh(upper) && fresh(middle) && fresh(lower)
    ensures upper[..] == Bollinger(input, window, k, sqrt, UpperBand)
    ensures middle[..] == Bollinger(input, window, k, sqrt, MiddleBand)
    ensures lower[..] == Bollinger(input, window, k, sqrt, LowerBand)
  {
    var size := |input|;
    upper := new Option<real>[size];
    middle := new Option<real>[size];
    lower := new Option<real>[size];
    FillNaN(upper, 0, size);
    FillNaN(middle, 0, size);
    FillNaN(lower, 0, size);
    if size < window {
      return;
    }
    FillBands(input, window, k, sqrt, upper, middle, lower);
  }

  /** calculate_macd_cpp: an empty input returns two empty buffers; otherwise both are
      filled with the sentinel, the MACD line is written, and the signal line follows
      the EMA recurrence over it with no check for undefined values. */
  method CalculateMacd(input: seq<real>, fastPeriod: int, slowPeriod: int, signalPeriod: int)
    returns (macdLine: array<Option<real>>, signalLine: array<Option<real>>)
    requires fastPeriod != -1 && slowPeriod != -1 && signalPeriod != -1
    ensures fresh(macdLine) && fresh(signalLine)
    ensures macdLine.Length == signalLine.Length == |input|
    ensures forall i | 0 <= i < |input| ::
      macdLine[i] == Some(MacdLine(input, EmaAlpha(fastPeriod), EmaAlpha(slowPeriod))[i])
    ensures forall i | 0 <= i < |input| ::
      signalLine[i] == Some(EmaAt(MacdLine(input, EmaAlpha(fastPeriod), EmaAlpha(slowPeriod)), EmaAlpha(signalPeriod), i))
  {
    var size := |input|;
    macdLine := new Option<real>[size];
    signalLine := new Option<real>[size];
    if size == 0 {
      return;
    }
    FillNaN(macdLine, 0, size);
    FillNaN(signalLine, 0, size);
    var alphaFast := EmaAlpha(fastPeriod);
    var alphaSlow := EmaAlpha(slowPeriod);
    FillMacdLine(input, alphaFast, alphaSlow, macdLine);
    FillSignalLineUnguarded(macdLine, EmaAlpha(signalPeriod), signalLine, MacdLine(input, alphaFast, alphaSlow));
  }

  /** The legacy signal line: seeded from the first MACD value and advanced at every
      index. Every MACD value is defined here, so reading it is safe. */
  method FillSignalLineUnguarded(macdArr: array<Option<real>>, alphaSig: real, signalArr: array<Option<real>>, ghost line: seq<real>)
    requires macdArr != signalArr
    requires 0 < |line| == macdArr.Length == signalArr.Length
    requires forall j | 0 <= j < |line| :: macdArr[j] == Some(line[j])
    modifies signalArr
    ensures forall j | 0 <= j < |line| :: signalArr[j] == Some(EmaAt(line, alphaSig, j))
  {
    signalArr[0] := macdArr[0];
    var i := 1;
    while i < signalArr.Length
      invariant 1 <= i <= signalArr.Length
      invariant forall j | 0 <= j < i :: signalArr[j] == Some(EmaAt(line, alphaSig, j))
    {
      assert signalArr[i - 1] == Some(EmaAt(line, alphaSig, i - 1)) && macdArr[i] == Some(line[i]);
      ghost var prefix := signalArr[..i];
      signalArr[i] := Some(Blend(macdArr[i].value, signalArr[i - 1].value, alphaSig, 1.0 - alphaSig));
      assert signalArr[..i] == prefix && signalArr[i] == Some(EmaAt(line, alphaSig, i));
      i := i + 1;
    }
  }

  /** check_signals_cpp: reads the last index of a non-empty RSI series. An undefined
      RSI compares false both ways and gives HOLD (0); BUY (1) when oversold below the
      lower band, SELL (-1) when overbought above the upper band. */
  function CheckSignals(rsi: seq<Option<real>>, price: seq<real>, upper: seq<Option<real>>, lower: seq<Option<real>>): (signal: int)
    requires |rsi| > 0
    requires Below(rsi[|rsi| - 1], Some(30.0)) ==> |price| >= |rsi| && |lower| >= |rsi|
    requires Above(rsi[|rsi| - 1], Some(70.0)) ==> |price| >= |rsi| && |upper| >= |rsi|
    ensures signal == 1 || signal == 0 || signal == -1
    ensures rsi[|rsi| - 1].None? ==> signal == 0
    ensures signal == 1 <==>
      Below(rsi[|rsi| - 1], Some(30.0)) && Below(Some(price[|rsi| - 1]), lower[|rsi| - 1])
    ensures signal == -1 <==>
      Above(rsi[|rsi| - 1], Some(70.0)) && Above(Some(price[|rsi| - 1]), upper[|rsi| - 1])
  {
    var last := |rsi| - 1;
    if rsi[last].Some? && rsi[last].value < 30.0 && lower[last].Some? && price[last] < lower[last].value then 1
    else if rsi[last].Some? && rsi[last].value > 70.0 && upper[last].Some? && price[last] > upper[last].value then -1
    else 0
  }

  /** On every non-empty input the legacy classifier and the vector one agree. */
  lemma CheckSignalsAgreesWithComputeSignals(rsi: seq<Option<real>>, price: seq<real>, upper: seq<Option<real>>, lower: seq<Option<real>>)
    requires |rsi| > 0
    requires Below(rsi[|rsi| - 1], Some(30.0)) ==> |price| >= |rsi| && |lower| >= |rsi|
    requires Above(rsi[|rsi| - 1], Some(70.0)) ==> |price| >= |rsi| && |upper| >= |rsi|
    ensures CheckSignals(rsi, price, upper, lower) == ComputeSignals(rsi, price, upper, lower)
  {
  }
}
