/** The vector indicators of src/core/indicators.cpp. Each method fills a fresh
    output buffer with the running-state loop of the source and is proved equal,
    position by position, to the reference definitions of IndicatorMath. */
module Indicators {
  import opened Wrappers
  import opened IndicatorMath

  /** Simple moving average by a running window sum. A negative window converts to a
      huge unsigned size, so the early return leaves everything undefined. */
  method ComputeSma(input: seq<real>, window: int) returns (result: seq<Option<real>>)
    requires window != 0
    ensures result == Sma(input, window)
  {
    var size := |input|;
    var out := new Option<real>[size](_ => None);
    if window < 0 || size < window {
      return out[..];
    }
    FillSma(input, window, out);
    result := out[..];
  }

  /** The defined part of the SMA, written into a buffer whose first window - 1
      positions are already undefined: the mean of the first window (std::accumulate),
      then the running sum slides one step per index. */
  method FillSma(input: seq<real>, window: int, out: array<Option<real>>)
    requires 1 <= window <= |input| == out.Length
    requires forall j | 0 <= j < window - 1 :: out[j] == None
    modifies out
    ensures out[..] == Sma(input, window)
  {
    var currentSum := SumRange(input, 0, window);
    out[window - 1] := Some(currentSum / window as real);
    var i := window;
    while i < |input|
      invariant window <= i <= |input|
      invariant currentSum == SumRange(input, i - window, i)
      invariant forall j | 0 <= j < i :: out[j] == SmaAt(input, window, j)
    {
      SumRangeSlide(input, i - window, i);
      currentSum := currentSum + (input[i] - input[i - window]);
      ghost var prefix := out[..i];
      out[i] := Some(currentSum / window as real);
      assert out[..i] == prefix && out[i] == SmaAt(input, window, i);
      i := i + 1;
    }
  }

  /** Exponential moving average: seeded with the first input, then alpha = 2/(window+1). */
  method ComputeEma(input: seq<real>, window: int) returns (result: seq<real>)
    requires window != -1
    ensures |result| == |input|
    ensures result == Ema(input, EmaAlpha(window))
  {
    var size := |input|;
    var out := new real[size](_ => 0.0);
    if size == 0 {
      return out[..];
    }
    FillEma(input, EmaAlpha(window), out);
    result := out[..];
  }

  /** The EMA recurrence over a buffer as long as the input: seeded with the first
      value, then each value blends the input with the previous value. */
  method FillEma(input: seq<real>, alpha: real, out: array<real>)
    requires 0 < |input| == out.Length
    modifies out
    ensures out[..] == Ema(input, alpha)
  {
    var beta := 1.0 - alpha;
    out[0] := input[0];
    var i := 1;
    while i < |input|
      invariant 1 <= i <= |input|
      invariant forall j | 0 <= j < i :: out[j] == EmaAt(input, alpha, j)
    {
      assert out[i - 1] == EmaAt(input, alpha, i - 1);
      ghost var prefix := out[..i];
      out[i] := Blend(input[i], out[i - 1], alpha, beta);
      assert out[..i] == prefix && out[i] == EmaAt(input, alpha, i);
      i := i + 1;
    }
  }

  /** Wilder RSI: the first `window` price changes seed the averages, later changes
      are smoothed with alpha = 1/window. A negative window leaves everything undefined. */
  method ComputeRsi(input: seq<real>, window: int) returns (rsi: seq<Option<real>>)
    requires window != 0
    ensures rsi == Rsi(input, window)
  {
    var size := |input|;
    var out := new Option<real>[size](_ => None);
    if window < 0 || size <= window {
      return out[..];
    }
    var avgGain, avgLoss := SeedAverages(input, window);
    AveragesNonNegative(input, window, window);
    out[window] := Some(RsiValue(avgGain, avgLoss));
    SmoothRsi(input, window, avgGain, avgLoss, out);
    rsi := out[..];
  }

  /** The first averages: sums of the first `window` gains and losses, divided by window. */
  method SeedAverages(input: seq<real>, window: int) returns (avgGain: real, avgLoss: real)
    requires 1 <= window < |input|
    ensures avgGain == AvgGain(input, window, window) && avgLoss == AvgLoss(input, window, window)
  {
    avgGain, avgLoss := 0.0, 0.0;
    var i := 1;
    while i <= window
      invariant 1 <= i <= window + 1
      invariant avgGain == SeedGain(input, i - 1) && avgLoss == SeedLoss(input, i - 1)
    {
      var diff := input[i] - input[i - 1];
      if diff >= 0.0 {
        avgGain := avgGain + diff;
      } else {
        avgLoss := avgLoss - diff;
      }
      i := i + 1;
    }
    avgGain := avgGain / window as real;
    avgLoss := avgLoss / window as real;
  }

  /** Wilder smoothing from index window + 1 on, into a buffer whose positions up to
      window are already final. */
  method SmoothRsi(input: seq<real>, window: int, avgGain: real, avgLoss: real, out: array<Option<real>>)
    requires 1 <= window < |input| == out.Length
    requires avgGain == AvgGain(input, window, window) && avgLoss == AvgLoss(input, window, window)
    requires forall j | 0 <= j <= window :: out[j] == RsiAt(input, window, j)
    modifies out
    ensures out[..] == Rsi(input, window)
  {
    var alpha := 1.0 / window as real;
    var runGain, runLoss := avgGain, avgLoss;
    var i := window + 1;
    while i < |input|
      invariant window + 1 <= i <= |input|
      invariant runGain == AvgGain(input, window, i - 1) && runLoss == AvgLoss(input, window, i - 1)
      invariant forall j | 0 <= j < i :: out[j] == RsiAt(input, window, j)
    {
      var diff := input[i] - input[i - 1];
      var gain := Max(0.0, diff);
      var loss := Max(0.0, -diff);
      runGain := Blend(gain, runGain, alpha, 1.0 - alpha);
      runLoss := Blend(loss, runLoss, alpha, 1.0 - alpha);
      AveragesNonNegative(input, window, i);
      ghost var prefix := out[..i];
      out[i] := Some(RsiValue(runGain, runLoss));
      assert out[..i] == prefix && out[i] == RsiAt(input, window, i);
      i := i + 1;
    }
  }

  /** Bollinger Bands from a running sum and sum of squares over the window. */
  method ComputeBollingerBands(input: seq<real>, window: int, k: real, sqrt: real -> real)
    returns (upper: seq<Option<real>>, middle: seq<Option<real>>, lower: seq<Option<real>>)
    requires window >= 1
    ensures upper == Bollinger(input, window, k, sqrt, UpperBand)
    ensures middle == Bollinger(input, window, k, sqrt, MiddleBand)
    ensures lower == Bollinger(input, window, k, sqrt, LowerBand)
  {
    var size := |input|;
    var upperArr := new Option<real>[size](_ => None);
    var midArr := new Option<real>[size](_ => None);
    var lowerArr := new Option<real>[size](_ => None);
    if size < window {
      return upperArr[..], midArr[..], lowerArr[..];
    }
    FillBands(input, window, k, sqrt, upperArr, midArr, lowerArr);
    upper, middle, lower := upperArr[..], midArr[..], lowerArr[..];
  }

  /** The defined part of the bands, written into three buffers that are undefined
      everywhere: the first window, its bands, then the sliding loop. */
  method FillBands(input: seq<real>, window: int, k: real, sqrt: real -> real,
                   upperArr: array<Option<real>>, midArr: array<Option<real>>, lowerArr: array<Option<real>>)
    requires 1 <= window <= |input|
    requires upperArr.Length == midArr.Length == lowerArr.Length == |input|
    requires upperArr != midArr && midArr != lowerArr && upperArr != lowerArr
    requires forall j | 0 <= j < |input| :: upperArr[j] == None && midArr[j] == None && lowerArr[j] == None
    modifies upperArr, midArr, lowerArr
    ensures upperArr[..] == Bollinger(input, window, k, sqrt, UpperBand)
    ensures midArr[..] == Bollinger(input, window, k, sqrt, MiddleBand)
    ensures lowerArr[..] == Bollinger(input, window, k, sqrt, LowerBand)
  {
    var sum, sumSq := FirstWindow(input, window);
    ghost var upperSpec := Bollinger(input, window, k, sqrt, UpperBand);
    ghost var midSpec := Bollinger(input, window, k, sqrt, MiddleBand);
    ghost var lowerSpec := Bollinger(input, window, k, sqrt, LowerBand);
    assert upperArr[..] == UpTo(upperSpec, window - 1);
    assert midArr[..] == UpTo(midSpec, window - 1);
    assert lowerArr[..] == UpTo(lowerSpec, window - 1);
    ComputeBands(upperArr, midArr, lowerArr, window - 1, sum, sumSq, window, k, sqrt, input);
    UpToStep(upperSpec, window - 1);
    UpToStep(midSpec, window - 1);
    UpToStep(lowerSpec, window - 1);
    SlideBands(upperArr, midArr, lowerArr, sum, sumSq, window, k, sqrt, input);
  }

  /** Sum and sum of squares of the first window. */
  method FirstWindow(input: seq<real>, window: int) returns (sum: real, sumSq: real)
    requires 1 <= window <= |input|
    ensures WindowSums(input, window, window, sum, sumSq)
  {
    sum, sumSq := 0.0, 0.0;
    var i := 0;
    while i < window
      invariant 0 <= i <= window
      invariant sum == SumRange(input, 0, i) && sumSq == SumSquares(input, 0, i)
    {
      sum := sum + input[i];
      sumSq := sumSq + Square(input[i]);
      i := i + 1;
    }
  }

  /** The sliding part of the Bollinger loop: for every index after the first window,
      the window moves one step and the bands of the new window are written. */
  method SlideBands(upperArr: array<Option<real>>, midArr: array<Option<real>>, lowerArr: array<Option<real>>,
                    sum: real, sumSq: real, window: int, k: real, sqrt: real -> real, input: seq<real>)
    requires WindowSums(input, window, window, sum, sumSq)
    requires upperArr.Length == midArr.Length == lowerArr.Length == |input|
    requires upperArr != midArr && midArr != lowerArr && upperArr != lowerArr
    requires upperArr[..] == UpTo(Bollinger(input, window, k, sqrt, UpperBand), window)
    requires midArr[..] == UpTo(Bollinger(input, window, k, sqrt, MiddleBand), window)
    requires lowerArr[..] == UpTo(Bollinger(input, window, k, sqrt, LowerBand), window)
    modifies upperArr, midArr, lowerArr
    ensures upperArr[..] == Bollinger(input, window, k, sqrt, UpperBand)
    ensures midArr[..] == Bollinger(input, window, k, sqrt, MiddleBand)
    ensures lowerArr[..] == Bollinger(input, window, k, sqrt, LowerBand)
  {
    ghost var upperSpec := Bollinger(input, window, k, sqrt, UpperBand);
    ghost var midSpec := Bollinger(input, window, k, sqrt, MiddleBand);
    ghost var lowerSpec := Bollinger(input, window, k, sqrt, LowerBand);
    var runSum, runSumSq := sum, sumSq;
    var i := window;
    while i < |input|
      invariant window <= i <= |input|
      invariant WindowSums(input, window, i, runSum, runSumSq)
      invariant upperArr[..] == UpTo(upperSpec, i)
      invariant midArr[..] == UpTo(midSpec, i)
      invariant lowerArr[..] == UpTo(lowerSpec, i)
    {
      runSum, runSumSq := SlideWindow(input, window, i, runSum, runSumSq);
      ComputeBands(upperArr, midArr, lowerArr, i, runSum, runSumSq, window, k, sqrt, input);
      UpToStep(upperSpec, i);
      UpToStep(midSpec, i);
      UpToStep(lowerSpec, i);
      i := i + 1;
    }
    UpToAll(upperSpec);
    UpToAll(midSpec);
    UpToAll(lowerSpec);
  }

  /** The running state of the Bollinger loop: sum and sum of squares of the window
      that ends just before index hi. */
  ghost predicate WindowSums(input: seq<real>, window: int, hi: int, sum: real, sumSq: real) {
    1 <= window <= hi <= |input|
    && sum == SumRange(input, hi - window, hi)
    && sumSq == SumSquares(input, hi - window, hi)
  }

  /** Moves the running sum and sum of squares one step to the right: the value
      entering at index hi is added, the one leaving at hi - window is removed. */
  method SlideWindow(input: seq<real>, window: int, hi: int, sum: real, sumSq: real)
    returns (newSum: real, newSumSq: real)
    requires hi < |input| && WindowSums(input, window, hi, sum, sumSq)
    ensures WindowSums(input, window, hi + 1, newSum, newSumSq)
  {
    SumRangeSlide(input, hi - window, hi);
    SumSquaresSlide(input, hi - window, hi);
    newSum := sum + (input[hi] - input[hi - window]);
    newSumSq := sumSq + (Square(input[hi]) - Square(input[hi - window]));
  }

  /** The band computation at one index: mean, and mean plus or minus k standard
      deviations, written into the three output buffers. */
  method ComputeBands(upperArr: array<Option<real>>, midArr: array<Option<real>>, lowerArr: array<Option<real>>,
                      idx: int, sum: real, sumSq: real, window: int, k: real, sqrt: real -> real, ghost input: seq<real>)
    requires WindowSums(input, window, idx + 1, sum, sumSq)
    requires 0 <= idx < upperArr.Length == midArr.Length == lowerArr.Length
    requires upperArr != midArr && midArr != lowerArr && upperArr != lowerArr
    modifies upperArr, midArr, lowerArr
    ensures upperArr[..] == old(upperArr[..])[idx := Part(BollingerAt(input, window, k, sqrt, idx), UpperBand)]
    ensures midArr[..] == old(midArr[..])[idx := Part(BollingerAt(input, window, k, sqrt, idx), MiddleBand)]
    ensures lowerArr[..] == old(lowerArr[..])[idx := Part(BollingerAt(input, window, k, sqrt, idx), LowerBand)]
  {
    BollingerFromSums(input, window, k, sqrt, idx, sum, sumSq);
    var band := BandFrom(sum, sumSq, window, k, sqrt);
    midArr[idx] := Some(band.middle);
    upperArr[idx] := Some(band.upper);
    lowerArr[idx] := Some(band.lower);
  }

  /** MACD line (fast EMA minus slow EMA) and its signal line (an EMA of the MACD line);
      the signal update is guarded by the MACD value being defined, as in the source. */
  method ComputeMacd(input: seq<real>, fastPeriod: int, slowPeriod: int, signalPeriod: int)
    returns (macdLine: seq<Option<real>>, signalLine: seq<Option<real>>)
    requires fastPeriod != -1 && slowPeriod != -1 && signalPeriod != -1
    ensures |macdLine| == |signalLine| == |input|
    ensures forall i | 0 <= i < |input| ::
      macdLine[i] == Some(MacdLine(input, EmaAlpha(fastPeriod), EmaAlpha(slowPeriod))[i])
    ensures forall i | 0 <= i < |input| ::
      signalLine[i] == Some(EmaAt(MacdLine(input, EmaAlpha(fastPeriod), EmaAlpha(slowPeriod)), EmaAlpha(signalPeriod), i))
  {
    var size := |input|;
    var macdArr := new Option<real>[size](_ => None);
    var signalArr := new Option<real>[size](_ => None);
    if size == 0 {
      return macdArr[..], signalArr[..];
    }
    var alphaFast := EmaAlpha(fastPeriod);
    var alphaSlow := EmaAlpha(slowPeriod);
    var alphaSig := EmaAlpha(signalPeriod);
    FillMacdLine(input, alphaFast, alphaSlow, macdArr);
    FillSignalLine(macdArr, alphaSig, signalArr, MacdLine(input, alphaFast, alphaSlow));
    macdLine, signalLine := macdArr[..], signalArr[..];
  }

  /** Step 1 of MACD: both EMAs advanced together, their difference stored. */
  method FillMacdLine(input: seq<real>, alphaFast: real, alphaSlow: real, macdArr: array<Option<real>>)
    requires 0 < |input| == macdArr.Length
    modifies macdArr
    ensures forall j | 0 <= j < |input| :: macdArr[j] == Some(MacdLine(input, alphaFast, alphaSlow)[j])
  {
    ghost var line := MacdLine(input, alphaFast, alphaSlow);
    var currentEmaFast := input[0];
    var currentEmaSlow := input[0];
    macdArr[0] := Some(currentEmaFast - currentEmaSlow);
    var i := 1;
    while i < |input|
      invariant 1 <= i <= |input|
      invariant currentEmaFast == EmaAt(input, alphaFast, i - 1)
      invariant currentEmaSlow == EmaAt(input, alphaSlow, i - 1)
      invariant forall j | 0 <= j < i :: macdArr[j] == Some(line[j])
    {
      currentEmaFast := Blend(input[i], currentEmaFast, alphaFast, 1.0 - alphaFast);
      currentEmaSlow := Blend(input[i], currentEmaSlow, alphaSlow, 1.0 - alphaSlow);
      ghost var prefix := macdArr[..i];
      macdArr[i] := Some(currentEmaFast - currentEmaSlow);
      assert macdArr[..i] == prefix && macdArr[i] == Some(line[i]);
      i := i + 1;
    }
  }

  /** Step 2 of MACD: the signal line, an EMA of the MACD line, advanced wherever the
      MACD value is defined. */
  method FillSignalLine(macdArr: array<Option<real>>, alphaSig: real, signalArr: array<Option<real>>, ghost line: seq<real>)
    requires macdArr != signalArr
    requires 0 < |line| == macdArr.Length == signalArr.Length
    requires forall j | 0 <= j < |line| :: macdArr[j] == Some(line[j])
    modifies signalArr
    ensures forall j | 0 <= j < |line| :: signalArr[j] == Some(EmaAt(line, alphaSig, j))
  {
    signalArr[0] := macdArr[0];
    var i := 1;
    while i < signalArr.Length
      invariant 1 <= i <= signalArr.Length
      invariant forall j | 0 <= j < i :: signalArr[j] == Some(EmaAt(line, alphaSig, j))
    {
      assert signalArr[i - 1] == Some(EmaAt(line, alphaSig, i - 1)) && macdArr[i] == Some(line[i]);
      ghost var prefix := signalArr[..i];
      if macdArr[i].Some? {
        signalArr[i] := Some(Blend(macdArr[i].value, signalArr[i - 1].value, alphaSig, 1.0 - alphaSig));
      }
      assert signalArr[..i] == prefix && signalArr[i] == Some(EmaAt(line, alphaSig, i));
      i := i + 1;
    }
  }

  /** The signal on the last index: HOLD (0) without a defined RSI there, BUY (1) when
      oversold below the lower band, SELL (-1) when overbought above the upper band.
      The other series are read at the last index only when that comparison is reached. */
  function ComputeSignals(rsi: seq<Option<real>>, price: seq<real>, upper: seq<Option<real>>, lower: seq<Option<real>>): (signal: int)
    requires |rsi| > 0 && Below(rsi[|rsi| - 1], Some(30.0)) ==> |price| >= |rsi| && |lower| >= |rsi|
    requires |rsi| > 0 && Above(rsi[|rsi| - 1], Some(70.0)) ==> |price| >= |rsi| && |upper| >= |rsi|
    ensures signal == 1 || signal == 0 || signal == -1
    ensures |rsi| == 0 || rsi[|rsi| - 1].None? ==> signal == 0
    ensures signal == 1 <==>
      |rsi| > 0 && Below(rsi[|rsi| - 1], Some(30.0)) && Below(Some(price[|rsi| - 1]), lower[|rsi| - 1])
    ensures signal == -1 <==>
      |rsi| > 0 && Above(rsi[|rsi| - 1], Some(70.0)) && Above(Some(price[|rsi| - 1]), upper[|rsi| - 1])
  {
    if |rsi| == 0 || rsi[|rsi| - 1].None? then 0
    else
      var last := |rsi| - 1;
      if rsi[last].value < 30.0 && Below(Some(price[last]), lower[last]) then 1
      else if rsi[last].value > 70.0 && Above(Some(price[last]), upper[last]) then -1
      else 0
  }

  /** The signal reads nothing but the last index: series that agree there, whatever
      came before, give the same signal. */
  lemma {:induction false} SignalDependsOnlyOnLast(
    rsiA: seq<Option<real>>, priceA: seq<real>, upperA: seq<Option<real>>, lowerA: seq<Option<real>>,
    rsiB: seq<Option<real>>, priceB: seq<real>, upperB: seq<Option<real>>, lowerB: seq<Option<real>>)
    requires |rsiA| > 0 && |priceA| >= |rsiA| && |upperA| >= |rsiA| && |lowerA| >= |rsiA|
    requires |rsiB| > 0 && |priceB| >= |rsiB| && |upperB| >= |rsiB| && |lowerB| >= |rsiB|
    requires rsiA[|rsiA| - 1] == rsiB[|rsiB| - 1] && priceA[|rsiA| - 1] == priceB[|rsiB| - 1]
    requires upperA[|rsiA| - 1] == upperB[|rsiB| - 1] && lowerA[|rsiA| - 1] == lowerB[|rsiB| - 1]
    ensures ComputeSignals(rsiA, priceA, upperA, lowerA) == ComputeSignals(rsiB, priceB, upperB, lowerB)
  {
  }
}
