/** Reference definitions of the indicators (src/core/indicators.cpp and the legacy
    src/trading_core.cpp compute the same series), stated index by index over exact
    real arithmetic, with their properties. None marks an undefined (NaN) position.
    The square root is a parameter: only the band-ordering lemma asks anything of it. */
module IndicatorMath {
  import opened Wrappers

  /** s[lo] + ... + s[hi-1], summed left to right as std::accumulate does. */
  function SumRange(s: seq<real>, lo: int, hi: int): real
    requires 0 <= lo <= hi <= |s|
    decreases hi - lo
  {
    if lo == hi then 0.0 else SumRange(s, lo, hi - 1) + s[hi - 1]
  }

  lemma {:induction false} SumRangeFront(s: seq<real>, lo: int, hi: int)
    requires 0 <= lo < hi <= |s|
    ensures SumRange(s, lo, hi) == s[lo] + SumRange(s, lo + 1, hi)
    decreases hi - lo
  {
    if lo + 1 < hi {
      SumRangeFront(s, lo, hi - 1);
    }
  }

  /** Sliding a window one place right adds the entering element and drops the leaving one:
      the running-sum update of SMA and Bollinger Bands. */
  lemma SumRangeSlide(s: seq<real>, lo: int, hi: int)
    requires 0 <= lo < hi < |s|
    ensures SumRange(s, lo + 1, hi + 1) == SumRange(s, lo, hi) + (s[hi] - s[lo])
  {
    SumRangeFront(s, lo, hi);
  }

  function Square(x: real): real {
    x * x
  }

  /** s[lo]^2 + ... + s[hi-1]^2, accumulated left to right. */
  function SumSquares(s: seq<real>, lo: int, hi: int): real
    requires 0 <= lo <= hi <= |s|
    decreases hi - lo
  {
    if lo == hi then 0.0 else SumSquares(s, lo, hi - 1) + Square(s[hi - 1])
  }

  lemma {:induction false} SumSquaresFront(s: seq<real>, lo: int, hi: int)
    requires 0 <= lo < hi <= |s|
    ensures SumSquares(s, lo, hi) == Square(s[lo]) + SumSquares(s, lo + 1, hi)
    decreases hi - lo
  {
    if lo + 1 < hi {
      SumSquaresFront(s, lo, hi - 1);
    }
  }

  /** The running sum of squares under the same one-place slide. */
  lemma SumSquaresSlide(s: seq<real>, lo: int, hi: int)
    requires 0 <= lo < hi < |s|
    ensures SumSquares(s, lo + 1, hi + 1) == SumSquares(s, lo, hi) + (Square(s[hi]) - Square(s[lo]))
  {
    SumSquaresFront(s, lo, hi);
  }

  lemma MulNonNegative(a: real, b: real)
    requires a >= 0.0 && b >= 0.0
    ensures a * b >= 0.0
  {
  }

  // ---------------------------------------------------------------- Partial outputs

  /** The output buffer after the positions before n have been written: s there,
      undefined from n on. */
  function UpTo<T>(s: seq<Option<T>>, n: int): (r: seq<Option<T>>)
    ensures |r| == |s|
    ensures forall j | 0 <= j < |s| :: r[j] == if j < n then s[j] else None
  {
    seq(|s|, j requires 0 <= j < |s| => if j < n then s[j] else None)
  }

  /** Writing position n of the partial output extends it by one position. */
  lemma UpToStep<T>(s: seq<Option<T>>, n: int)
    requires 0 <= n < |s|
    ensures UpTo(s, n)[n := s[n]] == UpTo(s, n + 1)
  {
  }

  /** Once every position is written the partial output is the whole output. */
  lemma UpToAll<T>(s: seq<Option<T>>)
    ensures UpTo(s, |s|) == s
  {
  }

  // ---------------------------------------------------------------- SMA

  /** The mean of the `window` inputs ending at `i`, once that many exist. */
  function SmaAt(input: seq<real>, window: int, i: int): Option<real>
    requires 0 <= i < |input|
  {
    if 1 <= window <= |input| && window - 1 <= i
    then Some(SumRange(input, i - window + 1, i + 1) / window as real)
    else None
  }

  function Sma(input: seq<real>, window: int): (r: seq<Option<real>>)
    ensures |r| == |input|
  {
    seq(|input|, i requires 0 <= i < |input| => SmaAt(input, window, i))
  }

  // ---------------------------------------------------------------- EMA

  /** Smoothing factor 2/(window+1). */
  function EmaAlpha(window: int): real
    requires window != -1
  {
    2.0 / (window as real + 1.0)
  }

  /** One exponential-smoothing step: the new value weighted by alpha plus the previous
      average weighted by beta (1 - alpha at every use). */
  function Blend(x: real, prev: real, alpha: real, beta: real): real {
    (x * alpha) + (prev * beta)
  }

  function EmaAt(input: seq<real>, alpha: real, i: int): real
    requires 0 <= i < |input|
  {
    if i == 0 then input[0] else Blend(input[i], EmaAt(input, alpha, i - 1), alpha, 1.0 - alpha)
  }

  function Ema(input: seq<real>, alpha: real): (r: seq<real>)
    ensures |r| == |input|
  {
    seq(|input|, i requires 0 <= i < |input| => EmaAt(input, alpha, i))
  }

  /** The sequence form of the EMA recurrence: seeded with the first input, then each
      value blends the new input with the previous value. */
  lemma EmaRecurrence(input: seq<real>, alpha: real)
    ensures |input| > 0 ==> Ema(input, alpha)[0] == input[0]
    ensures forall i | 1 <= i < |input| ::
      Ema(input, alpha)[i] == input[i] * alpha + Ema(input, alpha)[i - 1] * (1.0 - alpha)
  {
    forall i | 1 <= i < |input|
      ensures Ema(input, alpha)[i] == input[i] * alpha + Ema(input, alpha)[i - 1] * (1.0 - alpha)
    {
      assert Ema(input, alpha)[i] == EmaAt(input, alpha, i);
      assert Ema(input, alpha)[i - 1] == EmaAt(input, alpha, i - 1);
    }
  }

  // ---------------------------------------------------------------- RSI (Wilder)

  function Gain(input: seq<real>, i: int): real
    requires 1 <= i < |input|
  {
    Max(0.0, input[i] - input[i - 1])
  }

  function Loss(input: seq<real>, i: int): real
    requires 1 <= i < |input|
  {
    Max(0.0, -(input[i] - input[i - 1]))
  }

  /** Sum of the gains of the first n price changes. */
  function SeedGain(input: seq<real>, n: int): real
    requires 0 <= n < |input|
  {
    if n == 0 then 0.0 else SeedGain(input, n - 1) + Gain(input, n)
  }

  function SeedLoss(input: seq<real>, n: int): real
    requires 0 <= n < |input|
  {
    if n == 0 then 0.0 else SeedLoss(input, n - 1) + Loss(input, n)
  }

  /** Wilder's smoothed average gain at index i: the seed mean at index window, then
      alpha = 1/window exponential smoothing. */
  function AvgGain(input: seq<real>, window: int, i: int): real
    requires 1 <= window <= i < |input|
  {
    if i == window then SeedGain(input, window) / window as real
    else Blend(Gain(input, i), AvgGain(input, window, i - 1), 1.0 / window as real, 1.0 - 1.0 / window as real)
  }

  function AvgLoss(input: seq<real>, window: int, i: int): real
    requires 1 <= window <= i < |input|
  {
    if i == window then SeedLoss(input, window) / window as real
    else Blend(Loss(input, i), AvgLoss(input, window, i - 1), 1.0 / window as real, 1.0 - 1.0 / window as real)
  }

  /** 100 when there is no loss, else 100 - 100/(1 + gain/loss). */
  function RsiValue(gain: real, loss: real): real
    requires gain >= 0.0 && loss >= 0.0
  {
    assert loss != 0.0 ==> gain / loss >= 0.0 by {
      if loss != 0.0 { MulNonNegative(gain, 1.0 / loss); }
    }
    if loss == 0.0 then 100.0 else 100.0 - 100.0 / (1.0 + gain / loss)
  }

  function RsiAt(input: seq<real>, window: int, i: int): Option<real>
    requires 0 <= i < |input|
  {
    if 1 <= window < |input| && window <= i
    then
      AveragesNonNegative(input, window, i);
      Some(RsiValue(AvgGain(input, window, i), AvgLoss(input, window, i)))
    else None
  }

  function Rsi(input: seq<real>, window: int): (r: seq<Option<real>>)
    ensures |r| == |input|
  {
    seq(|input|, i requires 0 <= i < |input| => RsiAt(input, window, i))
  }

  // ---------------------------------------------------------------- Bollinger Bands

  datatype Band = Band(upper: real, middle: real, lower: real)

  datatype BandPart = UpperBand | MiddleBand | LowerBand

  /** Mean and population standard deviation from a window's sum and sum of squares;
      a negative variance (rounding noise) is raised to zero before the square root. */
  function BandFrom(sum: real, sumSq: real, window: int, k: real, sqrt: real -> real): Band
    requires window >= 1
  {
    var mean := sum / window as real;
    var variance := (sumSq - (sum * sum / window as real)) / window as real;
    var stdDev := sqrt(Max(0.0, variance));
    Band(mean + (k * stdDev), mean, mean - (k * stdDev))
  }

  function BollingerAt(input: seq<real>, window: int, k: real, sqrt: real -> real, i: int): Option<Band>
    requires 0 <= i < |input|
  {
    if 1 <= window <= |input| && window - 1 <= i
    then Some(BandFrom(SumRange(input, i - window + 1, i + 1),
                       SumSquares(input, i - window + 1, i + 1), window, k, sqrt))
    else None
  }

  /** Once the running sums equal the window sums, the band they give is the band at i. */
  lemma BollingerFromSums(input: seq<real>, window: int, k: real, sqrt: real -> real, i: int, sum: real, sumSq: real)
    requires 1 <= window <= |input| && window - 1 <= i < |input|
    requires sum == SumRange(input, i - window + 1, i + 1)
    requires sumSq == SumSquares(input, i - window + 1, i + 1)
    ensures BollingerAt(input, window, k, sqrt, i) == Some(BandFrom(sum, sumSq, window, k, sqrt))
  {
  }

  function Part(b: Option<Band>, part: BandPart): Option<real> {
    match b
    case None => None
    case Some(band) =>
      Some(match part case UpperBand => band.upper case MiddleBand => band.middle case LowerBand => band.lower)
  }

  function Bollinger(input: seq<real>, window: int, k: real, sqrt: real -> real, part: BandPart): (r: seq<Option<real>>)
    ensures |r| == |input|
  {
    seq(|input|, i requires 0 <= i < |input| => Part(BollingerAt(input, window, k, sqrt, i), part))
  }

  // ---------------------------------------------------------------- MACD

  /** Fast EMA minus slow EMA, both seeded with the first input. */
  function MacdLine(input: seq<real>, alphaFast: real, alphaSlow: real): (r: seq<real>)
    ensures |r| == |input|
  {
    seq(|input|, i requires 0 <= i < |input| => EmaAt(input, alphaFast, i) - EmaAt(input, alphaSlow, i))
  }

  // ---------------------------------------------------------------- properties

  /** SMA is undefined everywhere on too short an input, and otherwise exactly before
      index window-1; each defined value is the mean of the window ending there. */
  lemma SmaShape(input: seq<real>, window: int)
    requires window >= 1
    ensures |input| < window ==> forall i | 0 <= i < |input| :: Sma(input, window)[i].None?
    ensures |input| >= window ==> forall i | 0 <= i < |input| :: Sma(input, window)[i].None? <==> i < window - 1
    ensures forall i | window - 1 <= i < |input| ::
      Sma(input, window)[i] == Some(SumRange(input, i - window + 1, i + 1) / window as real)
  {
  }

  /** For a window of at least one the smoothing factor lies in (0, 1]. */
  lemma EmaAlphaInUnitInterval(window: int)
    requires window >= 1
    ensures 0.0 < EmaAlpha(window) <= 1.0
  {
  }

  lemma ConvexCombinationInRange(alpha: real, x: real, y: real, lo: real, hi: real)
    requires 0.0 <= alpha <= 1.0 && lo <= x <= hi && lo <= y <= hi
    ensures lo <= x * alpha + y * (1.0 - alpha) <= hi
  {
    MulNonNegative(alpha, x - lo);
    MulNonNegative(alpha, hi - x);
    MulNonNegative(1.0 - alpha, y - lo);
    MulNonNegative(1.0 - alpha, hi - y);
    assert x * alpha + y * (1.0 - alpha) - lo == alpha * (x - lo) + (1.0 - alpha) * (y - lo);
    assert hi - (x * alpha + y * (1.0 - alpha)) == alpha * (hi - x) + (1.0 - alpha) * (hi - y);
  }

  /** With a smoothing factor in [0, 1] an EMA never leaves the range of the inputs
      seen so far. */
  lemma {:induction false} EmaStaysInRange(input: seq<real>, alpha: real, i: int, lo: real, hi: real)
    requires 0.0 <= alpha <= 1.0
    requires 0 <= i < |input|
    requires forall j | 0 <= j <= i :: lo <= input[j] <= hi
    ensures lo <= EmaAt(input, alpha, i) <= hi
  {
    if i > 0 {
      EmaStaysInRange(input, alpha, i - 1, lo, hi);
      assert lo <= input[i] <= hi;
      ConvexCombinationInRange(alpha, input[i], EmaAt(input, alpha, i - 1), lo, hi);
    }
  }

  lemma {:induction false} SeedsNonNegative(input: seq<real>, n: int)
    requires 0 <= n < |input|
    ensures SeedGain(input, n) >= 0.0 && SeedLoss(input, n) >= 0.0
  {
    if n > 0 {
      SeedsNonNegative(input, n - 1);
    }
  }

  lemma DivNonNegative(a: real, w: int)
    requires a >= 0.0 && w >= 1
    ensures a / w as real >= 0.0
  {
    assert (a / w as real) * (w as real) == a;
  }

  /** Wilder's smoothing factor 1/window lies in (0, 1]. */
  lemma SmoothingFactorInUnitInterval(window: int)
    requires window >= 1
    ensures 0.0 < 1.0 / window as real <= 1.0
  {
    assert (1.0 / window as real) * (window as real) == 1.0;
  }

  lemma BlendNonNegative(x: real, prev: real, alpha: real)
    requires x >= 0.0 && prev >= 0.0 && 0.0 <= alpha <= 1.0
    ensures Blend(x, prev, alpha, 1.0 - alpha) >= 0.0
  {
    MulNonNegative(x, alpha);
    MulNonNegative(prev, 1.0 - alpha);
  }

  lemma {:induction false} AvgGainNonNegative(input: seq<real>, window: int, i: int)
    requires 1 <= window <= i < |input|
    ensures AvgGain(input, window, i) >= 0.0
  {
    if i == window {
      SeedsNonNegative(input, window);
      DivNonNegative(SeedGain(input, window), window);
    } else {
      AvgGainNonNegative(input, window, i - 1);
      SmoothingFactorInUnitInterval(window);
      BlendNonNegative(Gain(input, i), AvgGain(input, window, i - 1), 1.0 / window as real);
    }
  }

  lemma {:induction false} AvgLossNonNegative(input: seq<real>, window: int, i: int)
    requires 1 <= window <= i < |input|
    ensures AvgLoss(input, window, i) >= 0.0
  {
    if i == window {
      SeedsNonNegative(input, window);
      DivNonNegative(SeedLoss(input, window), window);
    } else {
      AvgLossNonNegative(input, window, i - 1);
      SmoothingFactorInUnitInterval(window);
      BlendNonNegative(Loss(input, i), AvgLoss(input, window, i - 1), 1.0 / window as real);
    }
  }

  /** Accumulated gains and losses are never negative. */
  lemma AveragesNonNegative(input: seq<real>, window: int, i: int)
    requires 1 <= window <= i < |input|
    ensures AvgGain(input, window, i) >= 0.0 && AvgLoss(input, window, i) >= 0.0
  {
    AvgGainNonNegative(input, window, i);
    AvgLossNonNegative(input, window, i);
  }

  lemma RsiValueInRange(gain: real, loss: real)
    requires gain >= 0.0 && loss >= 0.0
    ensures 0.0 <= RsiValue(gain, loss) <= 100.0
  {
    if loss != 0.0 {
      var rs := gain / loss;
      assert rs >= 0.0 by {
        assert rs * loss == gain;
      }
      var q := 100.0 / (1.0 + rs);
      assert q * (1.0 + rs) == 100.0;
      assert 0.0 < q <= 100.0;
    }
  }

  /** RSI is undefined exactly before index window (everywhere when the input has no more
      than window elements); every defined value lies in [0, 100], and it is 100 whenever
      the average loss is zero. */
  lemma RsiShapeAndRange(input: seq<real>, window: int)
    requires window >= 1
    ensures |input| <= window ==> forall i | 0 <= i < |input| :: Rsi(input, window)[i].None?
    ensures forall i | 0 <= i < |input| :: Rsi(input, window)[i].Some? <==> (window < |input| && window <= i)
    ensures forall i | 0 <= i < |input| && Rsi(input, window)[i].Some? ::
      0.0 <= Rsi(input, window)[i].value <= 100.0
    ensures forall i | window <= i < |input| && AvgLoss(input, window, i) == 0.0 ::
      Rsi(input, window)[i] == Some(100.0)
  {
    forall i | 0 <= i < |input| && Rsi(input, window)[i].Some?
      ensures 0.0 <= Rsi(input, window)[i].value <= 100.0
    {
      AveragesNonNegative(input, window, i);
      RsiValueInRange(AvgGain(input, window, i), AvgLoss(input, window, i));
    }
  }

  /** The middle band is the SMA of the same window, at every index. */
  lemma BollingerMiddleIsSma(input: seq<real>, window: int, k: real, sqrt: real -> real)
    ensures Bollinger(input, window, k, sqrt, MiddleBand) == Sma(input, window)
  {
  }

  /** Bollinger Bands are undefined everywhere on too short an input and otherwise exactly
      before index window-1; with a non-negative multiplier and a square root that is
      never negative, lower <= middle <= upper wherever they are defined. */
  lemma BollingerBandsOrdered(input: seq<real>, window: int, k: real, sqrt: real -> real)
    requires window >= 1
    requires k >= 0.0
    requires forall x: real :: x >= 0.0 ==> sqrt(x) >= 0.0
    ensures forall i | 0 <= i < |input| :: BollingerAt(input, window, k, sqrt, i).None? <==> (|input| < window || i < window - 1)
    ensures forall i | 0 <= i < |input| && BollingerAt(input, window, k, sqrt, i).Some? ::
      var b := BollingerAt(input, window, k, sqrt, i).value;
      b.lower <= b.middle <= b.upper
  {
    forall i | 0 <= i < |input| && BollingerAt(input, window, k, sqrt, i).Some?
      ensures var b := BollingerAt(input, window, k, sqrt, i).value; b.lower <= b.middle <= b.upper
    {
      var sum := SumRange(input, i - window + 1, i + 1);
      var sumSq := SumSquares(input, i - window + 1, i + 1);
      var variance := (sumSq - (sum * sum / window as real)) / window as real;
      var stdDev := sqrt(Max(0.0, variance));
      assert stdDev >= 0.0;
      assert k * stdDev >= 0.0;
    }
  }

  /** Both EMAs start from the first input, so the MACD line starts at zero, and the
      signal line, the EMA of the MACD line, starts at the same value. */
  lemma MacdStartsAtZero(input: seq<real>, alphaFast: real, alphaSlow: real, alphaSignal: real)
    requires |input| > 0
    ensures MacdLine(input, alphaFast, alphaSlow)[0] == 0.0
    ensures EmaAt(MacdLine(input, alphaFast, alphaSlow), alphaSignal, 0) == 0.0
  {
  }
}
