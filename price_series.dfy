/** The bounded price history kept per symbol (AssetData::add_price): a push_back
    followed by erasing the front element when the vector grew past max_size. */
module PriceSeries {

  /** The default max_size of add_price. */
  const DefaultMaxSize: nat := 200

  /** One add_price: append, then drop the oldest price if the series is now too long. */
  function AppendBounded(prices: seq<real>, price: real, maxSize: nat): (r: seq<real>)
    ensures |prices| < maxSize ==> r == prices + [price]
    ensures |prices| >= maxSize ==> r == if prices == [] then [] else prices[1..] + [price]
    ensures |prices| <= maxSize ==> |r| <= maxSize
    ensures maxSize >= 1 ==> |r| > 0 && r[|r| - 1] == price
  {
    var appended := prices + [price];
    if |appended| > maxSize then appended[1..] else appended
  }

  /** The last n elements of s (all of s when it is shorter). */
  function LastN(s: seq<real>, n: nat): (r: seq<real>)
    ensures |r| == if |s| <= n then |s| else n
    ensures forall j | 0 <= j < |r| :: r[j] == s[|s| - |r| + j]
  {
    if |s| <= n then s else s[|s| - n..]
  }

  /** Prices fed one after another through add_price. */
  function AppendAll(prices: seq<real>, stream: seq<real>, maxSize: nat): seq<real>
    decreases |stream|
  {
    if stream == [] then prices
    else AppendAll(AppendBounded(prices, stream[0], maxSize), stream[1..], maxSize)
  }

  /** A series within its bound stays the most recent maxSize prices after one add_price. */
  lemma AppendBoundedIsLastWindow(prices: seq<real>, price: real, maxSize: nat)
    requires |prices| <= maxSize
    ensures AppendBounded(prices, price, maxSize) == LastN(prices + [price], maxSize)
  {
  }

  /** Taking the last n elements twice, with more appended in between, is taking them once. */
  lemma LastNAppend(s: seq<real>, t: seq<real>, n: nat)
    ensures LastN(LastN(s, n) + t, n) == LastN(s + t, n)
  {
    if |s| > n {
      var w := s + t;
      var c := |s| - n;
      assert LastN(s, n) + t == w[c..];
      assert w[c..][|w| - c - n..] == w[|w| - n..];
    }
  }

  /** Starting within the bound, any stream of add_price calls leaves exactly the most
      recent maxSize prices of the whole history, oldest first. */
  lemma {:induction false} AppendAllIsLastWindow(prices: seq<real>, stream: seq<real>, maxSize: nat)
    requires |prices| <= maxSize
    ensures AppendAll(prices, stream, maxSize) == LastN(prices + stream, maxSize)
    decreases |stream|
  {
    if stream == [] {
      assert prices + stream == prices;
    } else {
      var next := AppendBounded(prices, stream[0], maxSize);
      AppendBoundedIsLastWindow(prices, stream[0], maxSize);
      AppendAllIsLastWindow(next, stream[1..], maxSize);
      LastNAppend(prices + [stream[0]], stream[1..], maxSize);
      ConsTail(prices, stream);
    }
  }

  lemma ConsTail(prices: seq<real>, stream: seq<real>)
    requires stream != []
    ensures prices + [stream[0]] + stream[1..] == prices + stream
  {
    assert [stream[0]] + stream[1..] == stream;
  }
}
