/**
 * The market panel: the price summary and the price chart, whose history is thinned out
 * by keeping every k-th point, k growing with the timeframe shown.
 */
module MarketData {
  import opened Common

  datatype MarketInfo = MarketInfo(currentPrice: real, priceChange24h: real, marketCap: string,
                                   volume24h: string, athPrice: real, athDate: string)

  datatype PricePoint = PricePoint(timestamp: int, price: real)

  datatype MarketLoading = MarketLoading(market: bool, priceHistory: bool)

  /** The index stride for a timeframe in days: 6 for a day, 12 for a week, 24 for a month, 48 otherwise. */
  function Stride(days: int): (k: nat)
    ensures days == 1 ==> k == 6
    ensures days == 7 ==> k == 12
    ensures days == 30 ==> k == 24
    ensures days != 1 && days != 7 && days != 30 ==> k == 48
    ensures k > 0
  {
    if days == 1 then 6 else if days == 7 then 12 else if days == 30 then 24 else 48
  }

  /** The points among the first n whose index is a multiple of the stride, in order. */
  function SparseUpTo<T>(points: seq<T>, n: nat, stride: nat): seq<T>
    requires stride > 0 && n <= |points|
  {
    if n == 0 then []
    else SparseUpTo(points, n - 1, stride) + (if (n - 1) % stride == 0 then [points[n - 1]] else [])
  }

  /** `points.filter((_, index) => index % stride === 0)` */
  function Sparse<T>(points: seq<T>, stride: nat): seq<T>
    requires stride > 0
  {
    SparseUpTo(points, |points|, stride)
  }

  lemma MulLeq(a: int, b: int, s: int)
    requires a <= b && s >= 0
    ensures a * s <= b * s
  {
    assert (b - a) * s >= 0;
    assert b * s - a * s == (b - a) * s;
  }

  lemma MulLess(a: int, b: int, s: int)
    requires s > 0 && a * s < b * s
    ensures a < b
  {
    assert (b - a) * s == b * s - a * s;
    assert (b - a) * s > 0;
  }

  /** The count of multiples below n, advanced past index n. */
  lemma StrideStep(n: nat, m: nat, stride: nat)
    requires stride > 0
    requires m * stride >= n
    requires m > 0 ==> (m - 1) * stride < n
    ensures n % stride == 0 ==> m * stride == n
    ensures n % stride != 0 ==> m * stride >= n + 1
  {
    var q := n / stride;
    var r := n % stride;
    assert n == q * stride + r && 0 <= r < stride;
    if r == 0 {
      if m > 0 {
        MulLess(m - 1, q, stride);
        MulLeq(m, q, stride);
      }
    } else {
      assert q * stride < m * stride;
      MulLess(q, m, stride);
      MulLeq(q + 1, m, stride);
      assert (q + 1) * stride == q * stride + stride;
    }
  }

  lemma {:induction false} SparseUpToKeepsStridePoints<T>(points: seq<T>, n: nat, stride: nat)
    requires stride > 0 && n <= |points|
    ensures forall k :: 0 <= k < |SparseUpTo(points, n, stride)| ==>
      k * stride < n && SparseUpTo(points, n, stride)[k] == points[k * stride]
    ensures |SparseUpTo(points, n, stride)| * stride >= n
  {
    if n > 0 {
      var i := n - 1;
      SparseUpToKeepsStridePoints(points, i, stride);
      var before := SparseUpTo(points, i, stride);
      var m := |before|;
      if m > 0 {
        assert (m - 1) * stride < i;
      }
      StrideStep(i, m, stride);
      if i % stride == 0 {
        AppendStridePoint(before, points, i, stride);
      }
    }
  }

  /** Appending the point at index i = |before| * stride keeps the stride property. */
  lemma AppendStridePoint<T>(before: seq<T>, points: seq<T>, i: nat, stride: nat)
    requires stride > 0 && i < |points| && |before| * stride == i
    requires forall k :: 0 <= k < |before| ==> k * stride < i && before[k] == points[k * stride]
    ensures forall k :: 0 <= k < |before + [points[i]]| ==>
      k * stride < i + 1 && (before + [points[i]])[k] == points[k * stride]
    ensures |before + [points[i]]| * stride >= i + 1
  {
    var res := before + [points[i]];
    assert (|before| + 1) * stride == |before| * stride + stride;
    forall k | 0 <= k < |res| ensures k * stride < i + 1 && res[k] == points[k * stride] {
      if k < |before| {
        assert res[k] == before[k];
      }
    }
  }

  /**
   * The thinned history holds exactly the points at indices divisible by the stride, in
   * their original order: the k-th kept point is the point at index k * stride, and no
   * multiple of the stride below the length is skipped, so ceil(n / stride) points are kept.
   */
  lemma SparseKeepsStridePoints<T>(points: seq<T>, stride: nat)
    requires stride > 0
    ensures forall k :: 0 <= k < |Sparse(points, stride)| ==>
      k * stride < |points| && Sparse(points, stride)[k] == points[k * stride]
    ensures |Sparse(points, stride)| * stride >= |points|
  {
    SparseUpToKeepsStridePoints(points, |points|, stride);
  }

  /** The chart is empty exactly when the fetched history is. */
  lemma SparseEmptyIff<T>(points: seq<T>, stride: nat)
    requires stride > 0
    ensures Sparse(points, stride) == [] <==> points == []
  {
    SparseKeepsStridePoints(points, stride);
  }

  class MarketView {
    var marketData: MarketInfo
    var priceHistory: seq<PricePoint>
    var loading: MarketLoading
    var chartTimeframe: int

    constructor (now: string)
      ensures marketData == MarketInfo(0.0, 0.0, "0", "0", 0.0, now)
      ensures priceHistory == [] && loading == MarketLoading(true, true) && chartTimeframe == 7
    {
      marketData := MarketInfo(0.0, 0.0, "0", "0", 0.0, now);
      priceHistory := [];
      loading := MarketLoading(true, true);
      chartTimeframe := 7;
    }

    /** A fetched summary replaces the shown one; the market flag ends false either way. */
    method FetchMarketData(reply: Outcome<MarketInfo>)
      modifies this
      ensures loading == old(loading).(market := false)
      ensures marketData == (if reply.Success? then reply.value else old(marketData))
      ensures priceHistory == old(priceHistory) && chartTimeframe == old(chartTimeframe)
    {
      loading := loading.(market := true);
      if reply.Success? {
        marketData := reply.value;
      }
      loading := loading.(market := false);
    }

    /**
     * A fetched history is thinned for the requested timeframe, and only then does the
     * timeframe change; after a failure the previous chart and timeframe stay.
     */
    method FetchPriceHistory(days: int, reply: Outcome<seq<PricePoint>>)
      modifies this
      ensures loading == old(loading).(priceHistory := false)
      ensures reply.Success? ==> priceHistory == Sparse(reply.value, Stride(days)) && chartTimeframe == days
      ensures reply.Failure? ==> priceHistory == old(priceHistory) && chartTimeframe == old(chartTimeframe)
      ensures marketData == old(marketData)
    {
      loading := loading.(priceHistory := true);
      if reply.Success? {
        var sparseData := Sparse(reply.value, Stride(days));
        priceHistory := sparseData;
        chartTimeframe := days;
      }
      loading := loading.(priceHistory := false);
    }
  }
}
