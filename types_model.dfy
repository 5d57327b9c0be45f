/** The wire names of the client's enumerations and the conversion of a chart point (v3/types/model.go). */
module Types {
  import opened Wrappers
  import Text

  // ---------------------------------------------------------------- enumerations

  type CoinsMarketOrder = int

  const CoinMarketOrderMarketCapDesc: CoinsMarketOrder := 0
  const CoinMarketOrderMarketCapAsc: CoinsMarketOrder := 1
  const CoinMarketOrderGeckoDesc: CoinsMarketOrder := 2
  const CoinMarketOrderGeckoAsc: CoinsMarketOrder := 3
  const CoinMarketOrderVolumeAsc: CoinsMarketOrder := 4
  const CoinMarketOrderVolumeDesc: CoinsMarketOrder := 5

  const CoinsMarketOrderNames: seq<string> :=
    ["market_cap_desc", "market_cap_asc", "gecko_desc", "gecko_asc", "volume_asc", "volume_desc"]

  type PriceChangePercentage = int

  const PriceChangePercentage1H: PriceChangePercentage := 0
  const PriceChangePercentage24H: PriceChangePercentage := 1
  const PriceChangePercentage7D: PriceChangePercentage := 2
  const PriceChangePercentage14D: PriceChangePercentage := 3
  const PriceChangePercentage30D: PriceChangePercentage := 4
  const PriceChangePercentage200D: PriceChangePercentage := 5
  const PriceChangePercentage1Y: PriceChangePercentage := 6

  const PriceChangePercentageNames: seq<string> := ["1h", "24h", "7d", "14d", "30d", "200d", "1y"]

  type TickerOrder = int

  const TickerOrderTrustScoreDesc: TickerOrder := 0
  const TickerOrderTrustScoreAsc: TickerOrder := 1
  const TickerOrderVolumeDesc: TickerOrder := 2

  const TickerOrderNames: seq<string> := ["trust_score_desc", "trust_score_asc", "volume_desc"]

  /** Go's `String()` methods index a fixed slice, so each is defined only on the declared range
      (any other value panics). */
  function CoinsMarketOrderString(o: CoinsMarketOrder): (name: string)
    requires CoinMarketOrderMarketCapDesc <= o <= CoinMarketOrderVolumeDesc
    ensures name in CoinsMarketOrderNames
  {
    CoinsMarketOrderNames[o]
  }

  function PriceChangePercentageString(p: PriceChangePercentage): (name: string)
    requires PriceChangePercentage1H <= p <= PriceChangePercentage1Y
    ensures name in PriceChangePercentageNames
  {
    PriceChangePercentageNames[p]
  }

  function TickerOrderString(o: TickerOrder): (name: string)
    requires TickerOrderTrustScoreDesc <= o <= TickerOrderVolumeDesc
    ensures name in TickerOrderNames
  {
    TickerOrderNames[o]
  }

  /** The table entries are pairwise distinct and contain no ',' (so they survive a comma-join). */
  ghost predicate WireTable(names: seq<string>)
  {
    && (forall i, j :: 0 <= i < j < |names| ==> names[i] != names[j])
    && (forall i :: 0 <= i < |names| ==> ',' !in names[i])
  }

  lemma CoinsMarketOrderTable()
    ensures WireTable(CoinsMarketOrderNames)
  {
  }

  lemma PriceChangePercentageTable()
    ensures WireTable(PriceChangePercentageNames)
  {
  }

  lemma TickerOrderTable()
    ensures WireTable(TickerOrderNames)
  {
  }

  /** The constant a wire name stands for: the inverse of a table lookup. */
  function Lookup(names: seq<string>, name: string): (r: Option<nat>)
    ensures r.Some? ==> r.value < |names| && names[r.value] == name
    ensures r.None? <==> name !in names
  {
    if |names| == 0 then None
    else if names[|names| - 1] == name then Some(|names| - 1)
    else
      var r := Lookup(names[..|names| - 1], name);
      assert names == names[..|names| - 1] + [names[|names| - 1]];
      r
  }

  /** In a table with distinct entries, looking up the name of constant `i` gives `i` back. */
  lemma LookupOfName(names: seq<string>, i: nat)
    requires forall a, b :: 0 <= a < b < |names| ==> names[a] != names[b]
    requires i < |names|
    ensures Lookup(names, names[i]) == Some(i)
  {
    var r := Lookup(names, names[i]);
    assert r.Some?;
  }

  /** Each table is injective: distinct in-range constants have distinct wire names, so the name
      determines the constant. */
  lemma CoinsMarketOrderRoundTrip(o: CoinsMarketOrder)
    requires CoinMarketOrderMarketCapDesc <= o <= CoinMarketOrderVolumeDesc
    ensures Lookup(CoinsMarketOrderNames, CoinsMarketOrderString(o)) == Some(o)
  {
    CoinsMarketOrderTable();
    LookupOfName(CoinsMarketOrderNames, o);
  }

  lemma PriceChangePercentageRoundTrip(p: PriceChangePercentage)
    requires PriceChangePercentage1H <= p <= PriceChangePercentage1Y
    ensures Lookup(PriceChangePercentageNames, PriceChangePercentageString(p)) == Some(p)
  {
    PriceChangePercentageTable();
    LookupOfName(PriceChangePercentageNames, p);
  }

  lemma TickerOrderRoundTrip(o: TickerOrder)
    requires TickerOrderTrustScoreDesc <= o <= TickerOrderVolumeDesc
    ensures Lookup(TickerOrderNames, TickerOrderString(o)) == Some(o)
  {
    TickerOrderTable();
    LookupOfName(TickerOrderNames, o);
  }

  lemma CoinsMarketOrderInjective(a: CoinsMarketOrder, b: CoinsMarketOrder)
    requires 0 <= a <= 5 && 0 <= b <= 5 && a != b
    ensures CoinsMarketOrderString(a) != CoinsMarketOrderString(b)
  {
    CoinsMarketOrderRoundTrip(a);
    CoinsMarketOrderRoundTrip(b);
  }

  lemma PriceChangePercentageInjective(a: PriceChangePercentage, b: PriceChangePercentage)
    requires 0 <= a <= 6 && 0 <= b <= 6 && a != b
    ensures PriceChangePercentageString(a) != PriceChangePercentageString(b)
  {
    PriceChangePercentageRoundTrip(a);
    PriceChangePercentageRoundTrip(b);
  }

  lemma TickerOrderInjective(a: TickerOrder, b: TickerOrder)
    requires 0 <= a <= 2 && 0 <= b <= 2 && a != b
    ensures TickerOrderString(a) != TickerOrderString(b)
  {
    TickerOrderRoundTrip(a);
    TickerOrderRoundTrip(b);
  }

  // ---------------------------------------------------------------- ChartItem

  /** A chart point: a time as nanoseconds since the Unix epoch (`time.Unix(0, ns)`) and a value. */
  datatype ChartItem = ChartItem(timeNanos: int, value: real)

  const NanosPerMillisecond: int := 1_000_000

  /** Go's float64 to int64 conversion: truncation toward zero. */
  function Truncate(x: real): (n: int)
    ensures n as real <= x < n as real + 1.0 || n as real - 1.0 < x <= n as real
    ensures 0.0 <= x ==> 0 <= n && n as real <= x
    ensures x < 0.0 ==> n <= 0 && x <= n as real
  {
    if x >= 0.0 then x.Floor else -((-x).Floor)
  }

  /** Two's-complement wrap-around of int64 arithmetic. */
  function WrapInt64(n: int): (r: int)
    ensures Text.InInt64(r)
    ensures Text.InInt64(n) ==> r == n
  {
    (n - Text.MinInt64) % 0x1_0000_0000_0000_0000 + Text.MinInt64
  }

  /** `ChartItem.UnmarshalJSON` once the JSON decoder has produced the `[2]float64` pair: the time is the
      truncated millisecond count times `time.Millisecond`, computed in int64; a decoder error is passed on.
      Go leaves a float-to-int64 conversion of an out-of-range value unspecified, hence the precondition. */
  function ChartItemOf(content: Result<(real, real)>): (r: Result<ChartItem>)
    requires content.Ok? ==> Text.MinInt64 as real <= content.value.0 < (Text.MaxInt64 + 1) as real
    ensures content.Err? ==> r == Err(content.error)
    ensures content.Ok? ==> r.Ok? && r.value.value == content.value.1
    ensures content.Ok? ==> r.value.timeNanos == WrapInt64(Truncate(content.value.0) * NanosPerMillisecond)
  {
    match content
    case Err(e) => Err(e)
    case Ok(pair) => Ok(ChartItem(WrapInt64(Truncate(pair.0) * NanosPerMillisecond), pair.1))
  }

  /** Within the int64 nanosecond range (about 292 years either side of 1970) the time is exactly the
      whole milliseconds times 1,000,000, and a whole millisecond count converts without loss. */
  lemma ChartTimeIsMilliseconds(ms: real, value: real)
    requires Text.InInt64(Truncate(ms) * NanosPerMillisecond)
    requires Text.MinInt64 as real <= ms < (Text.MaxInt64 + 1) as real
    ensures ChartItemOf(Ok((ms, value))).value.timeNanos == Truncate(ms) * 1_000_000
    ensures ms == ms.Floor as real ==> ChartItemOf(Ok((ms, value))).value.timeNanos == ms.Floor * 1_000_000
  {
  }
}
