/** The /coins endpoints' parameter structs: their validators and the query parameters their encoders
    add (v3/coins.go). */
module Coins {
  import opened Wrappers
  import opened Text
  import opened Query
  import opened Types

  /** `if n < lo { n = lo }`: the page number is at least 1. */
  function AtLeastOne(n: int): (r: int)
    ensures r >= 1
    ensures n >= 1 ==> r == n
  {
    if n < 1 then 1 else n
  }

  /** `per_page`: a page size outside 1..250 falls back to 100. */
  function PerPage(n: int): (r: int)
    ensures 1 <= r <= 250
    ensures 1 <= n <= 250 ==> r == n
    ensures !(1 <= n <= 250) ==> r == 100
  {
    if n <= 0 || n > 250 then 100 else n
  }

  /** The wire names of a list of `PriceChangePercentage`s. */
  function PcpNames(pcp: seq<PriceChangePercentage>): (names: seq<string>)
    requires forall i :: 0 <= i < |pcp| ==> PriceChangePercentage1H <= pcp[i] <= PriceChangePercentage1Y
    ensures |names| == |pcp|
    ensures forall i :: 0 <= i < |pcp| ==> names[i] == PriceChangePercentageNames[pcp[i]]
  {
    if |pcp| == 0 then []
    else PcpNames(pcp[..|pcp| - 1]) + [PriceChangePercentageString(pcp[|pcp| - 1])]
  }

  // ================================================================ CoinsMarketParams

  datatype CoinsMarketParams = CoinsMarketParams(
    vsCurrency: string,
    coinIds: seq<string>,
    category: string,
    order: CoinsMarketOrder,
    pageSize: int,
    pageNo: int,
    sparkline: bool,
    priceChangePercentage: seq<PriceChangePercentage>)

  const VsCurrencyRequired: string := "VsCurrency is required"

  /** `Validate`: only the target currency is required. */
  function ValidateCoinsMarket(p: CoinsMarketParams): (e: Option<Error>)
    ensures e == FirstMissing([(p.vsCurrency, VsCurrencyRequired)])
    ensures e.None? <==> p.vsCurrency != ""
  {
    if p.vsCurrency == "" then Some(Invalid(VsCurrencyRequired)) else None
  }

  /** Every `PriceChangePercentage` of the list is a declared one (`String()` panics otherwise). */
  predicate PcpInRange(pcp: seq<PriceChangePercentage>)
  {
    forall i :: 0 <= i < |pcp| ==> PriceChangePercentage1H <= pcp[i] <= PriceChangePercentage1Y
  }

  /** The order sent: an order outside the table is replaced by market_cap_desc. */
  function NormalizedOrder(o: CoinsMarketOrder): (r: CoinsMarketOrder)
    ensures CoinMarketOrderMarketCapDesc <= r <= CoinMarketOrderVolumeDesc
    ensures CoinMarketOrderMarketCapDesc <= o <= CoinMarketOrderVolumeDesc ==> r == o
  {
    if o < 0 || o > 5 then CoinMarketOrderMarketCapDesc else o
  }

  /** The `Add`s `encodeQueryParams` makes, in order. */
  function CoinsMarketEntries(p: CoinsMarketParams): seq<Entry>
    requires PcpInRange(p.priceChangePercentage)
  {
    [ Entry(true, "vs_currency", p.vsCurrency),
      Entry(true, "order", CoinsMarketOrderString(NormalizedOrder(p.order))),
      Entry(|p.coinIds| != 0, "ids", Join(p.coinIds, ",")),
      Entry(true, "per_page", Itoa(PerPage(p.pageSize))),
      Entry(true, "page", Itoa(AtLeastOne(p.pageNo))),
      Entry(p.sparkline, "sparkline", Bool2String(p.sparkline)),
      Entry(|p.priceChangePercentage| != 0, "price_change_percentage", Join(PcpNames(p.priceChangePercentage), ",")) ]
  }

  /** The `strings.Builder` loop of `encodeQueryParams`: each window's wire name, with a ',' after every
      one but the last, is the comma-join of the names. */
  method JoinPcp(pcp: seq<PriceChangePercentage>) returns (sb: string)
    requires |pcp| != 0 && PcpInRange(pcp)
    ensures sb == Join(PcpNames(pcp), ",")
  {
    sb := "";
    var lastPcpIndex := |pcp| - 1;
    ghost var names := PcpNames(pcp);
    for i := 0 to |pcp|
      invariant i == 0 ==> sb == ""
      invariant 0 < i <= lastPcpIndex ==> sb == Join(names[..i], ",") + ","
      invariant i == |pcp| ==> sb == Join(names, ",")
    {
      JoinStep(names, i, sb);
      sb := sb + PriceChangePercentageString(pcp[i]);
      if i != lastPcpIndex {
        sb := sb + ",";
      } else {
        assert names[..i + 1] == names;
      }
    }
  }

  /** One turn of the builder loop: the next name completes the join of one more name. */
  lemma JoinStep(names: seq<string>, i: nat, sb: string)
    requires i < |names|
    requires i == 0 ==> sb == ""
    requires 0 < i ==> sb == Join(names[..i], ",") + ","
    ensures sb + names[i] == Join(names[..i + 1], ",")
  {
    assert names[..i + 1] == names[..i] + [names[i]];
    if i > 0 {
      JoinSnoc(names[..i], names[i], ",");
    } else {
      assert names[..1] == [names[0]];
    }
  }

  /** `encodeQueryParams`: clamps the order, page size and page number of its copy of the parameters,
      and writes the price-change windows through a `strings.Builder` with a ',' after every item but
      the last. */
  method EncodeCoinsMarket(p: CoinsMarketParams) returns (params: Values)
    requires PcpInRange(p.priceChangePercentage)
    ensures params == FromEntries(CoinsMarketEntries(p))
  {
    params := [];
    var e0 := Entry(true, "vs_currency", p.vsCurrency);
    params := AddIf(params, e0);

    var order := p.order;
    if order < 0 || order > 5 {
      order := CoinMarketOrderMarketCapDesc;
    }
    var e1 := Entry(true, "order", CoinsMarketOrderString(order));
    params := AddIf(params, e1);

    var e2 := Entry(|p.coinIds| != 0, "ids", Join(p.coinIds, ","));
    params := AddIf(params, e2);

    var pageSize := p.pageSize;
    if pageSize <= 0 || pageSize > 250 {
      pageSize := 100;
    }
    var e3 := Entry(true, "per_page", Itoa(pageSize));
    params := AddIf(params, e3);

    var pageNo := p.pageNo;
    if pageNo <= 1 {
      pageNo := 1;
    }
    var e4 := Entry(true, "page", Itoa(pageNo));
    params := AddIf(params, e4);

    var e5 := Entry(p.sparkline, "sparkline", Bool2String(p.sparkline));
    params := AddIf(params, e5);

    var pcp := p.priceChangePercentage;
    var sb := "";
    if |pcp| != 0 {
      sb := JoinPcp(pcp);
    }
    var e6 := Entry(|pcp| != 0, "price_change_percentage", sb);
    params := AddIf(params, e6);

    FromEntries7(e0, e1, e2, e3, e4, e5, e6);
  }

  /** The query the encoder builds holds exactly the entries whose condition holds, one value each. */
  lemma CoinsMarketQuery(p: CoinsMarketParams)
    requires PcpInRange(p.priceChangePercentage)
    ensures Describes(FromEntries(CoinsMarketEntries(p)), CoinsMarketEntries(p))
  {
    CoinsMarketKeysDistinct(p);
    FromEntriesDescribes(CoinsMarketEntries(p));
  }

  lemma CoinsMarketKeysDistinct(p: CoinsMarketParams)
    requires PcpInRange(p.priceChangePercentage)
    ensures DistinctKeys(CoinsMarketEntries(p))
  {
  }

  /** The `/coins/markets` query holds `vs_currency` as given and `sparkline` only as "true". */
  lemma CoinsMarketQueryPresence(p: CoinsMarketParams, v: Values)
    requires PcpInRange(p.priceChangePercentage) && EntriesHeld(v, CoinsMarketEntries(p))
    ensures Get(v, "vs_currency") == [p.vsCurrency]
    ensures Get(v, "sparkline") == if p.sparkline then ["true"] else []
  {
    var es := CoinsMarketEntries(p);
    assert es[0].key == "vs_currency" && es[5].key == "sparkline";
  }

  /** `ids` and `price_change_percentage` are sent once each when their lists are non-empty, and are
      absent otherwise. */
  lemma CoinsMarketQueryListCounts(p: CoinsMarketParams, v: Values)
    requires PcpInRange(p.priceChangePercentage) && EntriesHeld(v, CoinsMarketEntries(p))
    ensures |Get(v, "ids")| == if |p.coinIds| != 0 then 1 else 0
    ensures |Get(v, "price_change_percentage")| == if |p.priceChangePercentage| != 0 then 1 else 0
  {
    var es := CoinsMarketEntries(p);
    assert es[2].key == "ids" && es[6].key == "price_change_percentage";
  }

  /** `order` is sent once and names the normalised order. */
  lemma CoinsMarketQueryOrder(p: CoinsMarketParams, v: Values)
    requires PcpInRange(p.priceChangePercentage) && EntriesHeld(v, CoinsMarketEntries(p))
    ensures |Get(v, "order")| == 1 && Lookup(CoinsMarketOrderNames, Get(v, "order")[0]) == Some(NormalizedOrder(p.order))
  {
    var es := CoinsMarketEntries(p);
    assert es[1].key == "order";
    CoinsMarketOrderRoundTrip(NormalizedOrder(p.order));
  }

  /** `per_page` is sent once, a number in 1..250 (the page size itself when it lies there); `page` is
      sent once and reads back as the page number raised to at least 1. */
  lemma CoinsMarketQueryPaging(p: CoinsMarketParams, v: Values)
    requires PcpInRange(p.priceChangePercentage) && EntriesHeld(v, CoinsMarketEntries(p))
    ensures |Get(v, "per_page")| == 1 && Atoi(Get(v, "per_page")[0]) == Some(PerPage(p.pageSize))
    ensures |Get(v, "page")| == 1 && (InInt64(p.pageNo) ==> Atoi(Get(v, "page")[0]) == Some(AtLeastOne(p.pageNo)))
  {
    var es := CoinsMarketEntries(p);
    HeldNumber(v, es, 3, PerPage(p.pageSize));
    assert es[4].key == "page";
    if InInt64(p.pageNo) {
      HeldNumber(v, es, 4, AtLeastOne(p.pageNo));
    }
  }

  /** No wire name of a window contains a ','. */
  lemma PcpNamesNoComma(pcp: seq<PriceChangePercentage>)
    requires PcpInRange(pcp)
    ensures forall i :: 0 <= i < |PcpNames(pcp)| ==> ',' !in PcpNames(pcp)[i]
  {
    var names := PcpNames(pcp);
    PriceChangePercentageTable();
    forall i | 0 <= i < |names| ensures ',' !in names[i] {
      assert names[i] == PriceChangePercentageNames[pcp[i]];
    }
  }

  /** The lists survive the comma-join: splitting `ids` gives back the coin ids (when none contains a
      ','), and splitting `price_change_percentage` gives the wire names of the windows in order. */
  lemma CoinsMarketQueryLists(p: CoinsMarketParams, v: Values)
    requires PcpInRange(p.priceChangePercentage) && EntriesHeld(v, CoinsMarketEntries(p))
    requires forall i :: 0 <= i < |p.coinIds| ==> ',' !in p.coinIds[i]
    ensures |p.coinIds| != 0 ==> |Get(v, "ids")| == 1 && Split(Get(v, "ids")[0], ',') == p.coinIds
    ensures |p.priceChangePercentage| != 0 ==>
      && |Get(v, "price_change_percentage")| == 1
      && Split(Get(v, "price_change_percentage")[0], ',') == PcpNames(p.priceChangePercentage)
  {
    var es := CoinsMarketEntries(p);
    if |p.coinIds| != 0 {
      HeldList(v, es, 2, p.coinIds);
    }
    if |p.priceChangePercentage| != 0 {
      PcpNamesNoComma(p.priceChangePercentage);
      HeldList(v, es, 6, PcpNames(p.priceChangePercentage));
    }
  }

  /** `Category` is never sent: two parameter sets that differ only in it encode alike. */
  lemma CoinsMarketIgnoresCategory(p: CoinsMarketParams, category: string)
    requires PcpInRange(p.priceChangePercentage)
    ensures CoinsMarketEntries(p.(category := category)) == CoinsMarketEntries(p)
  {
  }

  // ================================================================ CoinsIDParams

  datatype CoinsIDParams = CoinsIDParams(
    coinID: string,
    localization: bool,
    tickers: bool,
    marketData: bool,
    communityData: bool,
    developerData: bool,
    sparkline: bool)

  const IdRequired: string := "id is required"

  /** `Validate`: only the coin id is required. */
  function ValidateCoinsID(p: CoinsIDParams): (e: Option<Error>)
    ensures e == FirstMissing([(p.coinID, IdRequired)])
    ensures e.None? <==> p.coinID != ""
  {
    if p.coinID == "" then Some(Invalid(IdRequired)) else None
  }

  /** The `Add`s `encodeNonIDQueryParams` makes: all six flags, unconditionally. */
  function CoinsIDEntries(p: CoinsIDParams): seq<Entry>
  {
    [ Entry(true, "localization", Bool2String(p.localization)),
      Entry(true, "tickers", Bool2String(p.tickers)),
      Entry(true, "market_data", Bool2String(p.marketData)),
      Entry(true, "community_data", Bool2String(p.communityData)),
      Entry(true, "developer_data", Bool2String(p.developerData)),
      Entry(true, "sparkline", Bool2String(p.sparkline)) ]
  }

  method EncodeCoinsID(p: CoinsIDParams) returns (params: Values)
    ensures params == FromEntries(CoinsIDEntries(p))
  {
    params := [];
    var e0 := Entry(true, "localization", Bool2String(p.localization));
    params := AddIf(params, e0);
    var e1 := Entry(true, "tickers", Bool2String(p.tickers));
    params := AddIf(params, e1);
    var e2 := Entry(true, "market_data", Bool2String(p.marketData));
    params := AddIf(params, e2);
    var e3 := Entry(true, "community_data", Bool2String(p.communityData));
    params := AddIf(params, e3);
    var e4 := Entry(true, "developer_data", Bool2String(p.developerData));
    params := AddIf(params, e4);
    var e5 := Entry(true, "sparkline", Bool2String(p.sparkline));
    params := AddIf(params, e5);
    FromEntries6(e0, e1, e2, e3, e4, e5);
  }

  /** The query the encoder builds holds exactly the entries whose condition holds, one value each. */
  lemma CoinsIDQuery(p: CoinsIDParams)
    ensures Describes(FromEntries(CoinsIDEntries(p)), CoinsIDEntries(p))
  {
    CoinsIDKeysDistinct(p);
    FromEntriesDescribes(CoinsIDEntries(p));
  }

  lemma CoinsIDKeysDistinct(p: CoinsIDParams)
    ensures DistinctKeys(CoinsIDEntries(p))
  {
  }

  /** The `/coins/{id}` query holds exactly the six flag keys, each with "true" or "false" as its flag is. */
  lemma CoinsIDQueryMeaning(p: CoinsIDParams, v: Values)
    requires EntriesHeld(v, CoinsIDEntries(p))
    ensures Get(v, "localization") == [Bool2String(p.localization)] && Get(v, "tickers") == [Bool2String(p.tickers)]
    ensures Get(v, "market_data") == [Bool2String(p.marketData)] && Get(v, "community_data") == [Bool2String(p.communityData)]
    ensures Get(v, "developer_data") == [Bool2String(p.developerData)] && Get(v, "sparkline") == [Bool2String(p.sparkline)]
  {
    var es := CoinsIDEntries(p);
    assert es[0].key == "localization" && es[1].key == "tickers" && es[2].key == "market_data";
    assert es[3].key == "community_data" && es[4].key == "developer_data" && es[5].key == "sparkline";
  }

  /** Nothing but those six keys is ever sent. */
  lemma CoinsIDNoOtherKeys(p: CoinsIDParams, v: Values, k: string)
    requires NoOtherKeys(v, CoinsIDEntries(p))
    requires k != "localization" && k != "tickers" && k != "market_data" && k != "community_data"
    requires k != "developer_data" && k != "sparkline"
    ensures Get(v, k) == []
  {
    var es := CoinsIDEntries(p);
    assert forall i :: 0 <= i < |es| ==> es[i].key != k;
  }

  // ================================================================ CoinsIDTickersParam

  datatype CoinsIDTickersParam = CoinsIDTickersParam(
    coinsID: string,
    exchangeIds: seq<string>,
    includeExchangeLogo: bool,
    pageNo: int,
    order: TickerOrder,
    show2PctOrderBookDepth: bool)

  const CoinsIDRequired: string := "CoinsID is required"

  /** `Validate`: only the coin id is required. */
  function ValidateCoinsIDTickers(p: CoinsIDTickersParam): (e: Option<Error>)
    ensures e == FirstMissing([(p.coinsID, CoinsIDRequired)])
    ensures e.None? <==> p.coinsID != ""
  {
    if p.coinsID == "" then Some(Invalid(CoinsIDRequired)) else None
  }

  /** The order is sent through `String()` unclamped, so it must be a declared `TickerOrder`. */
  predicate TickerOrderInRange(o: TickerOrder)
  {
    TickerOrderTrustScoreDesc <= o <= TickerOrderVolumeDesc
  }

  function CoinsIDTickersEntries(p: CoinsIDTickersParam): seq<Entry>
    requires TickerOrderInRange(p.order)
  {
    [ Entry(|p.exchangeIds| > 0, "exchange_ids", Join(p.exchangeIds, ",")),
      Entry(true, "include_exchange_logo", Bool2String(p.includeExchangeLogo)),
      Entry(true, "page", Itoa(AtLeastOne(p.pageNo))),
      Entry(true, "order", TickerOrderString(p.order)),
      Entry(true, "depth", Bool2String(p.show2PctOrderBookDepth)) ]
  }

  /** `encodeNonIDQueryParams` of the tickers parameters. */
  method EncodeCoinsIDTickers(p: CoinsIDTickersParam) returns (params: Values)
    requires TickerOrderInRange(p.order)
    ensures params == FromEntries(CoinsIDTickersEntries(p))
  {
    params := [];
    var e0 := Entry(|p.exchangeIds| > 0, "exchange_ids", Join(p.exchangeIds, ","));
    params := AddIf(params, e0);
    var e1 := Entry(true, "include_exchange_logo", Bool2String(p.includeExchangeLogo));
    params := AddIf(params, e1);
    var pageNo := p.pageNo;
    if pageNo < 1 {
      pageNo := 1;
    }
    var e2 := Entry(true, "page", Itoa(pageNo));
    params := AddIf(params, e2);
    var e3 := Entry(true, "order", TickerOrderString(p.order));
    params := AddIf(params, e3);
    var e4 := Entry(true, "depth", Bool2String(p.show2PctOrderBookDepth));
    params := AddIf(params, e4);
    FromEntries5(e0, e1, e2, e3, e4);
  }

  /** The query the encoder builds holds exactly the entries whose condition holds, one value each. */
  lemma CoinsIDTickersQuery(p: CoinsIDTickersParam)
    requires TickerOrderInRange(p.order)
    ensures Describes(FromEntries(CoinsIDTickersEntries(p)), CoinsIDTickersEntries(p))
  {
    CoinsIDTickersKeysDistinct(p);
    FromEntriesDescribes(CoinsIDTickersEntries(p));
  }

  lemma CoinsIDTickersKeysDistinct(p: CoinsIDTickersParam)
    requires TickerOrderInRange(p.order)
    ensures DistinctKeys(CoinsIDTickersEntries(p))
  {
  }

  /** `include_exchange_logo`, `page`, `order` and `depth` are always sent, once each, `page` at least 1
      and `order` naming the given order; `exchange_ids` only when the list is non-empty, and then as a
      list the server can split back. */
  lemma CoinsIDTickersQueryMeaning(p: CoinsIDTickersParam, v: Values)
    requires TickerOrderInRange(p.order) && EntriesHeld(v, CoinsIDTickersEntries(p))
    requires forall i :: 0 <= i < |p.exchangeIds| ==> ',' !in p.exchangeIds[i]
    ensures |Get(v, "exchange_ids")| == if |p.exchangeIds| > 0 then 1 else 0
    ensures |p.exchangeIds| > 0 ==> Split(Get(v, "exchange_ids")[0], ',') == p.exchangeIds
    ensures Get(v, "include_exchange_logo") == [Bool2String(p.includeExchangeLogo)]
    ensures Get(v, "depth") == [Bool2String(p.show2PctOrderBookDepth)]
    ensures |Get(v, "order")| == 1 && Lookup(TickerOrderNames, Get(v, "order")[0]) == Some(p.order)
    ensures |Get(v, "page")| == 1 && (InInt64(p.pageNo) ==> Atoi(Get(v, "page")[0]) == Some(AtLeastOne(p.pageNo)))
  {
    var es := CoinsIDTickersEntries(p);
    assert es[0].key == "exchange_ids" && es[1].key == "include_exchange_logo" && es[2].key == "page";
    assert es[3].key == "order" && es[4].key == "depth";
    if |p.exchangeIds| > 0 {
      HeldList(v, es, 0, p.exchangeIds);
    }
    TickerOrderRoundTrip(p.order);
    if InInt64(p.pageNo) {
      HeldNumber(v, es, 2, AtLeastOne(p.pageNo));
    }
  }

  // ================================================================ CoinsIDHistoryParams

  datatype CoinsIDHistoryParams = CoinsIDHistoryParams(coinID: string, snapshotDate: string, isIncludeLocalization: bool)

  const CoinIDRequired: string := "CoinID is required"
  const SnapshotDateRequired: string := "SnapshotDate is required"

  /** `Validate`: the coin id first, then the snapshot date. */
  function ValidateCoinsIDHistory(p: CoinsIDHistoryParams): (e: Option<Error>)
    ensures e == FirstMissing([(p.coinID, CoinIDRequired), (p.snapshotDate, SnapshotDateRequired)])
  {
    if p.coinID == "" then Some(Invalid(CoinIDRequired))
    else if p.snapshotDate == "" then Some(Invalid(SnapshotDateRequired))
    else None
  }

  /** The order of the checks: a missing coin id is reported even when the date is missing too. */
  lemma CoinsIDHistoryValidateOrder(p: CoinsIDHistoryParams)
    ensures ValidateCoinsIDHistory(p).None? <==> p.coinID != "" && p.snapshotDate != ""
    ensures p.coinID == "" ==> ValidateCoinsIDHistory(p) == Some(Invalid(CoinIDRequired))
    ensures p.coinID != "" && p.snapshotDate == "" ==> ValidateCoinsIDHistory(p) == Some(Invalid(SnapshotDateRequired))
  {
    var fields := [(p.coinID, CoinIDRequired), (p.snapshotDate, SnapshotDateRequired)];
    assert fields[0].0 == p.coinID && fields[1].0 == p.snapshotDate;
  }

  /** The `Add`s of `encodeNonIDQueryParams`: the date and the localization flag, unconditionally. */
  function CoinsIDHistoryEntries(p: CoinsIDHistoryParams): seq<Entry>
  {
    [Entry(true, "date", p.snapshotDate), Entry(true, "localization", Bool2String(p.isIncludeLocalization))]
  }

  /** The `/coins/{id}/history` query: `date` as given, even when empty, and `localization` as the flag is. */
  method EncodeCoinsIDHistory(p: CoinsIDHistoryParams) returns (params: Values)
    ensures params == FromEntries(CoinsIDHistoryEntries(p))
  {
    params := [];
    var e0 := Entry(true, "date", p.snapshotDate);
    params := AddIf(params, e0);
    var e1 := Entry(true, "localization", Bool2String(p.isIncludeLocalization));
    params := AddIf(params, e1);
    FromEntries2(e0, e1);
  }

  /** The `/coins/{id}/history` query holds `date` as given, even when empty, `localization` as the flag
      is, and nothing else. */
  lemma CoinsIDHistoryQuery(p: CoinsIDHistoryParams)
    ensures Describes(FromEntries(CoinsIDHistoryEntries(p)), CoinsIDHistoryEntries(p))
    ensures Get(FromEntries(CoinsIDHistoryEntries(p)), "date") == [p.snapshotDate]
    ensures Get(FromEntries(CoinsIDHistoryEntries(p)), "localization") == [Bool2String(p.isIncludeLocalization)]
  {
    var es := CoinsIDHistoryEntries(p);
    FromEntriesDescribes(es);
    assert es[0].key == "date" && es[1].key == "localization";
  }

  // ================================================================ CoinsIDMarketChartParams

  datatype CoinsIDMarketChartParams = CoinsIDMarketChartParams(coinsID: string, vsCurrency: string, days: string)

  const DaysRequired: string := "Days is required"

  /** `Validate`: the coin id, then the target currency, then the days. */
  function ValidateCoinsIDMarketChart(p: CoinsIDMarketChartParams): (e: Option<Error>)
    ensures e == FirstMissing([(p.coinsID, CoinsIDRequired), (p.vsCurrency, VsCurrencyRequired), (p.days, DaysRequired)])
  {
    var fields := [(p.coinsID, CoinsIDRequired), (p.vsCurrency, VsCurrencyRequired), (p.days, DaysRequired)];
    assert fields[1..][1..] == [(p.days, DaysRequired)];
    assert FirstMissing(fields[1..][1..]) == if p.days == "" then Some(Invalid(DaysRequired)) else None;
    assert FirstMissing(fields[1..]) == if p.vsCurrency == "" then Some(Invalid(VsCurrencyRequired)) else FirstMissing(fields[1..][1..]);
    if p.coinsID == "" then Some(Invalid(CoinsIDRequired))
    else if p.vsCurrency == "" then Some(Invalid(VsCurrencyRequired))
    else if p.days == "" then Some(Invalid(DaysRequired))
    else None
  }

  /** The order of the checks: the first missing field of coin id, currency, days is reported. */
  lemma CoinsIDMarketChartValidateOrder(p: CoinsIDMarketChartParams)
    ensures ValidateCoinsIDMarketChart(p).None? <==> p.coinsID != "" && p.vsCurrency != "" && p.days != ""
    ensures p.coinsID == "" ==> ValidateCoinsIDMarketChart(p) == Some(Invalid(CoinsIDRequired))
    ensures p.coinsID != "" && p.vsCurrency == "" ==> ValidateCoinsIDMarketChart(p) == Some(Invalid(VsCurrencyRequired))
    ensures p.coinsID != "" && p.vsCurrency != "" && p.days == "" ==> ValidateCoinsIDMarketChart(p) == Some(Invalid(DaysRequired))
  {
    var fields := [(p.coinsID, CoinsIDRequired), (p.vsCurrency, VsCurrencyRequired), (p.days, DaysRequired)];
    assert fields[0].0 == p.coinsID && fields[1].0 == p.vsCurrency && fields[2].0 == p.days;
  }

  /** The `Add`s of `encodeNonIDQueryParams`: the target currency and the days, unconditionally. */
  function CoinsIDMarketChartEntries(p: CoinsIDMarketChartParams): seq<Entry>
  {
    [Entry(true, "vs_currency", p.vsCurrency), Entry(true, "days", p.days)]
  }

  /** The `/coins/{id}/market_chart` query: `vs_currency` and `days` as given. */
  method EncodeCoinsIDMarketChart(p: CoinsIDMarketChartParams) returns (params: Values)
    ensures params == FromEntries(CoinsIDMarketChartEntries(p))
  {
    params := [];
    var e0 := Entry(true, "vs_currency", p.vsCurrency);
    params := AddIf(params, e0);
    var e1 := Entry(true, "days", p.days);
    params := AddIf(params, e1);
    FromEntries2(e0, e1);
  }

  /** The `/coins/{id}/market_chart` query holds `vs_currency` and `days` as given, and nothing else. */
  lemma CoinsIDMarketChartQuery(p: CoinsIDMarketChartParams)
    ensures Describes(FromEntries(CoinsIDMarketChartEntries(p)), CoinsIDMarketChartEntries(p))
    ensures Get(FromEntries(CoinsIDMarketChartEntries(p)), "vs_currency") == [p.vsCurrency]
    ensures Get(FromEntries(CoinsIDMarketChartEntries(p)), "days") == [p.days]
  {
    var es := CoinsIDMarketChartEntries(p);
    FromEntriesDescribes(es);
    assert es[0].key == "vs_currency" && es[1].key == "days";
  }
}
