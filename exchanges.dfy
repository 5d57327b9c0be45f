/** The /exchanges endpoints: the paging parameters, the two list decoders that fill a map across the
    callbacks of a JSON array walk and keep the first error, the id guard of /exchanges/{id}, and the
    tickers parameters (v3/exchanges.go). */
module Exchanges {
  import opened Wrappers
  import opened Text
  import opened Query
  import opened Types
  import Coins
  import V3

  // ================================================================ ExchangesParam

  datatype ExchangesParam = ExchangesParam(pageSize: int, pageNo: int)

  /** The `Add`s `encodeQueryParams` makes, in order. */
  function ExchangesEntries(p: ExchangesParam): seq<Entry>
  {
    [ Entry(true, "per_page", Itoa(Coins.PerPage(p.pageSize))),
      Entry(true, "page", Itoa(Coins.AtLeastOne(p.pageNo))) ]
  }

  /** `encodeQueryParams`: a page size outside 1..250 becomes 100, a page number below 1 becomes 1. */
  method EncodeExchanges(p: ExchangesParam) returns (urlValues: Values)
    ensures urlValues == FromEntries(ExchangesEntries(p))
  {
    urlValues := [];
    var pageSize := p.pageSize;
    if pageSize < 1 || pageSize > 250 {
      pageSize := 100;
    }
    var e0 := Entry(true, "per_page", Itoa(pageSize));
    urlValues := AddIf(urlValues, e0);
    var pageNo := p.pageNo;
    if pageNo < 1 {
      pageNo := 1;
    }
    var e1 := Entry(true, "page", Itoa(pageNo));
    urlValues := AddIf(urlValues, e1);
    FromEntries2(e0, e1);
  }

  /** The query the encoder builds holds the two paging parameters and nothing else. */
  lemma ExchangesQuery(p: ExchangesParam)
    ensures Describes(FromEntries(ExchangesEntries(p)), ExchangesEntries(p))
  {
    FromEntriesDescribes(ExchangesEntries(p));
  }

  /** `per_page` is sent once and reads back as a number in 1..250: the page size itself when it lies
      there, 100 otherwise; `page` is sent once and reads back as the page number raised to at least 1. */
  lemma ExchangesQueryPaging(p: ExchangesParam, v: Values)
    requires EntriesHeld(v, ExchangesEntries(p))
    ensures |Get(v, "per_page")| == 1
    ensures var n := Atoi(Get(v, "per_page")[0]);
      && n.Some? && 1 <= n.value <= 250
      && n.value == (if 1 <= p.pageSize <= 250 then p.pageSize else 100)
    ensures |Get(v, "page")| == 1
    ensures InInt64(p.pageNo) ==> Atoi(Get(v, "page")[0]) == Some(if p.pageNo < 1 then 1 else p.pageNo)
  {
    var es := ExchangesEntries(p);
    HeldNumber(v, es, 0, Coins.PerPage(p.pageSize));
    assert es[1].key == "page";
    if InInt64(p.pageNo) {
      HeldNumber(v, es, 1, Coins.AtLeastOne(p.pageNo));
    }
  }

  // ================================================================ accumulating over an array walk

  /** What one array element contributes while no error has been recorded: an error, or a map entry. */
  datatype Outcome<V> = Failed(error: Error) | Keep(key: string, value: V)

  /** The shared `err` variable and the map after the callbacks for `os`: once an error is recorded,
      `firstError` keeps it and every later element is skipped. */
  function Collect<V>(os: seq<Outcome<V>>): (Option<Error>, map<string, V>)
  {
    if |os| == 0 then (None, map[])
    else
      var acc := Collect(os[..|os| - 1]);
      if acc.0.Some? then acc
      else match os[|os| - 1]
        case Failed(e) => (Some(e), acc.1)
        case Keep(k, v) => (None, acc.1[k := v])
  }

  /** `if err != nil { return nil, err }; return r, nil`. */
  function Finish<V>(acc: (Option<Error>, map<string, V>)): Result<map<string, V>>
  {
    if acc.0.Some? then Err(acc.0.value) else Ok(acc.1)
  }

  /** The error each element would report on its own. */
  function OutcomeErrors<V>(os: seq<Outcome<V>>): (errs: seq<Option<Error>>)
    ensures |errs| == |os|
    ensures forall i :: 0 <= i < |os| ==> errs[i] == if os[i].Failed? then Some(os[i].error) else None
  {
    if |os| == 0 then []
    else OutcomeErrors(os[..|os| - 1]) + [if os[|os| - 1].Failed? then Some(os[|os| - 1].error) else None]
  }

  /** The recorded error is `firstError` folded over the elements' own errors: none exactly when every
      element keeps an entry, and otherwise the error of the first element that fails. */
  lemma {:induction false} CollectFirstError<V>(os: seq<Outcome<V>>)
    ensures Collect(os).0 == V3.FoldFirstError(OutcomeErrors(os))
    decreases |os|
  {
    if |os| > 0 {
      var front := os[..|os| - 1];
      CollectFirstError(front);
      assert OutcomeErrors(os)[..|os| - 1] == OutcomeErrors(front);
    }
  }

  lemma CollectErrorIsFirstFailure<V>(os: seq<Outcome<V>>, i: nat)
    requires i < |os| && os[i].Failed?
    requires forall j :: 0 <= j < i ==> os[j].Keep?
    ensures Collect(os).0 == Some(os[i].error)
  {
    CollectFirstError(os);
    V3.FoldFirstErrorIsEarliest(OutcomeErrors(os), i);
  }

  lemma CollectNoError<V>(os: seq<Outcome<V>>)
    ensures Collect(os).0.None? <==> forall i :: 0 <= i < |os| ==> os[i].Keep?
  {
    CollectFirstError(os);
  }

  /** Once a prefix has recorded an error, the rest of the array changes neither the error nor the map. */
  lemma {:induction false} CollectSticky<V>(os: seq<Outcome<V>>, j: nat)
    requires j <= |os| && Collect(os[..j]).0.Some?
    ensures Collect(os) == Collect(os[..j])
    decreases |os|
  {
    if j < |os| {
      assert os[..|os| - 1][..j] == os[..j];
      CollectSticky(os[..|os| - 1], j);
    } else {
      assert os[..j] == os;
    }
  }

  /** Each entry adds at most one key, so the map never has more keys than the array has elements. */
  lemma {:induction false} CollectSize<V>(os: seq<Outcome<V>>)
    ensures |Collect(os).1| <= |os|
    decreases |os|
  {
    if |os| > 0 {
      CollectSize(os[..|os| - 1]);
    }
  }

  /** The position of the last element that keeps an entry under `k`. */
  function LastKeep<V>(os: seq<Outcome<V>>, k: string): (r: Option<nat>)
    ensures r.Some? ==> r.value < |os| && os[r.value].Keep? && os[r.value].key == k
    ensures r.None? <==> forall i :: 0 <= i < |os| ==> !(os[i].Keep? && os[i].key == k)
  {
    if |os| == 0 then None
    else if os[|os| - 1].Keep? && os[|os| - 1].key == k then Some(|os| - 1)
    else LastKeep(os[..|os| - 1], k)
  }

  /** Without an error the map holds exactly the keys the elements keep, each with the value of the
      last element that keeps it: a later duplicate key overwrites an earlier one. */
  lemma {:induction false} CollectContent<V>(os: seq<Outcome<V>>)
    requires Collect(os).0.None?
    ensures var m := Collect(os).1;
      forall k :: (k in m <==> LastKeep(os, k).Some?) && (k in m ==> m[k] == os[LastKeep(os, k).value].value)
    decreases |os|
  {
    if |os| > 0 {
      CollectContent(os[..|os| - 1]);
    }
  }

  /** Every key an element keeps is in the map when no error was recorded. */
  lemma CollectHasKey<V>(os: seq<Outcome<V>>, i: nat)
    requires Collect(os).0.None? && i < |os| && os[i].Keep?
    ensures os[i].key in Collect(os).1
  {
    CollectContent(os);
    assert LastKeep(os, os[i].key).Some?;
  }

  // ================================================================ Exchanges

  /** One callback of `ArrayEach`: the element's text and the scanner's error for it. */
  datatype Element = Element(raw: string, pErr: Option<Error>)

  /** `types.Exchange`: the id it is stored under, and the rest of the decoded record as given. */
  datatype Exchange = Exchange(id: string, details: string)

  /** What an element of /exchanges contributes: the scanner's error, `json.Unmarshal`'s error, or the
      decoded exchange under its id. */
  function ExchangeOutcome(e: Element, unmarshal: string -> Result<Exchange>): Outcome<Exchange>
  {
    if e.pErr.Some? then Failed(e.pErr.value)
    else match unmarshal(e.raw)
      case Ok(x) => Keep(x.id, x)
      case Err(u) => Failed(u)
  }

  lemma ExchangeOutcomeKeep(e: Element, unmarshal: string -> Result<Exchange>)
    requires ExchangeOutcome(e, unmarshal).Keep?
    ensures e.pErr.None? && unmarshal(e.raw).Ok? && ExchangeOutcome(e, unmarshal).key == unmarshal(e.raw).value.id
  {
  }

  function ExchangeOutcomes(es: seq<Element>, unmarshal: string -> Result<Exchange>): (os: seq<Outcome<Exchange>>)
    ensures |os| == |es|
    ensures forall i :: 0 <= i < |es| ==> os[i] == ExchangeOutcome(es[i], unmarshal)
  {
    if |es| == 0 then [] else ExchangeOutcomes(es[..|es| - 1], unmarshal) + [ExchangeOutcome(es[|es| - 1], unmarshal)]
  }

  /** `Exchanges(params)`: the request for `/exchanges` with the paging query, then the array walk over
      the body the transport returned (`resp`). The walk's own error is discarded (`_, _ =`), so only the
      elements it reached count. `unmarshal` is `json.Unmarshal` into `types.Exchange`. */
  method Exchanges(c: V3.Client, params: ExchangesParam, resp: Result<Scan<Element>>, unmarshal: string -> Result<Exchange>)
    returns (req: Request, r: Result<map<string, Exchange>>)
    ensures req == Request(c.baseURL + "/exchanges", FromEntries(ExchangesEntries(params)))
    ensures resp.Err? ==> r == Err(resp.error)
    ensures resp.Ok? ==> r == Finish(Collect(ExchangeOutcomes(resp.value.items, unmarshal)))
  {
    var query := EncodeExchanges(params);
    req := Request(c.baseURL + "/exchanges", query);
    if resp.Err? {
      return req, Err(resp.error);
    }
    var items := resp.value.items;
    var err: Option<Error> := None;
    var m: map<string, Exchange> := map[];
    for i := 0 to |items|
      invariant (err, m) == Collect(ExchangeOutcomes(items[..i], unmarshal))
    {
      var e := items[i];
      ghost var os := ExchangeOutcomes(items[..i], unmarshal);
      assert items[..i + 1][..i] == items[..i];
      assert (os + [ExchangeOutcome(e, unmarshal)])[..i] == os;
      var hasError := err.Some? || e.pErr.Some?;
      if hasError {
        err := V3.FirstError(err, e.pErr);
      } else {
        var u := unmarshal(e.raw);
        if u.Ok? {
          m := m[u.value.id := u.value];
        } else {
          err := Some(u.error);
        }
      }
    }
    assert items[..|items|] == items;
    if err.Some? {
      return req, Err(err.value);
    }
    r := Ok(m);
  }

  /** The /exchanges decoder fails exactly when some element it reached has a scanner or decoding
      error (which error it reports is `CollectErrorIsFirstFailure`'s). */
  lemma {:induction false} ExchangesDecodedOutcome(items: seq<Element>, unmarshal: string -> Result<Exchange>)
    ensures Collect(ExchangeOutcomes(items, unmarshal)).0.None? <==>
      forall i :: 0 <= i < |items| ==> items[i].pErr.None? && unmarshal(items[i].raw).Ok?
  {
    var os := ExchangeOutcomes(items, unmarshal);
    CollectNoError(os);
    assert forall i :: 0 <= i < |items| ==> (os[i].Keep? <==> items[i].pErr.None? && unmarshal(items[i].raw).Ok?);
  }

  /** A successful /exchanges decode holds every decoded exchange under its id, and has at most one
      entry per element; the exchange stored under an id is the one decoded from the last element with
      that id, so a later duplicate overwrites an earlier one. */
  lemma {:induction false} ExchangesDecodedContent(items: seq<Element>, unmarshal: string -> Result<Exchange>)
    requires Collect(ExchangeOutcomes(items, unmarshal)).0.None?
    ensures var os := ExchangeOutcomes(items, unmarshal);
      var m := Collect(os).1;
      && |m| <= |items|
      && (forall i :: 0 <= i < |items| ==> unmarshal(items[i].raw).Ok? && unmarshal(items[i].raw).value.id in m)
      && (forall k :: k in m ==> LastKeep(os, k).Some? && m[k] == unmarshal(items[LastKeep(os, k).value].raw).value)
  {
    var os := ExchangeOutcomes(items, unmarshal);
    CollectNoError(os);
    CollectSize(os);
    CollectContent(os);
    forall i | 0 <= i < |items| ensures unmarshal(items[i].raw).Ok? && unmarshal(items[i].raw).value.id in Collect(os).1 {
      ExchangeOutcomeKeep(items[i], unmarshal);
      CollectHasKey(os, i);
    }
  }

  // ================================================================ ExchangesList

  /** One `EachKey` callback: the index of the path that matched (0 for `id`, 1 for `name`), the value,
      and the scanner's error. */
  datatype KeyHit = KeyHit(idx: int, value: string, pErr: Option<Error>)

  /** One element of the /exchanges/list array: the `EachKey` walk over it, and the array walk's error
      for it. */
  datatype ListElement = ListElement(hits: seq<KeyHit>, pErr: Option<Error>)

  /** `(err, id, name)` after the `EachKey` callbacks `hits`, from no error and empty strings. */
  function ReadIdName(hits: seq<KeyHit>): (Option<Error>, string, string)
  {
    if |hits| == 0 then (None, "", "")
    else
      var acc := ReadIdName(hits[..|hits| - 1]);
      var h := hits[|hits| - 1];
      if acc.0.Some? || h.pErr.Some? then (V3.FirstError(acc.0, h.pErr), acc.1, acc.2)
      else if h.idx == 0 then (None, h.value, acc.2)
      else if h.idx == 1 then (None, acc.1, h.value)
      else acc
  }

  /** The value of the last hit for path `idx`, or "" when the path never matched. */
  function LastValue(hits: seq<KeyHit>, idx: int): (s: string)
    ensures s != "" ==> exists i :: 0 <= i < |hits| && hits[i].idx == idx && hits[i].value == s
  {
    if |hits| == 0 then ""
    else if hits[|hits| - 1].idx == idx then hits[|hits| - 1].value
    else LastValue(hits[..|hits| - 1], idx)
  }

  function HitErrors(hits: seq<KeyHit>): (errs: seq<Option<Error>>)
    ensures |errs| == |hits|
    ensures forall i :: 0 <= i < |hits| ==> errs[i] == hits[i].pErr
  {
    if |hits| == 0 then [] else HitErrors(hits[..|hits| - 1]) + [hits[|hits| - 1].pErr]
  }

  /** The inner walk keeps the first scanner error: its error is `firstError` folded over the hits'. */
  lemma {:induction false} ReadIdNameError(hits: seq<KeyHit>)
    ensures ReadIdName(hits).0 == V3.FoldFirstError(HitErrors(hits))
    decreases |hits|
  {
    if |hits| > 0 {
      var front := hits[..|hits| - 1];
      ReadIdNameError(front);
      ReadIdNameStepError(hits);
      var errs := HitErrors(hits);
      assert errs[..|hits| - 1] == HitErrors(front);
      assert V3.FoldFirstError(errs) == V3.FirstError(V3.FoldFirstError(HitErrors(front)), hits[|hits| - 1].pErr);
    }
  }

  lemma ReadIdNameStepError(hits: seq<KeyHit>)
    requires |hits| > 0
    ensures ReadIdName(hits).0 == V3.FirstError(ReadIdName(hits[..|hits| - 1]).0, hits[|hits| - 1].pErr)
  {
  }

  /** Without an error, `id` and `name` are the last values their paths matched, and "" for a path
      that never matched. */
  lemma {:induction false} ReadIdNameValues(hits: seq<KeyHit>)
    requires ReadIdName(hits).0.None?
    ensures ReadIdName(hits).1 == LastValue(hits, 0) && ReadIdName(hits).2 == LastValue(hits, 1)
    decreases |hits|
  {
    if |hits| > 0 {
      var front := hits[..|hits| - 1];
      assert ReadIdName(front).0.None?;
      ReadIdNameValues(front);
    }
  }

  /** What an element of /exchanges/list contributes: the scanner's error for it, the first error of its
      inner walk, or `id → name`. */
  function ListOutcome(e: ListElement): Outcome<string>
  {
    if e.pErr.Some? then Failed(e.pErr.value)
    else
      var acc := ReadIdName(e.hits);
      if acc.0.Some? then Failed(acc.0.value) else Keep(acc.1, acc.2)
  }

  function ListOutcomes(es: seq<ListElement>): (os: seq<Outcome<string>>)
    ensures |os| == |es|
    ensures forall i :: 0 <= i < |es| ==> os[i] == ListOutcome(es[i])
  {
    if |es| == 0 then [] else ListOutcomes(es[..|es| - 1]) + [ListOutcome(es[|es| - 1])]
  }

  /** The `EachKey` walk over one element, entered while no error is recorded. */
  method EachKey(hits: seq<KeyHit>) returns (err: Option<Error>, id: string, name: string)
    ensures (err, id, name) == ReadIdName(hits)
  {
    err, id, name := None, "", "";
    for i := 0 to |hits|
      invariant (err, id, name) == ReadIdName(hits[..i])
    {
      var h := hits[i];
      assert hits[..i + 1][..i] == hits[..i];
      var hasError := err.Some? || h.pErr.Some?;
      if hasError {
        err := V3.FirstError(err, h.pErr);
      } else if h.idx == 0 {
        id := h.value;
      } else if h.idx == 1 {
        name := h.value;
      }
    }
    assert hits[..|hits|] == hits;
  }

  /** `ExchangesList()`: the request for `/exchanges/list` (no query), then the array walk over the body
      the transport returned (`resp`); the walk's own error is discarded. */
  method ExchangesList(c: V3.Client, resp: Result<Scan<ListElement>>) returns (req: Request, r: Result<map<string, string>>)
    ensures req == Request(c.baseURL + "/exchanges/list", [])
    ensures resp.Err? ==> r == Err(resp.error)
    ensures resp.Ok? ==> r == Finish(Collect(ListOutcomes(resp.value.items)))
  {
    req := Request(c.baseURL + "/exchanges/list", []);
    if resp.Err? {
      return req, Err(resp.error);
    }
    var items := resp.value.items;
    var err: Option<Error> := None;
    var m: map<string, string> := map[];
    for i := 0 to |items|
      invariant (err, m) == Collect(ListOutcomes(items[..i]))
    {
      var e := items[i];
      ghost var os := ListOutcomes(items[..i]);
      assert items[..i + 1][..i] == items[..i];
      assert (os + [ListOutcome(e)])[..i] == os;
      var hasError := err.Some? || e.pErr.Some?;
      if hasError {
        err := V3.FirstError(err, e.pErr);
      } else {
        var id, name;
        err, id, name := EachKey(e.hits);
        if err.None? {
          m := m[id := name];
        }
      }
    }
    assert items[..|items|] == items;
    if err.Some? {
      return req, Err(err.value);
    }
    r := Ok(m);
  }

  /** /exchanges/list fails exactly when some element it reached, or some key walk inside one, reports
      a scanner error; otherwise each element's last `id` is a key, and each key maps to the last `name`
      of the last element whose last `id` it is. */
  lemma {:induction false} ExchangesListDecoded(items: seq<ListElement>)
    ensures var r := Finish(Collect(ListOutcomes(items)));
      && (r.Ok? <==> forall i :: 0 <= i < |items| ==> items[i].pErr.None? && forall j :: 0 <= j < |items[i].hits| ==> items[i].hits[j].pErr.None?)
      && (r.Ok? ==> |r.value| <= |items|)
      && (r.Ok? ==> forall i :: 0 <= i < |items| ==> LastValue(items[i].hits, 0) in r.value)
      && (r.Ok? ==> forall k :: k in r.value ==>
            var os := ListOutcomes(items);
            LastKeep(os, k).Some? && r.value[k] == LastValue(items[LastKeep(os, k).value].hits, 1))
  {
    var os := ListOutcomes(items);
    CollectNoError(os);
    CollectSize(os);
    forall i | 0 <= i < |items|
      ensures os[i].Keep? <==> items[i].pErr.None? && forall j :: 0 <= j < |items[i].hits| ==> items[i].hits[j].pErr.None?
      ensures os[i].Keep? ==> os[i].key == LastValue(items[i].hits, 0) && os[i].value == LastValue(items[i].hits, 1)
    {
      ReadIdNameError(items[i].hits);
      if items[i].pErr.None? && ReadIdName(items[i].hits).0.None? {
        ReadIdNameValues(items[i].hits);
      }
    }
    if Collect(os).0.None? {
      CollectContent(os);
    }
  }

  // ================================================================ ExchangesID

  const ExchangeIDRequired: string := "exchangeID is required"

  /** `ExchangesID(exchangeID)`: an empty id is refused before any URL is built; otherwise the answer
      for `/exchanges/{id}` (`resp`, the transport and `json.Unmarshal` together) is passed on. */
  method ExchangesID<D>(c: V3.Client, exchangeID: string, resp: Result<D>) returns (req: Option<Request>, r: Result<D>)
    ensures exchangeID == "" ==> req.None? && r == Err(Invalid(ExchangeIDRequired))
    ensures exchangeID != "" ==> req == Some(Request(c.baseURL + "/exchanges/" + exchangeID, [])) && r == resp
  {
    if exchangeID == "" {
      return None, Err(Invalid(ExchangeIDRequired));
    }
    req := Some(Request(c.baseURL + "/exchanges/" + exchangeID, []));
    r := resp;
  }

  // ================================================================ ExchangesIDTickersParams

  datatype ExchangesIDTickersParams = ExchangesIDTickersParams(
    exchangeID: string,
    coinIds: seq<string>,
    includeExchangeLogo: bool,
    pageNo: int,
    show2PctOrderBookDepth: bool,
    order: TickerOrder)

  const ExchangeIDTickersRequired: string := "ExchangeID is required"

  /** `Valid`: only the exchange id is required. */
  function ValidExchangesIDTickers(p: ExchangesIDTickersParams): (e: Option<Error>)
    ensures e == FirstMissing([(p.exchangeID, ExchangeIDTickersRequired)])
    ensures e.None? <==> p.exchangeID != ""
  {
    if p.exchangeID == "" then Some(Invalid(ExchangeIDTickersRequired)) else None
  }

  /** The `Add`s `encodeQueryParamsWithoutExchangeID` makes, in order. */
  function ExchangesIDTickersEntries(p: ExchangesIDTickersParams): seq<Entry>
    requires Coins.TickerOrderInRange(p.order)
  {
    [ Entry(|p.coinIds| > 0, "coin_ids", Join(p.coinIds, ",")),
      Entry(true, "include_exchange_logo", Bool2String(p.includeExchangeLogo)),
      Entry(true, "page", Itoa(Coins.AtLeastOne(p.pageNo))),
      Entry(p.show2PctOrderBookDepth, "depth", Bool2String(p.show2PctOrderBookDepth)),
      Entry(true, "order", TickerOrderString(p.order)) ]
  }

  /** `encodeQueryParamsWithoutExchangeID`: the exchange id goes into the path, not the query. */
  method EncodeExchangesIDTickers(p: ExchangesIDTickersParams) returns (params: Values)
    requires Coins.TickerOrderInRange(p.order)
    ensures params == FromEntries(ExchangesIDTickersEntries(p))
  {
    params := [];
    var e0 := Entry(|p.coinIds| > 0, "coin_ids", Join(p.coinIds, ","));
    params := AddIf(params, e0);
    var e1 := Entry(true, "include_exchange_logo", Bool2String(p.includeExchangeLogo));
    params := AddIf(params, e1);
    var pageNo := p.pageNo;
    if pageNo < 1 {
      pageNo := 1;
    }
    var e2 := Entry(true, "page", Itoa(pageNo));
    params := AddIf(params, e2);
    var e3 := Entry(p.show2PctOrderBookDepth, "depth", Bool2String(p.show2PctOrderBookDepth));
    params := AddIf(params, e3);
    var e4 := Entry(true, "order", TickerOrderString(p.order));
    params := AddIf(params, e4);
    FromEntries5(e0, e1, e2, e3, e4);
  }

  /** The query the encoder builds holds exactly the entries whose condition holds, one value each. */
  lemma ExchangesIDTickersQuery(p: ExchangesIDTickersParams)
    requires Coins.TickerOrderInRange(p.order)
    ensures Describes(FromEntries(ExchangesIDTickersEntries(p)), ExchangesIDTickersEntries(p))
  {
    ExchangesIDTickersKeysDistinct(p);
    FromEntriesDescribes(ExchangesIDTickersEntries(p));
  }

  lemma ExchangesIDTickersKeysDistinct(p: ExchangesIDTickersParams)
    requires Coins.TickerOrderInRange(p.order)
    ensures DistinctKeys(ExchangesIDTickersEntries(p))
  {
  }

  /** `include_exchange_logo`, `page` and `order` are always sent, once each, `page` at least 1 and
      `order` naming the given order; `depth` only as "true"; `coin_ids` only when the list is
      non-empty, and then as a list the server can split back. */
  lemma ExchangesIDTickersQueryMeaning(p: ExchangesIDTickersParams, v: Values)
    requires Coins.TickerOrderInRange(p.order) && EntriesHeld(v, ExchangesIDTickersEntries(p))
    requires forall i :: 0 <= i < |p.coinIds| ==> ',' !in p.coinIds[i]
    ensures |Get(v, "coin_ids")| == if |p.coinIds| > 0 then 1 else 0
    ensures |p.coinIds| > 0 ==> Split(Get(v, "coin_ids")[0], ',') == p.coinIds
    ensures Get(v, "include_exchange_logo") == [Bool2String(p.includeExchangeLogo)]
    ensures Get(v, "depth") == if p.show2PctOrderBookDepth then ["true"] else []
    ensures |Get(v, "order")| == 1 && Lookup(TickerOrderNames, Get(v, "order")[0]) == Some(p.order)
    ensures |Get(v, "page")| == 1 && (InInt64(p.pageNo) ==> Atoi(Get(v, "page")[0]) == Some(Coins.AtLeastOne(p.pageNo)))
  {
    var es := ExchangesIDTickersEntries(p);
    assert es[0].key == "coin_ids" && es[1].key == "include_exchange_logo" && es[2].key == "page";
    assert es[3].key == "depth" && es[4].key == "order";
    if |p.coinIds| > 0 {
      HeldList(v, es, 0, p.coinIds);
    }
    TickerOrderRoundTrip(p.order);
    if InInt64(p.pageNo) {
      HeldNumber(v, es, 2, Coins.AtLeastOne(p.pageNo));
    }
  }
}
