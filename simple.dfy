/** /simple/price: parameter validation and encoding, and the decoder that turns the flat per-coin
    objects with compound keys (`usd`, `usd_market_cap`, `usd_24h_vol`, `usd_24h_change`,
    `last_updated_at`) into per-currency quotes (v3/simple.go). */
module Simple {
  import opened Wrappers
  import opened Text
  import opened Query
  import V3

  // ================================================================ parameters

  datatype SimplePriceParams = SimplePriceParams(
    coinIDs: seq<string>,
    vsCurrencies: seq<string>,
    includeMarketCap: bool,
    include24HrVolume: bool,
    include24HrChange: bool,
    includeLastUpdatedAt: bool,
    precision: string)

  const CoinIDsRequired: string := "CoinIDs is required and must contain at least 1 item"
  const VsCurrenciesRequired: string := "VsCurrencies is required and must contain at least 1 item"
  const PrecisionInvalid: string := "Precision must either be empty string, or \"full\", or an int [0,18]"

  /** `toInt`: the integer a string denotes, or -1 when `strconv.Atoi` rejects it. */
  function ToInt(v: string): int
  {
    match Atoi(v)
    case Some(n) => n
    case None => -1
  }

  /** `ToInt` reads back every 64-bit decimal rendering, and sends every non-number to -1. */
  lemma ToIntMeaning(n: int, s: string)
    requires InInt64(n)
    ensures ToInt(Itoa(n)) == n
    ensures Atoi(s).None? ==> ToInt(s) == -1
  {
    AtoiItoa(n);
  }

  /** The precisions the API accepts. */
  predicate PrecisionAllowed(s: string)
  {
    s == "" || s == "full" || (Atoi(s).Some? && 0 <= Atoi(s).value <= 18)
  }

  /** `Valid`: the coin list is checked first, then the currency list, then the precision. */
  function Valid(p: SimplePriceParams): (e: Option<Error>)
    ensures |p.coinIDs| == 0 ==> e == Some(Invalid(CoinIDsRequired))
    ensures |p.coinIDs| > 0 && |p.vsCurrencies| == 0 ==> e == Some(Invalid(VsCurrenciesRequired))
    ensures |p.coinIDs| > 0 && |p.vsCurrencies| > 0 ==>
      e == if PrecisionAllowed(p.precision) then None else Some(Invalid(PrecisionInvalid))
  {
    if |p.coinIDs| < 1 then Some(Invalid(CoinIDsRequired))
    else if |p.vsCurrencies| < 1 then Some(Invalid(VsCurrenciesRequired))
    else
      var n := ToInt(p.precision);
      if p.precision != "" && p.precision != "full" && (n < 0 || n > 18) then Some(Invalid(PrecisionInvalid))
      else None
  }

  /** Every precision written as `format.Int2String(n)` for n in [0,18] passes; a precision with a
      non-digit (other than a leading sign) that is not "full" fails. */
  lemma PrecisionExamples(p: SimplePriceParams, n: int, i: nat)
    requires |p.coinIDs| > 0 && |p.vsCurrencies| > 0
    ensures 0 <= n <= 18 ==> Valid(p.(precision := Itoa(n))) == None
    ensures p.precision != "full" && i < |p.precision| && !IsDigit(p.precision[i]) &&
            (i > 0 || (p.precision[0] != '+' && p.precision[0] != '-')) ==>
              Valid(p) == Some(Invalid(PrecisionInvalid))
  {
    if 0 <= n <= 18 {
      AtoiItoa(n);
    }
    if p.precision != "full" && i < |p.precision| && !IsDigit(p.precision[i]) &&
       (i > 0 || (p.precision[0] != '+' && p.precision[0] != '-')) {
      AtoiRejectsNonDigit(p.precision, i);
    }
  }

  /** The `Add`s `encode` makes, in order: `ids` and `vs_currencies` always, each `include_*` flag
      (as "true") only when it is set, `precision` only when it is non-empty. */
  function SimplePriceEntries(p: SimplePriceParams): seq<Entry>
  {
    [ Entry(true, "ids", Join(p.coinIDs, ",")),
      Entry(true, "vs_currencies", Join(p.vsCurrencies, ",")),
      Entry(p.includeMarketCap, "include_market_cap", Bool2String(p.includeMarketCap)),
      Entry(p.include24HrVolume, "include_24hr_vol", Bool2String(p.include24HrVolume)),
      Entry(p.include24HrChange, "include_24hr_change", Bool2String(p.include24HrChange)),
      Entry(p.includeLastUpdatedAt, "include_last_updated_at", Bool2String(p.includeLastUpdatedAt)),
      Entry(p.precision != "", "precision", p.precision) ]
  }

  /** `encode`: the query holds exactly the entries of `SimplePriceEntries` whose condition holds,
      each key with one value. */
  method Encode(p: SimplePriceParams) returns (values: Values)
    ensures values == FromEntries(SimplePriceEntries(p))
  {
    values := [];
    var e0 := Entry(true, "ids", Join(p.coinIDs, ","));
    values := AddIf(values, e0);
    var e1 := Entry(true, "vs_currencies", Join(p.vsCurrencies, ","));
    values := AddIf(values, e1);
    var e2 := Entry(p.includeMarketCap, "include_market_cap", Bool2String(p.includeMarketCap));
    values := AddIf(values, e2);
    var e3 := Entry(p.include24HrVolume, "include_24hr_vol", Bool2String(p.include24HrVolume));
    values := AddIf(values, e3);
    var e4 := Entry(p.include24HrChange, "include_24hr_change", Bool2String(p.include24HrChange));
    values := AddIf(values, e4);
    var e5 := Entry(p.includeLastUpdatedAt, "include_last_updated_at", Bool2String(p.includeLastUpdatedAt));
    values := AddIf(values, e5);
    var e6 := Entry(p.precision != "", "precision", p.precision);
    values := AddIf(values, e6);
    FromEntries7(e0, e1, e2, e3, e4, e5, e6);
  }

  /** The query `encode` builds holds exactly the entries whose condition holds, one value each. */
  lemma SimplePriceQuery(p: SimplePriceParams)
    ensures Describes(FromEntries(SimplePriceEntries(p)), SimplePriceEntries(p))
  {
    SimplePriceKeysDistinct(p);
    FromEntriesDescribes(SimplePriceEntries(p));
  }

  lemma SimplePriceKeysDistinct(p: SimplePriceParams)
    ensures DistinctKeys(SimplePriceEntries(p))
  {
  }

  /** The `include_*` flags are only ever sent as "true": an unset flag is absent, not "false";
      `precision` is sent exactly when it is non-empty. */
  lemma SimplePriceFlagsOnlyTrue(p: SimplePriceParams, v: Values)
    requires EntriesHeld(v, SimplePriceEntries(p))
    ensures Get(v, "include_market_cap") == if p.includeMarketCap then ["true"] else []
    ensures Get(v, "include_24hr_vol") == if p.include24HrVolume then ["true"] else []
    ensures Get(v, "include_24hr_change") == if p.include24HrChange then ["true"] else []
    ensures Get(v, "include_last_updated_at") == if p.includeLastUpdatedAt then ["true"] else []
    ensures Get(v, "precision") == if p.precision != "" then [p.precision] else []
  {
    var es := SimplePriceEntries(p);
    assert es[2].key == "include_market_cap" && es[3].key == "include_24hr_vol";
    assert es[4].key == "include_24hr_change" && es[5].key == "include_last_updated_at" && es[6].key == "precision";
  }

  /** Nothing but those seven keys is ever sent. */
  lemma SimplePriceNoOtherKeys(p: SimplePriceParams, v: Values, k: string)
    requires NoOtherKeys(v, SimplePriceEntries(p))
    requires k != "ids" && k != "vs_currencies" && k != "include_market_cap" && k != "include_24hr_vol"
    requires k != "include_24hr_change" && k != "include_last_updated_at" && k != "precision"
    ensures Get(v, k) == []
  {
    var es := SimplePriceEntries(p);
    assert forall i :: 0 <= i < |es| ==> es[i].key != k;
  }

  /** `ids` and `vs_currencies` are always sent, once each, and the server can split them back into
      the lists the caller gave when the parameters are valid and no id or currency contains a comma. */
  lemma SimplePriceQueryLists(p: SimplePriceParams, v: Values)
    requires EntriesHeld(v, SimplePriceEntries(p)) && Valid(p).None?
    requires forall i :: 0 <= i < |p.coinIDs| ==> ',' !in p.coinIDs[i]
    requires forall i :: 0 <= i < |p.vsCurrencies| ==> ',' !in p.vsCurrencies[i]
    ensures |Get(v, "ids")| == 1 && Split(Get(v, "ids")[0], ',') == p.coinIDs
    ensures |Get(v, "vs_currencies")| == 1 && Split(Get(v, "vs_currencies")[0], ',') == p.vsCurrencies
  {
    var es := SimplePriceEntries(p);
    HeldList(v, es, 0, p.coinIDs);
    HeldList(v, es, 1, p.vsCurrencies);
  }

  // ================================================================ decoding one coin's object

  /** One key/value pair of a JSON object, the value as its raw text. */
  datatype Member = Member(key: string, raw: string)

  /** `jsonparser.ParseInt` and `jsonparser.ParseFloat`: the scanner's number syntax is not part of this
      model, so the decoder takes them as given. */
  datatype NumberParsers = NumberParsers(parseInt: string -> Option<int>, parseFloat: string -> Option<real>)

  /** `SimplePriceCurrencyItem`: the fields are float64 in Go, modelled as reals that pass through untouched. */
  datatype Quote = Quote(price: real, marketCap: Option<real>, volume24H: Option<real>, change24H: Option<real>)

  /** `SimplePriceItem`; the timestamp is whole Unix seconds, None while no `last_updated_at` was seen. */
  datatype SimplePriceItem = SimplePriceItem(currencies: map<string, Quote>, lastUpdatedAt: Option<int>)

  const LastUpdatedAtKey: string := "last_updated_at"
  const EmptyQuote: Quote := Quote(0.0, None, None, None)
  const EmptyItem: SimplePriceItem := SimplePriceItem(map[], None)

  function QuoteIn(item: SimplePriceItem, cur: string): Quote
  {
    if cur in item.currencies then item.currencies[cur] else EmptyQuote
  }

  /** The error for a value that does not parse, naming the coin, the field and the raw text. */
  function MemberError(coinID: string, m: Member): Error
  {
    if m.key == LastUpdatedAtKey then BadValue(coinID, "last_updated_at", m.raw)
    else if IndexOf(m.key, '_') != -1 then BadValue(coinID, m.key, m.raw)
    else BadValue(coinID, m.key + ".Price", m.raw)
  }

  /** Whether the member's value parses with the parser its key selects. */
  predicate MemberParses(m: Member, nums: NumberParsers)
  {
    if m.key == LastUpdatedAtKey then nums.parseInt(m.raw).Some? else nums.parseFloat(m.raw).Some?
  }

  /** One callback of `parseSimplePriceItem`: route the key, parse the value, update the item. */
  function ApplyMember(coinID: string, nums: NumberParsers, item: SimplePriceItem, m: Member): (r: Result<SimplePriceItem>)
    // every value that fails to parse is an error naming it
    ensures r.Ok? <==> MemberParses(m, nums)
    ensures r.Err? ==> r.error == MemberError(coinID, m)
  {
    var key := m.key;
    if key == LastUpdatedAtKey then
      match nums.parseInt(m.raw)
      case Some(t) => Ok(item.(lastUpdatedAt := Some(t)))
      case None => Err(BadValue(coinID, "last_updated_at", m.raw))
    else
      var underscoreIndex := IndexOf(key, '_');
      if underscoreIndex != -1 then
        var currCode := key[..underscoreIndex];
        var currItem := QuoteIn(item, currCode);
        var suffix := key[underscoreIndex + 1..];
        match nums.parseFloat(m.raw)
        case Some(v) =>
          var updated :=
            if suffix == "market_cap" then currItem.(marketCap := Some(v))
            else if suffix == "24h_vol" then currItem.(volume24H := Some(v))
            else if suffix == "24h_change" then currItem.(change24H := Some(v))
            else currItem;
          Ok(item.(currencies := item.currencies[currCode := updated]))
        case None => Err(BadValue(coinID, key, m.raw))
      else
        var currItem := QuoteIn(item, key);
        match nums.parseFloat(m.raw)
        case Some(v) => Ok(item.(currencies := item.currencies[key := currItem.(price := v)]))
        case None => Err(BadValue(coinID, key + ".Price", m.raw))
  }

  /** The callbacks of `parseSimplePriceItem` in document order; the first error ends the walk. */
  function ParseMembers(coinID: string, ms: seq<Member>, nums: NumberParsers): Result<SimplePriceItem>
  {
    if |ms| == 0 then Ok(EmptyItem)
    else
      match ParseMembers(coinID, ms[..|ms| - 1], nums)
      case Err(e) => Err(e)
      case Ok(item) => ApplyMember(coinID, nums, item, ms[|ms| - 1])
  }

  /** What `parseSimplePriceItem(coinID, ba)` returns: the item, or the first error (of a callback or of
      the scanner); an error never comes with a partial item. */
  function ParseItem(coinID: string, ba: Scan<Member>, nums: NumberParsers): Result<SimplePriceItem>
  {
    match ParseMembers(coinID, ba.items, nums)
    case Err(e) => Err(e)
    case Ok(item) => if ba.failure.Some? then Err(ba.failure.value) else Ok(item)
  }

  /** Once a prefix of the members has failed, the rest of the object is never looked at. */
  lemma {:induction false} ParseMembersErrSticky(coinID: string, ms: seq<Member>, nums: NumberParsers, j: nat)
    requires j <= |ms| && ParseMembers(coinID, ms[..j], nums).Err?
    ensures ParseMembers(coinID, ms, nums) == ParseMembers(coinID, ms[..j], nums)
    decreases |ms|
  {
    if j < |ms| {
      assert ms[..|ms| - 1][..j] == ms[..j];
      ParseMembersErrSticky(coinID, ms[..|ms| - 1], nums, j);
    } else {
      assert ms[..j] == ms;
    }
  }

  /** Fail-fast: decoding succeeds exactly when every value parses, and otherwise reports the first
      value that does not. */
  lemma {:induction false} ParseMembersOutcome(coinID: string, ms: seq<Member>, nums: NumberParsers)
    ensures ParseMembers(coinID, ms, nums).Ok? <==> forall i :: 0 <= i < |ms| ==> MemberParses(ms[i], nums)
    ensures forall i :: 0 <= i < |ms| && !MemberParses(ms[i], nums) &&
                        (forall j :: 0 <= j < i ==> MemberParses(ms[j], nums)) ==>
              ParseMembers(coinID, ms, nums) == Err(MemberError(coinID, ms[i]))
    decreases |ms|
  {
    if |ms| > 0 {
      var front := ms[..|ms| - 1];
      ParseMembersOutcome(coinID, front, nums);
      assert forall i :: 0 <= i < |front| ==> front[i] == ms[i];
    }
  }

  // ---------------------------------------------------------------- what a decoded item holds

  /** Which field of the item a key writes, by the first-underscore rule. */
  datatype Slot = Timestamp | Price(cur: string) | MarketCap(cur: string) | Volume(cur: string)
                | Change(cur: string) | Other(cur: string)

  function SlotOf(key: string): Slot
  {
    if key == LastUpdatedAtKey then Timestamp
    else if '_' !in key then Price(key)
    else
      var k := IndexOf(key, '_');
      var cur, suffix := key[..k], key[k + 1..];
      if suffix == "market_cap" then MarketCap(cur)
      else if suffix == "24h_vol" then Volume(cur)
      else if suffix == "24h_change" then Change(cur)
      else Other(cur)
  }

  /** The position of the last member that writes slot `s`. */
  function LastIn(ms: seq<Member>, s: Slot): (r: Option<nat>)
    ensures r.Some? ==> r.value < |ms| && SlotOf(ms[r.value].key) == s
  {
    if |ms| == 0 then None
    else if SlotOf(ms[|ms| - 1].key) == s then Some(|ms| - 1)
    else LastIn(ms[..|ms| - 1], s)
  }

  function FloatAt(ms: seq<Member>, i: Option<nat>, nums: NumberParsers): Option<real>
  {
    if i.Some? && i.value < |ms| then nums.parseFloat(ms[i.value].raw) else None
  }

  /** The currencies the members mention. */
  function Currencies(ms: seq<Member>): set<string>
  {
    if |ms| == 0 then {}
    else
      var s := SlotOf(ms[|ms| - 1].key);
      Currencies(ms[..|ms| - 1]) + (if s.Timestamp? then {} else {s.cur})
  }

  /** The quote of `cur` as the members determine it: each field from the last member that writes it. */
  function ExpectedQuote(ms: seq<Member>, cur: string, nums: NumberParsers): Quote
  {
    Quote(FloatAt(ms, LastIn(ms, Price(cur)), nums).GetOr(0.0),
          FloatAt(ms, LastIn(ms, MarketCap(cur)), nums),
          FloatAt(ms, LastIn(ms, Volume(cur)), nums),
          FloatAt(ms, LastIn(ms, Change(cur)), nums))
  }

  function ExpectedTimestamp(ms: seq<Member>, nums: NumberParsers): Option<int>
  {
    var i := LastIn(ms, Timestamp);
    if i.Some? then nums.parseInt(ms[i.value].raw) else None
  }

  /** A slot that some member writes belongs to a mentioned currency. */
  lemma {:induction false} LastInMentioned(ms: seq<Member>, s: Slot)
    requires !s.Timestamp? && LastIn(ms, s).Some?
    ensures s.cur in Currencies(ms)
    decreases |ms|
  {
    if SlotOf(ms[|ms| - 1].key) != s {
      LastInMentioned(ms[..|ms| - 1], s);
    }
  }

  /** The quote `q` after a value `v` is written to slot `s`. */
  function WriteSlot(q: Quote, s: Slot, v: real): Quote
  {
    Quote(if s.Price? then v else q.price,
          if s.MarketCap? then Some(v) else q.marketCap,
          if s.Volume? then Some(v) else q.volume24H,
          if s.Change? then Some(v) else q.change24H)
  }

  /** A successful callback on a currency key writes the parsed value into that currency's slot. */
  lemma ApplyMemberWrites(coinID: string, nums: NumberParsers, item: SimplePriceItem, m: Member)
    requires ApplyMember(coinID, nums, item, m).Ok? && !SlotOf(m.key).Timestamp?
    ensures var s := SlotOf(m.key);
      ApplyMember(coinID, nums, item, m).value
        == item.(currencies := item.currencies[s.cur := WriteSlot(QuoteIn(item, s.cur), s, nums.parseFloat(m.raw).value)])
  {
    var key := m.key;
    var k := IndexOf(key, '_');
    if k != -1 {
      var s := SlotOf(key);
      assert s.cur == key[..k];
    }
  }

  /** One successful callback, described by the slot its key writes. */
  lemma ApplyMemberBySlot(coinID: string, nums: NumberParsers, item: SimplePriceItem, m: Member)
    requires ApplyMember(coinID, nums, item, m).Ok?
    ensures var r := ApplyMember(coinID, nums, item, m).value;
      var s := SlotOf(m.key);
      && (s.Timestamp? ==> r == item.(lastUpdatedAt := nums.parseInt(m.raw)))
      && (!s.Timestamp? ==>
            && r.lastUpdatedAt == item.lastUpdatedAt
            && r.currencies.Keys == item.currencies.Keys + {s.cur}
            && (forall c :: c in item.currencies && c != s.cur ==> r.currencies[c] == item.currencies[c])
            && var q, q', v := QuoteIn(item, s.cur), r.currencies[s.cur], nums.parseFloat(m.raw);
               q' == Quote(if s.Price? then v.value else q.price,
                           if s.MarketCap? then v else q.marketCap,
                           if s.Volume? then v else q.volume24H,
                           if s.Change? then v else q.change24H))
  {
    var s := SlotOf(m.key);
    if !s.Timestamp? {
      ApplyMemberWrites(coinID, nums, item, m);
      var r := ApplyMember(coinID, nums, item, m).value;
      var q' := WriteSlot(QuoteIn(item, s.cur), s, nums.parseFloat(m.raw).value);
      assert r.currencies == item.currencies[s.cur := q'];
      assert r.currencies[s.cur] == q';
    }
  }

  /** `item` is what the members `ms` determine. */
  ghost predicate ItemDescribes(item: SimplePriceItem, ms: seq<Member>, nums: NumberParsers)
  {
    && item.currencies.Keys == Currencies(ms)
    && item.lastUpdatedAt == ExpectedTimestamp(ms, nums)
    && forall c :: c in item.currencies ==> item.currencies[c] == ExpectedQuote(ms, c, nums)
  }

  lemma LastInSnoc(front: seq<Member>, m: Member, t: Slot, nums: NumberParsers)
    ensures LastIn(front + [m], t) == if SlotOf(m.key) == t then Some(|front|) else LastIn(front, t)
    ensures SlotOf(m.key) != t ==> FloatAt(front + [m], LastIn(front + [m], t), nums) == FloatAt(front, LastIn(front, t), nums)
  {
    assert (front + [m])[..|front|] == front;
  }

  /** Appending a member leaves the expected quote of every currency it does not write unchanged. */
  lemma ExpectedQuoteSnocOther(front: seq<Member>, m: Member, c: string, nums: NumberParsers)
    requires SlotOf(m.key).Timestamp? || SlotOf(m.key).cur != c
    ensures ExpectedQuote(front + [m], c, nums) == ExpectedQuote(front, c, nums)
  {
    LastInSnoc(front, m, Price(c), nums);
    LastInSnoc(front, m, MarketCap(c), nums);
    LastInSnoc(front, m, Volume(c), nums);
    LastInSnoc(front, m, Change(c), nums);
  }

  /** Appending a member that writes slot `s` of currency `s.cur` replaces exactly that field. */
  lemma ExpectedQuoteSnocSame(front: seq<Member>, m: Member, nums: NumberParsers)
    requires !SlotOf(m.key).Timestamp?
    ensures var s, q := SlotOf(m.key), ExpectedQuote(front, SlotOf(m.key).cur, nums);
      var v := nums.parseFloat(m.raw);
      ExpectedQuote(front + [m], s.cur, nums) ==
        Quote(if s.Price? then v.GetOr(0.0) else q.price,
              if s.MarketCap? then v else q.marketCap,
              if s.Volume? then v else q.volume24H,
              if s.Change? then v else q.change24H)
  {
    var c := SlotOf(m.key).cur;
    LastInSnoc(front, m, Price(c), nums);
    LastInSnoc(front, m, MarketCap(c), nums);
    LastInSnoc(front, m, Volume(c), nums);
    LastInSnoc(front, m, Change(c), nums);
  }

  /** A currency no member mentions has the empty expected quote. */
  lemma ExpectedQuoteUnmentioned(ms: seq<Member>, c: string, nums: NumberParsers)
    requires c !in Currencies(ms)
    ensures ExpectedQuote(ms, c, nums) == EmptyQuote
  {
    if LastIn(ms, Price(c)).Some? { LastInMentioned(ms, Price(c)); }
    if LastIn(ms, MarketCap(c)).Some? { LastInMentioned(ms, MarketCap(c)); }
    if LastIn(ms, Volume(c)).Some? { LastInMentioned(ms, Volume(c)); }
    if LastIn(ms, Change(c)).Some? { LastInMentioned(ms, Change(c)); }
  }

  /** One successful callback keeps the quote of each currency in step with the members seen so far. */
  lemma ItemDescribesStepAt(coinID: string, nums: NumberParsers, item: SimplePriceItem, front: seq<Member>, m: Member, c: string)
    requires ItemDescribes(item, front, nums) && ApplyMember(coinID, nums, item, m).Ok?
    requires c in ApplyMember(coinID, nums, item, m).value.currencies
    ensures ApplyMember(coinID, nums, item, m).value.currencies[c] == ExpectedQuote(front + [m], c, nums)
  {
    ApplyMemberBySlot(coinID, nums, item, m);
    var s := SlotOf(m.key);
    if s.Timestamp? || s.cur != c {
      ExpectedQuoteSnocOther(front, m, c, nums);
    } else {
      ExpectedQuoteSnocSame(front, m, nums);
      if c !in item.currencies {
        ExpectedQuoteUnmentioned(front, c, nums);
      }
    }
  }

  /** One successful callback keeps the item in step with the members seen so far. */
  lemma ItemDescribesStep(coinID: string, nums: NumberParsers, item: SimplePriceItem, front: seq<Member>, m: Member)
    requires ItemDescribes(item, front, nums) && ApplyMember(coinID, nums, item, m).Ok?
    ensures ItemDescribes(ApplyMember(coinID, nums, item, m).value, front + [m], nums)
  {
    var item' := ApplyMember(coinID, nums, item, m).value;
    var ms := front + [m];
    ApplyMemberBySlot(coinID, nums, item, m);
    assert ms[..|ms| - 1] == front;
    LastInSnoc(front, m, Timestamp, nums);
    forall c | c in item'.currencies
      ensures item'.currencies[c] == ExpectedQuote(ms, c, nums)
    {
      ItemDescribesStepAt(coinID, nums, item, front, m, c);
    }
  }

  /** What a successfully decoded object holds: one entry per currency any key mentions (by the
      first-underscore rule), each field taken from the LAST key that writes it (the price defaulting
      to 0 and the other fields staying absent when no key writes them), and the timestamp from the
      last `last_updated_at`. */
  lemma {:induction false} ParseMembersContent(coinID: string, ms: seq<Member>, nums: NumberParsers)
    requires ParseMembers(coinID, ms, nums).Ok?
    ensures ItemDescribes(ParseMembers(coinID, ms, nums).value, ms, nums)
    decreases |ms|
  {
    if |ms| > 0 {
      var front, m := ms[..|ms| - 1], ms[|ms| - 1];
      ParseMembersContent(coinID, front, nums);
      assert ms == front + [m];
      ItemDescribesStep(coinID, nums, ParseMembers(coinID, front, nums).value, front, m);
    }
  }

  /** The first '_' of `last_updated_at` is at 4, and a 'u' follows it. */
  lemma LastUpdatedAtSplit()
    ensures IndexOf(LastUpdatedAtKey, '_') == 4 && |LastUpdatedAtKey| == 15 && LastUpdatedAtKey[5] == 'u'
  {
    var s := LastUpdatedAtKey;
    assert s[0] == 'l' && s[1] == 'a' && s[2] == 's' && s[3] == 't' && s[4] == '_';
    assert s[..4] == "last";
    IndexOfAt(s, '_', 4);
  }

  /** The first-underscore rule on a composed key: for a currency code without '_', the key
      `<cur>_<suffix>` is routed to that currency with that suffix. */
  lemma ComposedKeySlot(cur: string, suffix: string)
    requires '_' !in cur
    ensures suffix == "market_cap" ==> SlotOf(cur + "_" + suffix) == MarketCap(cur)
    ensures suffix == "24h_vol" ==> SlotOf(cur + "_" + suffix) == Volume(cur)
    ensures suffix == "24h_change" ==> SlotOf(cur + "_" + suffix) == Change(cur)
  {
    var key := cur + "_" + suffix;
    IndexAfterPrefix(cur, '_', suffix);
    assert key[..|cur|] == cur && key[|cur| + 1..] == suffix;
    assert key[|cur|] == '_';
    if key == LastUpdatedAtKey {
      LastUpdatedAtSplit();
      assert |cur| == 4 && suffix[0] == key[5];
    }
  }

  /** A callback on a currency key whose value parses writes that value into the key's slot. */
  lemma WriteStep(coinID: string, nums: NumberParsers, item: SimplePriceItem, m: Member, v: real)
    requires !SlotOf(m.key).Timestamp? && nums.parseFloat(m.raw) == Some(v)
    ensures var s := SlotOf(m.key);
      ApplyMember(coinID, nums, item, m) == Ok(item.(currencies := item.currencies[s.cur := WriteSlot(QuoteIn(item, s.cur), s, v)]))
  {
    assert MemberParses(m, nums);
    ApplyMemberWrites(coinID, nums, item, m);
  }

  /** One more callback after a successful prefix. */
  lemma ParseMembersSnoc(coinID: string, front: seq<Member>, m: Member, nums: NumberParsers, item: SimplePriceItem)
    requires ParseMembers(coinID, front, nums) == Ok(item)
    ensures ParseMembers(coinID, front + [m], nums) == ApplyMember(coinID, nums, item, m)
  {
    assert (front + [m])[..|front|] == front;
  }

  /** A currency's four keys, in the order the API sends them, decode to one complete quote: for any
      currency code without '_', the object `{cur, cur_market_cap, cur_24h_vol, cur_24h_change}` gives
      exactly that currency with all four fields and no timestamp. */
  lemma SingleCurrencyObject(coinID: string, cur: string, nums: NumberParsers,
                             rp: string, rm: string, rv: string, rc: string,
                             price: real, mc: real, vol: real, ch: real)
    requires '_' !in cur
    requires nums.parseFloat(rp) == Some(price) && nums.parseFloat(rm) == Some(mc)
    requires nums.parseFloat(rv) == Some(vol) && nums.parseFloat(rc) == Some(ch)
    ensures ParseMembers(coinID, [Member(cur, rp), Member(cur + "_" + "market_cap", rm), Member(cur + "_" + "24h_vol", rv),
                                  Member(cur + "_" + "24h_change", rc)], nums)
            == Ok(SimplePriceItem(map[cur := Quote(price, Some(mc), Some(vol), Some(ch))], None))
  {
    var m0, m1, m2, m3 := Member(cur, rp), Member(cur + "_" + "market_cap", rm), Member(cur + "_" + "24h_vol", rv),
                          Member(cur + "_" + "24h_change", rc);
    CurrencySlots(cur);
    var i1 := SimplePriceItem(map[cur := Quote(price, None, None, None)], None);
    var i2 := SimplePriceItem(map[cur := Quote(price, Some(mc), None, None)], None);
    var i3 := SimplePriceItem(map[cur := Quote(price, Some(mc), Some(vol), None)], None);
    var i4 := SimplePriceItem(map[cur := Quote(price, Some(mc), Some(vol), Some(ch))], None);
    WriteStep(coinID, nums, EmptyItem, m0, price);
    assert ApplyMember(coinID, nums, EmptyItem, m0) == Ok(i1);
    WriteOne(coinID, nums, cur, Quote(price, None, None, None), m1, mc);
    WriteOne(coinID, nums, cur, Quote(price, Some(mc), None, None), m2, vol);
    WriteOne(coinID, nums, cur, Quote(price, Some(mc), Some(vol), None), m3, ch);
    ParseFour(coinID, nums, m0, m1, m2, m3, i1, i2, i3, i4);
  }

  /** Four callbacks that each succeed, chained. */
  lemma ParseFour(coinID: string, nums: NumberParsers, m0: Member, m1: Member, m2: Member, m3: Member,
                  i1: SimplePriceItem, i2: SimplePriceItem, i3: SimplePriceItem, i4: SimplePriceItem)
    requires ApplyMember(coinID, nums, EmptyItem, m0) == Ok(i1) && ApplyMember(coinID, nums, i1, m1) == Ok(i2)
    requires ApplyMember(coinID, nums, i2, m2) == Ok(i3) && ApplyMember(coinID, nums, i3, m3) == Ok(i4)
    ensures ParseMembers(coinID, [m0, m1, m2, m3], nums) == Ok(i4)
  {
    assert ParseMembers(coinID, [], nums) == Ok(EmptyItem);
    ParseMembersSnoc(coinID, [], m0, nums, EmptyItem);
    assert [] + [m0] == [m0];
    ParseMembersSnoc(coinID, [m0], m1, nums, i1);
    assert [m0] + [m1] == [m0, m1];
    ParseMembersSnoc(coinID, [m0, m1], m2, nums, i2);
    assert [m0, m1] + [m2] == [m0, m1, m2];
    ParseMembersSnoc(coinID, [m0, m1, m2], m3, nums, i3);
    assert [m0, m1, m2] + [m3] == [m0, m1, m2, m3];
  }

  /** A callback on a field key of the only currency of an item writes that field. */
  lemma WriteOne(coinID: string, nums: NumberParsers, cur: string, q: Quote, m: Member, v: real)
    requires !SlotOf(m.key).Timestamp? && SlotOf(m.key).cur == cur && nums.parseFloat(m.raw) == Some(v)
    ensures ApplyMember(coinID, nums, SimplePriceItem(map[cur := q], None), m)
            == Ok(SimplePriceItem(map[cur := WriteSlot(q, SlotOf(m.key), v)], None))
  {
    var item := SimplePriceItem(map[cur := q], None);
    WriteStep(coinID, nums, item, m, v);
    assert QuoteIn(item, cur) == q;
    assert map[cur := q][cur := WriteSlot(q, SlotOf(m.key), v)] == map[cur := WriteSlot(q, SlotOf(m.key), v)];
  }

  /** The slots of a currency's four keys. */
  lemma CurrencySlots(cur: string)
    requires '_' !in cur
    ensures SlotOf(cur) == Price(cur) && SlotOf(cur + "_" + "market_cap") == MarketCap(cur)
    ensures SlotOf(cur + "_" + "24h_vol") == Volume(cur) && SlotOf(cur + "_" + "24h_change") == Change(cur)
  {
    LastUpdatedAtSplit();
    assert cur != LastUpdatedAtKey by { assert LastUpdatedAtKey[4] == '_'; }
    ComposedKeySlot(cur, "market_cap");
    ComposedKeySlot(cur, "24h_vol");
    ComposedKeySlot(cur, "24h_change");
  }

  /** A currency code that itself contains '_' is misattributed: for the code `a_b` (with no '_' in
      `a`), the key `a_b_market_cap` lands in currency `a` under the unknown suffix `b_market_cap`, so
      no market cap is recorded for `a_b`. */
  lemma UnderscoreCurrencyMisattributed(a: string, b: string)
    requires '_' !in a
    ensures SlotOf(a + "_" + (b + "_" + "market_cap")) == Other(a)
  {
    LongSuffixSlot(a, b + "_" + "market_cap");
  }

  /** A key whose part after the first '_' is longer than every known suffix names no known slot. */
  lemma LongSuffixSlot(cur: string, suffix: string)
    requires '_' !in cur && |suffix| > 10
    ensures SlotOf(cur + "_" + suffix) == Other(cur)
  {
    var key := cur + "_" + suffix;
    KeyParts(cur, suffix);
    LongKeyNotTimestamp(cur, suffix);
    assert suffix != "market_cap" && suffix != "24h_vol" && suffix != "24h_change" by {
      assert |"market_cap"| == 10 && |"24h_vol"| == 7 && |"24h_change"| == 10;
    }
  }

  /** Splitting `cur_suffix` at its first '_' gives back `cur` and `suffix`. */
  lemma KeyParts(cur: string, suffix: string)
    requires '_' !in cur
    ensures var key := cur + "_" + suffix;
      '_' in key && IndexOf(key, '_') == |cur| && key[..|cur|] == cur && key[|cur| + 1..] == suffix
  {
    var key := cur + "_" + suffix;
    IndexAfterPrefix(cur, '_', suffix);
    assert key[|cur|] == '_';
  }

  /** `last_updated_at` has no '_' before position 4 and 15 characters, so no key with a longer suffix is it. */
  lemma LongKeyNotTimestamp(cur: string, suffix: string)
    requires '_' !in cur && |suffix| > 10
    ensures cur + "_" + suffix != LastUpdatedAtKey
  {
    var key := cur + "_" + suffix;
    assert key[|cur|] == '_';
    if |cur| < 4 {
      assert LastUpdatedAtKey[0] == 'l' && LastUpdatedAtKey[1] == 'a' && LastUpdatedAtKey[2] == 's' && LastUpdatedAtKey[3] == 't';
      assert key[|cur|] != LastUpdatedAtKey[|cur|];
    } else {
      assert |key| > |LastUpdatedAtKey|;
    }
  }

  // ================================================================ the imperative decoder

  /** `parseSimplePriceItem`: walk the members in order, creating a currency's entry on first
      mention and updating one field per member; the first value that does not parse, or the
      scanner's own error, discards the whole item. */
  method ParseSimplePriceItem(coinID: string, ba: Scan<Member>, nums: NumberParsers) returns (r: Result<SimplePriceItem>)
    ensures r == ParseItem(coinID, ba, nums)
  {
    var items := ba.items;
    var currencies: map<string, Quote> := map[];
    var lastUpdatedAt: Option<int> := None;
    var i := 0;
    while i < |items|
      invariant 0 <= i <= |items|
      invariant ParseMembers(coinID, items[..i], nums) == Ok(SimplePriceItem(currencies, lastUpdatedAt))
    {
      assert items[..i + 1][..i] == items[..i] && items[..i + 1][i] == items[i];
      var failed;
      currencies, lastUpdatedAt, failed := Callback(coinID, nums, currencies, lastUpdatedAt, items[i]);
      if failed.Some? {
        assert ParseMembers(coinID, items[..i + 1], nums) == Err(failed.value);
        ParseMembersErrSticky(coinID, items, nums, i + 1);
        r := Err(failed.value);
        return;
      }
      i := i + 1;
    }
    assert items[..i] == items;
    if ba.failure.Some? {
      r := Err(ba.failure.value);
      return;
    }
    r := Ok(SimplePriceItem(currencies, lastUpdatedAt));
  }

  /** The callback `parseSimplePriceItem` hands to `ObjectEach`, on the item's two fields: route
      the key, create the currency's entry on first mention, parse and store the value. */
  method Callback(coinID: string, nums: NumberParsers, currencies: map<string, Quote>, lastUpdatedAt: Option<int>, m: Member)
    returns (currencies': map<string, Quote>, lastUpdatedAt': Option<int>, failed: Option<Error>)
    ensures var r := ApplyMember(coinID, nums, SimplePriceItem(currencies, lastUpdatedAt), m);
      && (failed.Some? ==> r == Err(failed.value))
      && (failed.None? ==> r == Ok(SimplePriceItem(currencies', lastUpdatedAt')))
  {
    if m.key == LastUpdatedAtKey {
      currencies', lastUpdatedAt', failed := currencies, lastUpdatedAt, None;
      var timeAsInt := nums.parseInt(m.raw);
      if timeAsInt.Some? {
        lastUpdatedAt' := timeAsInt;
      } else {
        failed := Some(BadValue(coinID, "last_updated_at", m.raw));
      }
    } else {
      lastUpdatedAt' := lastUpdatedAt;
      currencies', failed := CurrencyCallback(coinID, nums, currencies, lastUpdatedAt, m);
    }
  }

  /** The callback on a key other than `last_updated_at`: the currency is the part before the first
      '_' (the whole key when there is none), and the part after it selects the field. */
  method CurrencyCallback(coinID: string, nums: NumberParsers, currencies: map<string, Quote>, ghost lastUpdatedAt: Option<int>, m: Member)
    returns (currencies': map<string, Quote>, failed: Option<Error>)
    requires m.key != LastUpdatedAtKey
    ensures var r := ApplyMember(coinID, nums, SimplePriceItem(currencies, lastUpdatedAt), m);
      && (failed.Some? ==> r == Err(failed.value))
      && (failed.None? ==> r == Ok(SimplePriceItem(currencies', lastUpdatedAt)))
  {
    var key, raw := m.key, m.raw;
    failed := None;
    var underscoreIndex := IndexOf(key, '_');
    if underscoreIndex != -1 {
      var currCode := key[..underscoreIndex];
      // the currency's entry, a fresh zero quote on first mention (Go keeps it by reference and
      // updates it in place; here the updated quote is stored back)
      var currItem := if currCode in currencies then currencies[currCode] else EmptyQuote;
      var suffix := key[underscoreIndex + 1..];
      var v := nums.parseFloat(raw);
      if v.Some? {
        if suffix == "market_cap" {
          currItem := currItem.(marketCap := v);
        } else if suffix == "24h_vol" {
          currItem := currItem.(volume24H := v);
        } else if suffix == "24h_change" {
          currItem := currItem.(change24H := v);
        }
      } else {
        failed := Some(BadValue(coinID, key, raw));
      }
      currencies' := currencies[currCode := currItem];
    } else {
      var currItem := if key in currencies then currencies[key] else EmptyQuote;
      var v := nums.parseFloat(raw);
      if v.Some? {
        currItem := currItem.(price := v.value);
      } else {
        failed := Some(BadValue(coinID, key + ".Price", raw));
      }
      currencies' := currencies[key := currItem];
    }
  }

  // ================================================================ the per-coin loop of SimplePrice

  /** One member of the response object: a coin id and its object's walk. */
  datatype CoinEntry = CoinEntry(coinID: string, value: Scan<Member>)

  /** The coin loop as a fold: each coin whose object decodes is stored under its id (a later
      duplicate id overwrites), and the first coin that fails ends the walk with its error. */
  function DecodeCoins(es: seq<CoinEntry>, nums: NumberParsers): Result<map<string, SimplePriceItem>>
  {
    if |es| == 0 then Ok(map[])
    else
      match DecodeCoins(es[..|es| - 1], nums)
      case Err(e) => Err(e)
      case Ok(coins) =>
        var last := es[|es| - 1];
        match ParseItem(last.coinID, last.value, nums)
        case Err(e) => Err(e)
        case Ok(item) => Ok(coins[last.coinID := item])
  }

  /** The coins `SimplePrice` returns for a response body: the fold, then the scanner's own error. */
  function DecodeSimplePrice(resp: Scan<CoinEntry>, nums: NumberParsers): Result<map<string, SimplePriceItem>>
  {
    match DecodeCoins(resp.items, nums)
    case Err(e) => Err(e)
    case Ok(coins) => if resp.failure.Some? then Err(resp.failure.value) else Ok(coins)
  }

  /** The position of the last entry for `id`. */
  function LastEntry(es: seq<CoinEntry>, id: string): (r: Option<nat>)
    ensures r.Some? ==> r.value < |es| && es[r.value].coinID == id
    ensures r.None? <==> forall i :: 0 <= i < |es| ==> es[i].coinID != id
  {
    if |es| == 0 then None
    else if es[|es| - 1].coinID == id then Some(|es| - 1)
    else LastEntry(es[..|es| - 1], id)
  }

  /** The coin loop succeeds exactly when every coin's object decodes. */
  lemma {:induction false} DecodeCoinsOutcome(es: seq<CoinEntry>, nums: NumberParsers)
    ensures DecodeCoins(es, nums).Ok? <==> forall i :: 0 <= i < |es| ==> ParseItem(es[i].coinID, es[i].value, nums).Ok?
    decreases |es|
  {
    if |es| > 0 {
      var front := es[..|es| - 1];
      DecodeCoinsOutcome(front, nums);
      assert forall i :: 0 <= i < |front| ==> front[i] == es[i];
    }
  }

  /** A successful coin loop holds exactly the ids of the response, each with the item of its last
      occurrence (a later duplicate id overwrites an earlier one). */
  lemma {:induction false} DecodeCoinsContent(es: seq<CoinEntry>, nums: NumberParsers)
    requires DecodeCoins(es, nums).Ok?
    ensures var coins := DecodeCoins(es, nums).value;
      && coins.Keys == (set i | 0 <= i < |es| :: es[i].coinID)
      && forall id :: id in coins ==>
           LastEntry(es, id).Some? && Ok(coins[id]) == ParseItem(id, es[LastEntry(es, id).value].value, nums)
    decreases |es|
  {
    if |es| > 0 {
      var front := es[..|es| - 1];
      DecodeCoinsContent(front, nums);
      assert forall i :: 0 <= i < |front| ==> front[i] == es[i];
    }
  }

  /** On an error nothing is returned: the first coin that fails decides the error. */
  lemma {:induction false} DecodeCoinsFirstError(es: seq<CoinEntry>, nums: NumberParsers, i: nat)
    requires i < |es| && ParseItem(es[i].coinID, es[i].value, nums).Err?
    requires forall j :: 0 <= j < i ==> ParseItem(es[j].coinID, es[j].value, nums).Ok?
    ensures DecodeCoins(es, nums) == Err(ParseItem(es[i].coinID, es[i].value, nums).error)
    decreases |es|
  {
    var front := es[..|es| - 1];
    assert forall j :: 0 <= j < |front| ==> front[j] == es[j];
    if i < |es| - 1 {
      DecodeCoinsFirstError(front, nums, i);
    } else {
      DecodeCoinsOutcome(front, nums);
    }
  }

  /** `SimplePrice`: validate, build the request, then decode the per-coin objects of the response
      the transport returned for it. `resp` stands for the transport's answer. */
  method SimplePrice(c: V3.Client, p: SimplePriceParams, resp: Result<Scan<CoinEntry>>, nums: NumberParsers)
    returns (req: Option<Request>, r: Result<map<string, SimplePriceItem>>)
    ensures Valid(p).Some? ==> req.None? && r == Err(Valid(p).value)
    ensures Valid(p).None? ==>
      && req.Some? && req.value.url == c.baseURL + "/simple/price"
      && Describes(req.value.query, SimplePriceEntries(p))
      && r == (if resp.Err? then Err(resp.error) else DecodeSimplePrice(resp.value, nums))
  {
    var err := Valid(p);
    if err.Some? {
      return None, Err(err.value);
    }
    var query := Encode(p);
    SimplePriceQuery(p);
    req := Some(Request(c.baseURL + "/simple/price", query));
    if resp.Err? {
      return req, Err(resp.error);
    }
    r := DecodeBody(resp.value, nums);
  }

  /** The per-coin loop of `SimplePrice` over the response object. */
  method DecodeBody(body: Scan<CoinEntry>, nums: NumberParsers) returns (r: Result<map<string, SimplePriceItem>>)
    ensures r == DecodeSimplePrice(body, nums)
  {
    var coins: map<string, SimplePriceItem> := map[];
    var i := 0;
    while i < |body.items|
      invariant 0 <= i <= |body.items|
      invariant DecodeCoins(body.items[..i], nums) == Ok(coins)
    {
      var entry := body.items[i];
      assert body.items[..i + 1][..i] == body.items[..i] && body.items[..i + 1][i] == entry;
      var item := ParseSimplePriceItem(entry.coinID, entry.value, nums);
      if item.Err? {
        DecodeCoinsSticky(body.items, nums, i + 1);
        return Err(item.error);
      }
      coins := coins[entry.coinID := item.value];
      i := i + 1;
    }
    assert body.items[..i] == body.items;
    if body.failure.Some? {
      return Err(body.failure.value);
    }
    r := Ok(coins);
  }

  lemma {:induction false} DecodeCoinsSticky(es: seq<CoinEntry>, nums: NumberParsers, j: nat)
    requires j <= |es| && DecodeCoins(es[..j], nums).Err?
    ensures DecodeCoins(es, nums) == DecodeCoins(es[..j], nums)
    decreases |es|
  {
    if j < |es| {
      assert es[..|es| - 1][..j] == es[..j];
      DecodeCoinsSticky(es[..|es| - 1], nums, j);
    } else {
      assert es[..j] == es;
    }
  }
}
