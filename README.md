# go-gecko v3 client core, modelled in Dafny

This project models the logic of the Go CoinGecko v3 client (`github.com/edward-yakop/go-gecko`). It covers the parts that decide what is sent to the API and how answers are turned into results:

- **Parameter validators.** `Valid`/`Validate` of the simple-price, coins and exchanges parameter structs. The required fields are checked in order and the first missing one is reported with the source's fixed message. The simple-price precision rule (empty, `"full"`, or an integer in 0..18) rests on a model of `strconv.Atoi`.
- **Query encoders.** Every `encode…QueryParams` is an imperative method that makes the same guarded `url.Values.Add` calls in the same order as the Go code. The clamps differ by endpoint. Only `/coins/markets` replaces an out-of-table order with `market_cap_desc`; the two ticker encoders send the order as given. `/coins/markets` and `/exchanges` keep a page size in 1..250 and send 100 otherwise. The four paged encoders (`/coins/markets`, `/coins/{id}/tickers`, `/exchanges` and `/exchanges/{id}/tickers`) raise the page number to at least 1. The simple-price, `/coins/{id}`, history and market-chart encoders apply no clamp. They also join lists with `,` using the same `strings.Builder` loop for the price-change windows. Lemmas then prove what a server reads back from the result:
  - each key is present exactly when its condition holds, with one value;
  - no other key is ever sent;
  - decimal numbers read back with `Atoi(Itoa(n)) == n`;
  - joined lists split back into the list;
  - an enumeration name looks back up to its constant.
- **Enumeration tables.** The wire names of `CoinsMarketOrder`, `PriceChangePercentage` and `TickerOrder`. The model proves each table injective, comma-free and invertible. `ChartItem.UnmarshalJSON` is modelled as well, with Go's truncating float-to-int64 conversion and int64 wrap-around written out.
- **The `/simple/price` decoder** (`parseSimplePriceItem` and the coin loop of `SimplePrice`):
  - A key is routed by its first `_`. The currency's entry is created on first mention, and one field is updated per member.
  - The first value that does not parse aborts the whole item, with an error naming the coin, the field and the raw text.
  - The imperative decoder is proved equal to a fold. Lemmas give the fold's outcome (fail-fast, first error) and the decoded content: each field comes from the last key that writes it.
- **The list decoders of `/exchanges` and `/exchanges/list`.** These keep a shared `err` across `jsonparser.ArrayEach` callbacks using `firstError`. Lemmas prove:
  - the first error is kept and later elements are skipped;
  - entries are stored under their id, a later duplicate overwrites an earlier one, and the map never has more entries than the array has elements;
  - an error yields no map at all.
- **The `ExchangesID` guard.**
- **The `Client` object.** Its options are modelled (`WithHttpRequestModifier`, `WithAPIKey`, applied in order by `NewClient`), along with `firstError` and `headerToMap`, which filters headers by case-insensitive name.

Modules follow the Go files:

| module | file(s) |
|---|---|
| `Wrappers` | `Option`, `Result`, the `Error` kinds, and `Scan`, which stands for what a jsonparser walk delivers: the callback arguments in order plus the scanner's own error. |
| `Text` | the standard-library string functions the client calls, and `format.Int2String`/`format.Bool2String` |
| `Query` | `url.Values` as the ordered list of `Add` calls, plus the reasoning shared by all encoders |
| `Types` | `v3/types/model.go` |
| `V3` | `v3/v3.go` |
| `Simple`, `Coins`, `Exchanges` | `v3/simple.go`, `v3/coins.go`, `v3/exchanges.go` |

**Behaviour of the code worth knowing:**
- A key such as `usd_foo`, with an underscore and an unknown suffix, is not stored as the price of a currency named by the whole key. The code creates (or keeps) the entry of the currency before the first `_`. It parses the value as a float and fails if it does not parse. It writes no field (`Simple.ApplyMember`, `Simple.UnderscoreCurrencyMisattributed`).
- The flags of `/simple/price` and the `depth` flag of `/exchanges/{id}/tickers` are sent only when true. The flags of `/coins/{id}` and `/coins/{id}/tickers` are always sent, as `"true"` or `"false"`.

## Model

| member | source | states |
|---|---|---|
| Text.IndexOf | v3/simple.go:126 | `strings.Index` for one character: -1 exactly when the character is absent, otherwise a position holding it with no earlier occurrence |
| Text.IndexOfAt | v3/simple.go:126 | a character with no earlier occurrence is the one `strings.Index` finds |
| Text.IndexAfterPrefix | v3/simple.go:126-134 | in `cur + "_" + suffix` with no `_` in `cur`, the first `_` is right after `cur`, so the split gives back `cur` and `suffix` |
| Text.Join | v3/coins.go:85-96 | the comma-join that `strings.Join` and the builder loop produce; Text.JoinSnoc and Text.SplitJoin state how it grows and that Split inverts it |
| Text.JoinSnoc | v3/coins.go:85-96 | appending one more item to a non-empty join adds exactly one separator before it |
| Text.SplitJoin | v3/simple.go:52-53 | splitting a comma-join of a non-empty list whose items have no `,` gives the list back |
| Text.Atoi | v3/simple.go:41-47 | `strconv.Atoi` accepts only an optional sign followed by digits, and the result fits in int64 |
| Text.Itoa | format/format_test.go:26-45 | `format.Int2String`: base-10 rendering with a leading `-` for negatives; Text.AtoiItoa states that `Atoi` reads every int64 rendering back |
| Text.AtoiItoa | format/format_test.go:26-45 | `Atoi` reads back every int64 that `format.Int2String` writes |
| Text.AtoiRejectsNonDigit | v3/simple.go:41-47 | a string with a non-digit that is not a leading sign is rejected by `Atoi` |
| Text.Bool2String | format/format_test.go:5-24 | `format.Bool2String`: `"true"` or `"false"`; the `…QueryMeaning` lemmas state that each flag is sent as its setting |
| Text.EqualFold | v3/v3.go:95 | `strings.EqualFold` over ASCII: same length and the same characters once ASCII letters are lowered; V3.HeaderToMap states which headers it selects |
| Query.Add | v3/simple.go:52 | `url.Values.Add`: the value appended under its key; Query.GetAdd states its effect on every key |
| Query.Get | v3/simple.go:52-67 | `v[key]`: the values added under a key, in the order they were added; Query.GetAdd and Query.GetAddIf state how each `Add` changes it |
| Query.GetAdd | v3/coins.go:51-53 | `url.Values.Add` appends the value under its key and changes no other key |
| Query.AddIf | v3/simple.go:54-56 | an `Add` made only under its guard; Query.GetAddIf states that it changes only its own key, and only when the guard holds |
| Query.FromEntries | v3/simple.go:49-71 | the values an encoder fills by making its guarded `Add`s in order into empty values; Query.FromEntriesHeld, Query.FromEntriesNoOtherKeys and Query.FromEntriesDescribes state what it holds |
| Query.GetAddIf | v3/simple.go:54-56 | a guarded `Add` changes only its own key, and only when its condition holds |
| Query.FromEntriesAbsent | v3/simple.go:49-71 | guarded `Add`s put nothing under a key none of them uses |
| Query.FromEntriesHeld | v3/simple.go:49-71 | with distinct keys, each key holds exactly its one value when its condition holds, and nothing otherwise |
| Query.FromEntriesNoOtherKeys | v3/simple.go:49-71 | no key outside the entries is ever present |
| Query.FromEntriesDescribes | v3/simple.go:49-71 | with distinct keys, the encoder's values hold exactly the taken entries, one value each, and nothing else |
| Query.HeldNumber | v3/coins.go:71 | a number written with `Int2String` is sent once and reads back as that number |
| Query.HeldList | v3/coins.go:63-64 | a comma-joined non-empty list is sent once and splits back into the list |
| Query.FirstMissing | v3/coins.go:240-250 | the validators' rule: no error exactly when every required field is non-empty; otherwise the message of the first empty field, all earlier ones being non-empty |
| Types.CoinsMarketOrderString | v3/types/model.go:21-30 | `String()` of an in-range order is one of the six wire names |
| Types.PriceChangePercentageString | v3/types/model.go:46-56 | `String()` of an in-range window is one of the seven wire names |
| Types.TickerOrderString | v3/types/model.go:66-72 | `String()` of an in-range ticker order is one of the three wire names |
| Types.Lookup | v3/types/model.go:21-30 | the inverse of a table lookup: the position of a name, None exactly when the name is not in the table |
| Types.LookupOfName | v3/types/model.go:21-30 | in a table with pairwise distinct entries, looking up the name of constant i gives i |
| Types.CoinsMarketOrderRoundTrip | v3/types/model.go:12-30 | the wire name of every declared order looks back up to that order |
| Types.PriceChangePercentageRoundTrip | v3/types/model.go:36-56 | the wire name of every declared window looks back up to that window |
| Types.TickerOrderRoundTrip | v3/types/model.go:60-72 | the wire name of every declared ticker order looks back up to that order |
| Types.CoinsMarketOrderInjective | v3/types/model.go:21-30 | distinct orders have distinct wire names |
| Types.PriceChangePercentageInjective | v3/types/model.go:46-56 | distinct windows have distinct wire names |
| Types.TickerOrderInjective | v3/types/model.go:66-72 | distinct ticker orders have distinct wire names |
| Types.Truncate | v3/types/model.go:109 | Go's float64-to-int64 conversion truncates toward zero: the result lies within 1 of x, at most \|x\| in size, with the sign of x |
| Types.WrapInt64 | v3/types/model.go:109 | int64 multiplication wraps into the int64 range and leaves in-range values alone |
| Types.ChartItemOf | v3/types/model.go:103-113 | a decoder error is passed on; otherwise the value is the pair's second number and the time is the truncated milliseconds times `time.Millisecond`, in int64 |
| Types.ChartTimeIsMilliseconds | v3/types/model.go:109 | without overflow, the chart time in nanoseconds is exactly the whole milliseconds times 1,000,000 |
| V3.FirstError | v3/v3.go:129-135 | `firstError(fst, snd)`: the first argument when it is an error, else the second; V3.FoldFirstError and V3.FoldFirstErrorIsEarliest state that folding it keeps the earliest error |
| V3.FoldFirstError | v3/v3.go:129-135 | `firstError` folded over a run yields no error exactly when there is none, and otherwise an error that occurs with none before it |
| V3.FoldFirstErrorIsEarliest | v3/v3.go:129-135 | the fold yields exactly the earliest error |
| V3.HeaderToMap | v3/v3.go:91-102 | the result holds exactly the headers whose name equals one of the keys ignoring ASCII case, with names and values unchanged |
| V3.ApplyOption | v3/v3.go:23-36 | `WithHttpRequestModifier` sets only the modifier; `WithAPIKey` switches to the pro base URL and installs the API-key header; neither touches the HTTP client |
| V3.ModifierOf | v3/v3.go:23-36 | the request modifier an option installs: the caller's for `WithHttpRequestModifier`, the API-key header for `WithAPIKey`; V3.ApplyOptionsEffect states that the last option's modifier is the one kept |
| V3.ApplyOptions | v3/v3.go:49-51 | the option loop of `NewClient`, applying each option in argument order to one configuration; V3.ApplyOptionsSnoc and V3.ApplyOptionsEffect state its order and its effect |
| V3.NewConfig | v3/v3.go:39-54 | the configuration `NewClient` builds: the default HTTP client for nil, the public base URL, no modifier, then every option in order; V3.NewClientDefaults, V3.ApplyOptionsEffect and the constructor V3.Client.NewClient state it |
| V3.ApplyOptionsSnoc | v3/v3.go:49-51 | options are applied in argument order |
| V3.ApplyOptionsEffect | v3/v3.go:39-54 | after the options run: the HTTP client is unchanged; the base URL is the pro one once any `WithAPIKey` was given; the modifier is the one the last option installs |
| V3.NewClientDefaults | v3/v3.go:39-54 | `NewClient(nil)` uses the default client, the public base URL and no modifier; with `WithAPIKey(k)` it uses the pro URL and sets `x-cg-pro-api-key: k` |
| V3.Client.NewClient | v3/v3.go:39-54 | the new client's fields are the defaults with every option applied in order |
| V3.Client.Apply | v3/v3.go:23-36 | running an option on a client updates its fields as `ApplyOption` states |
| Simple.ToIntMeaning | v3/simple.go:41-47 | `toInt` gives back every int64 written in decimal, and gives -1 for every non-number |
| Simple.ToInt | v3/simple.go:41-47 | `toInt`: the `Atoi` value, or -1 when `Atoi` fails; Simple.ToIntMeaning states what that means for every int64 rendering and every non-number |
| Simple.Valid | v3/simple.go:25-39 | an empty coin list is reported first, then an empty currency list, then a precision that is not empty, `"full"` or an integer in 0..18; otherwise no error |
| Simple.PrecisionExamples | v3/simple.go:34-36 | every precision `Int2String(n)` with n in 0..18 passes; a precision other than `"full"` with a non-digit that is not a leading sign fails |
| Simple.SimplePriceEntries | v3/simple.go:49-71 | the seven guarded `Add`s of `encode`: `ids` and `vs_currencies` always, each `include_*` flag only when set, `precision` only when non-empty; Simple.SimplePriceQuery, Simple.SimplePriceFlagsOnlyTrue and Simple.SimplePriceQueryLists state what the query then holds |
| Simple.Encode | v3/simple.go:49-71 | the encoder makes exactly the guarded `Add`s of `SimplePriceEntries`, in order |
| Simple.SimplePriceQuery | v3/simple.go:49-71 | the simple-price query holds exactly the entries whose condition holds, one value each, and nothing else |
| Simple.SimplePriceKeysDistinct | v3/simple.go:52-67 | the seven keys are distinct |
| Simple.SimplePriceFlagsOnlyTrue | v3/simple.go:54-68 | each `include_*` flag is sent only as `"true"`, and is absent when unset; `precision` is sent exactly when non-empty |
| Simple.SimplePriceNoOtherKeys | v3/simple.go:49-71 | no key besides the seven is ever sent |
| Simple.SimplePriceQueryLists | v3/simple.go:52-53 | for valid parameters, `ids` and `vs_currencies` are each sent once and split back into the caller's lists |
| Simple.ApplyMember | v3/simple.go:113-165 | one callback succeeds exactly when the value parses with the parser its key selects (int for `last_updated_at`, float for the rest); on failure the error names the coin, the field (`last_updated_at`, the key, or `<key>.Price`) and the raw text |
| Simple.SlotOf | v3/simple.go:115-158 | the key-routing rule: `last_updated_at` is the timestamp; a key without `_` is a price; otherwise the part before the first `_` is the currency and the suffix picks market cap, volume, change or nothing; Simple.ComposedKeySlot, Simple.CurrencySlots and Simple.LongSuffixSlot state the routing for each kind of key |
| Simple.ParseMembers | v3/simple.go:113-165 | the `ObjectEach` fold over an item's members, stopping at the first failed callback; Simple.ParseMembersOutcome and Simple.ParseMembersContent state when it succeeds and what item it builds |
| Simple.ParseItem | v3/simple.go:108-172 | `parseSimplePriceItem`: the fold's error, else the scanner's own error, else the item; Simple.ParseSimplePriceItem is proved equal to it |
| Simple.ParseMembersErrSticky | v3/simple.go:113-165 | once a callback has failed, the rest of the object is never looked at |
| Simple.ParseMembersOutcome | v3/simple.go:113-171 | decoding succeeds exactly when every value parses; otherwise it reports the error of the first value that does not |
| Simple.LastIn | v3/simple.go:126-164 | the member found is one that writes the slot |
| Simple.LastInMentioned | v3/simple.go:127-132 | a slot some member writes belongs to a currency that some member mentions |
| Simple.ApplyMemberWrites | v3/simple.go:126-164 | a successful callback on a currency key stores the parsed value into that currency's slot, in an entry created on first mention |
| Simple.ApplyMemberBySlot | v3/simple.go:113-164 | a successful callback either sets the timestamp, or adds its currency and changes exactly one field of it, leaving the timestamp and every other currency unchanged |
| Simple.LastInSnoc | v3/simple.go:113 | the last writer of a slot after one more member |
| Simple.ExpectedQuoteSnocOther | v3/simple.go:128 | a member changes no currency but its own |
| Simple.ExpectedQuoteSnocSame | v3/simple.go:137-144 | a member replaces exactly the field of its slot in its currency |
| Simple.ExpectedQuoteUnmentioned | v3/simple.go:129-131 | a currency no key mentions has the empty quote |
| Simple.ItemDescribesStepAt | v3/simple.go:126-164 | one successful callback keeps each currency's quote equal to the one the members seen so far determine |
| Simple.ItemDescribesStep | v3/simple.go:113-164 | one successful callback keeps the whole item equal to what the members seen so far determine |
| Simple.ParseMembersContent | v3/simple.go:108-171 | a decoded item holds one entry per currency any key mentions, each field taken from the last key that writes it, and the timestamp from the last `last_updated_at` |
| Simple.ComposedKeySlot | v3/simple.go:126-144 | for a currency code without `_`, the keys `<cur>_market_cap`, `<cur>_24h_vol` and `<cur>_24h_change` are routed to that currency's market cap, volume and change |
| Simple.CurrencySlots | v3/simple.go:126-158 | a currency code without `_` routes its bare key to the price and its three suffixed keys to their fields |
| Simple.WriteStep | v3/simple.go:135-158 | a currency key whose value parses stores it in its slot |
| Simple.ParseMembersSnoc | v3/simple.go:113 | after a successful prefix, one more callback decides the result |
| Simple.SingleCurrencyObject | v3/simple_test.go:60-79 | for any currency code without `_`, the object with its price, market cap, 24h volume and 24h change decodes to exactly that currency with all four fields and no timestamp |
| Simple.UnderscoreCurrencyMisattributed | v3/simple.go:126-134 | for every currency code `a_b` whose `a` has no `_`, the key `a_b_market_cap` lands in currency `a` under an unknown suffix, so no market cap is recorded for `a_b` |
| Simple.LongSuffixSlot | v3/simple.go:126-144 | a key `<cur>_<suffix>` whose suffix is longer than every known one is credited to `cur` with no field written |
| Simple.ParseSimplePriceItem | v3/simple.go:108-172 | the imperative decoder returns what the decoding fold gives, and then the scanner's own error if there is one; an error never comes with a partial item |
| Simple.Callback | v3/simple.go:113-165 | the `ObjectEach` callback on the item's fields returns the error or the new fields, as `ApplyMember` does |
| Simple.CurrencyCallback | v3/simple.go:126-164 | the callback on a non-timestamp key returns the error or the new currencies, as `ApplyMember` does |
| Simple.LastEntry | v3/simple.go:91-96 | the last response entry for a coin id; none exactly when the id is absent |
| Simple.DecodeCoins | v3/simple.go:91-99 | the coin loop: each coin's object decoded with `ParseItem` and stored under its id, stopping at the first failure; Simple.DecodeCoinsOutcome, Simple.DecodeCoinsContent and Simple.DecodeCoinsFirstError state its outcome, content and error |
| Simple.DecodeCoinsOutcome | v3/simple.go:91-99 | the coin loop succeeds exactly when every coin's object decodes |
| Simple.DecodeCoinsContent | v3/simple.go:91-99 | a successful coin loop holds exactly the response's ids, each with the item of its last occurrence (a later duplicate overwrites) |
| Simple.DecodeCoinsFirstError | v3/simple.go:91-103 | on failure, the error is that of the first coin whose object fails |
| Simple.DecodeCoinsSticky | v3/simple.go:91-99 | once a coin has failed, later coins change nothing |
| Simple.DecodeBody | v3/simple.go:85-105 | the imperative coin loop returns the fold over the coins, then the scanner's own error |
| Simple.DecodeSimplePrice | v3/simple.go:91-105 | the `SimplePrice` result for a response body: the coin loop's first error, else the scanner's own error, else the coins; Simple.DecodeCoinsOutcome, Simple.DecodeCoinsContent and Simple.DecodeCoinsFirstError state the loop's outcome, content and error |
| Simple.SimplePrice | v3/simple.go:74-106 | invalid parameters give their error and no request; otherwise the request goes to `/simple/price` with exactly the encoded query, and the result is the transport error or the decoded coins |
| Coins.AtLeastOne | v3/coins.go:74-77 | a page number below 1 becomes 1; others are kept |
| Coins.PerPage | v3/coins.go:68-70 | a page size in 1..250 is kept; any other becomes 100 |
| Coins.PcpNames | v3/coins.go:89-90 | the wire names of the windows, one per window, in order |
| Coins.ValidateCoinsMarket | v3/coins.go:42-48 | the only error is a missing target currency |
| Coins.NormalizedOrder | v3/coins.go:56-58 | an order outside the table becomes market_cap_desc; in-range orders are kept |
| Coins.JoinPcp | v3/coins.go:85-96 | the builder loop that puts a `,` after every name but the last produces the comma-join of the window names |
| Coins.JoinStep | v3/coins.go:89-94 | one turn of the builder loop extends the join by one name |
| Coins.CoinsMarketEntries | v3/coins.go:50-99 | the seven guarded `Add`s of the `/coins/markets` encoder, with the normalised order, the clamped page size and the raised page; Coins.CoinsMarketQuery and the Coins.CoinsMarketQuery* lemmas state what the query then holds |
| Coins.EncodeCoinsMarket | v3/coins.go:50-99 | the encoder makes exactly the guarded `Add`s of `CoinsMarketEntries` (clamped order, page size and page), in order |
| Coins.CoinsMarketQuery | v3/coins.go:50-99 | the `/coins/markets` query holds exactly the entries whose condition holds, one value each, and nothing else |
| Coins.CoinsMarketKeysDistinct | v3/coins.go:53-95 | the seven keys are distinct |
| Coins.CoinsMarketQueryPresence | v3/coins.go:53-82 | `vs_currency` is sent as given; `sparkline` only as `"true"` |
| Coins.CoinsMarketQueryListCounts | v3/coins.go:62-96 | `ids` and `price_change_percentage` are sent once when their list is non-empty, and are absent otherwise |
| Coins.CoinsMarketQueryOrder | v3/coins.go:56-59 | `order` is sent once and looks back up to the normalised order |
| Coins.CoinsMarketQueryPaging | v3/coins.go:68-77 | `per_page` is sent once and reads back as the clamped page size; `page` is sent once and reads back as the page number raised to at least 1 |
| Coins.PcpNamesNoComma | v3/coins.go:85-96 | no window name contains `,` |
| Coins.CoinsMarketQueryLists | v3/coins.go:62-96 | `ids` splits back into the coin ids; `price_change_percentage` splits back into the window names, in order |
| Coins.CoinsMarketIgnoresCategory | v3/coins.go:50-99 | `Category` is never sent: parameters that differ only in it encode alike |
| Coins.ValidateCoinsID | v3/coins.go:134-140 | the only error is a missing coin id |
| Coins.CoinsIDEntries | v3/coins.go:142-153 | the six unconditional flag `Add`s of the `/coins/{id}` encoder; Coins.CoinsIDQuery and Coins.CoinsIDQueryMeaning state what the query then holds |
| Coins.EncodeCoinsID | v3/coins.go:142-153 | the encoder makes exactly the six unconditional flag `Add`s, in order |
| Coins.CoinsIDQuery | v3/coins.go:142-153 | the `/coins/{id}` query holds exactly the six flags, one value each |
| Coins.CoinsIDKeysDistinct | v3/coins.go:145-150 | the six keys are distinct |
| Coins.CoinsIDQueryMeaning | v3/coins.go:145-150 | each flag is sent as `"true"` or `"false"`, as it is set |
| Coins.CoinsIDNoOtherKeys | v3/coins.go:142-153 | only those six keys are ever sent |
| Coins.ValidateCoinsIDTickers | v3/coins.go:186-192 | the only error is a missing coin id |
| Coins.CoinsIDTickersEntries | v3/coins.go:194-212 | the five `Add`s of the tickers encoder: `exchange_ids` only for a non-empty list, the logo and depth flags always, the raised page, the order as given; Coins.CoinsIDTickersQuery and Coins.CoinsIDTickersQueryMeaning state what the query then holds |
| Coins.EncodeCoinsIDTickers | v3/coins.go:194-212 | the encoder makes exactly the guarded `Add`s of `CoinsIDTickersEntries` (page raised to at least 1), in order |
| Coins.CoinsIDTickersQuery | v3/coins.go:194-212 | the tickers query holds exactly the entries whose condition holds, one value each, and nothing else |
| Coins.CoinsIDTickersKeysDistinct | v3/coins.go:197-209 | the five keys are distinct |
| Coins.CoinsIDTickersQueryMeaning | v3/coins.go:197-209 | `exchange_ids` is sent only for a non-empty list, which it splits back into; the logo and depth flags are always sent; `order` looks back up to the order; `page` reads back as at least 1 |
| Coins.ValidateCoinsIDHistory | v3/coins.go:240-250 | the coin id is checked first, then the snapshot date |
| Coins.CoinsIDHistoryValidateOrder | v3/coins.go:240-250 | no error exactly when both fields are set; a missing coin id is always the one reported first |
| Coins.CoinsIDHistoryEntries | v3/coins.go:252-259 | the two unconditional `Add`s of the history encoder, `date` and `localization`; Coins.CoinsIDHistoryQuery states what the query then holds |
| Coins.EncodeCoinsIDHistory | v3/coins.go:252-259 | the encoder adds `date` and `localization`, in order |
| Coins.CoinsIDHistoryQuery | v3/coins.go:252-259 | the history query holds `date` as given (even when empty), the localization flag, and nothing else |
| Coins.ValidateCoinsIDMarketChart | v3/coins.go:289-303 | the coin id, currency and days are checked in that order |
| Coins.CoinsIDMarketChartValidateOrder | v3/coins.go:289-303 | no error exactly when all three are set; otherwise the first missing one, in order, is reported |
| Coins.CoinsIDMarketChartEntries | v3/coins.go:305-312 | the two unconditional `Add`s of the market-chart encoder, `vs_currency` and `days`; Coins.CoinsIDMarketChartQuery states what the query then holds |
| Coins.EncodeCoinsIDMarketChart | v3/coins.go:305-312 | the encoder adds `vs_currency` and `days`, in order |
| Coins.CoinsIDMarketChartQuery | v3/coins.go:305-312 | the market-chart query holds `vs_currency` and `days` as given, and nothing else |
| Exchanges.ExchangesEntries | v3/exchanges.go:18-32 | the two `Add`s of the `/exchanges` encoder, the clamped `per_page` and the raised `page`; Exchanges.ExchangesQuery and Exchanges.ExchangesQueryPaging state what the query then holds |
| Exchanges.EncodeExchanges | v3/exchanges.go:18-32 | the encoder adds the clamped `per_page` and `page`, in order |
| Exchanges.ExchangesQuery | v3/exchanges.go:18-32 | the `/exchanges` query holds the two paging keys and nothing else |
| Exchanges.ExchangesQueryPaging | v3/exchanges.go:21-29 | `per_page` is sent once and reads back as the page size when it lies in 1..250, and 100 otherwise; `page` is sent once and reads back as the page number raised to at least 1 |
| Exchanges.OutcomeErrors | v3/exchanges.go:50-57 | the error each element would report on its own |
| Exchanges.Finish | v3/exchanges.go:62-66 | `if err != nil { return nil, err }; return r, nil`: the walk's error, else its map; Exchanges.Exchanges, Exchanges.ExchangesList and Exchanges.ExchangesListDecoded state their results in its terms |
| Exchanges.Collect | v3/exchanges.go:49-60 | the `ArrayEach` loop with its shared `err`: an element is skipped once an error is recorded, fails with its own error, or stores its entry; Exchanges.CollectFirstError, Exchanges.CollectContent and Exchanges.CollectSticky state its error, content and stickiness |
| Exchanges.CollectFirstError | v3/exchanges.go:49-60 | the shared `err` after the walk is `firstError` folded over the elements' errors |
| Exchanges.CollectErrorIsFirstFailure | v3/exchanges.go:50-54 | the error kept is exactly that of the first element that fails |
| Exchanges.CollectNoError | v3/exchanges.go:49-60 | no error is recorded exactly when every element keeps an entry |
| Exchanges.CollectSticky | v3/exchanges.go:50-54 | once an error is recorded, later elements change neither the error nor the map |
| Exchanges.CollectSize | v3/exchanges.go:56-58 | the map has no more entries than the array has elements |
| Exchanges.LastKeep | v3/exchanges.go:56-58 | the last element that keeps an entry under a key; none exactly when no element does |
| Exchanges.CollectContent | v3/exchanges.go:56-58 | without an error, the map holds exactly the kept keys, each with its last kept value (a later duplicate overwrites) |
| Exchanges.CollectHasKey | v3/exchanges.go:56-58 | every kept key is in the map when no error was recorded |
| Exchanges.ExchangeOutcomeKeep | v3/exchanges.go:50-58 | an element keeps an entry only when it has no scanner error and unmarshals, and then under its decoded `Id` |
| Exchanges.ExchangeOutcome | v3/exchanges.go:50-58 | one `/exchanges` callback: the scanner's error, else the `json.Unmarshal` error, else the exchange under its `Id`; Exchanges.ExchangeOutcomeKeep states when it keeps an entry |
| Exchanges.ExchangeOutcomes | v3/exchanges.go:49-60 | one outcome per array element, in order |
| Exchanges.Exchanges | v3/exchanges.go:35-67 | the request goes to `/exchanges` with the paging query; a transport error is passed on; otherwise the walk's map is returned, or nil and its first error |
| Exchanges.ExchangesDecodedOutcome | v3/exchanges.go:49-64 | `/exchanges` decoding fails exactly when some element has a scanner or unmarshal error |
| Exchanges.ExchangesDecodedContent | v3/exchanges.go:56-58 | a successful decode has at most one entry per element and holds every element's exchange under its `Id`; the exchange stored under an id is the one decoded from the last element with that id, so a later duplicate overwrites an earlier one |
| Exchanges.LastValue | v3/exchanges.go:98-103 | a non-empty value is one that some hit on that path carried |
| Exchanges.HitErrors | v3/exchanges.go:91-96 | the inner walk's scanner errors, one per hit |
| Exchanges.ReadIdName | v3/exchanges.go:90-104 | the `EachKey` walk over one list element, from no error and empty `id` and `name`; Exchanges.ReadIdNameError and Exchanges.ReadIdNameValues state its error and its values |
| Exchanges.ReadIdNameError | v3/exchanges.go:91-96 | the inner walk's error is `firstError` folded over the hits' errors |
| Exchanges.ReadIdNameStepError | v3/exchanges.go:92-95 | one inner callback keeps an earlier error, otherwise takes its own |
| Exchanges.ReadIdNameValues | v3/exchanges.go:90-104 | without an error, `id` and `name` are the last values of their paths, and `""` for a path that never matched |
| Exchanges.ListOutcomes | v3/exchanges.go:83-108 | one outcome per list element, in order |
| Exchanges.ListOutcome | v3/exchanges.go:83-108 | one `/exchanges/list` element: the scanner's error, else the inner walk's first error, else `id -> name`; Exchanges.ExchangesListDecoded states what the list decode then holds |
| Exchanges.EachKey | v3/exchanges.go:90-104 | the imperative `EachKey` loop computes the inner walk's error, id and name |
| Exchanges.ExchangesList | v3/exchanges.go:69-115 | the request goes to `/exchanges/list` with no query; a transport error is passed on; otherwise the id→name map is returned, or nil and the first error |
| Exchanges.ExchangesListDecoded | v3/exchanges.go:83-112 | `/exchanges/list` succeeds exactly when no element and no key walk reports a scanner error; the map then has at most one entry per element, holds every element's last `id`, and maps each key to the last `name` of the last element whose last `id` it is |
| Exchanges.ExchangesID | v3/exchanges.go:117-135 | an empty id is refused with "exchangeID is required" before any URL is built; otherwise the request goes to `/exchanges/{id}` and the answer is passed on |
| Exchanges.ValidExchangesIDTickers | v3/exchanges.go:146-152 | the only error is a missing exchange id |
| Exchanges.ExchangesIDTickersEntries | v3/exchanges.go:154-176 | the five `Add`s of the exchange-tickers encoder: `coin_ids` only for a non-empty list, the logo flag always, the raised page, `depth` only when set, the order as given; Exchanges.ExchangesIDTickersQuery and Exchanges.ExchangesIDTickersQueryMeaning state what the query then holds |
| Exchanges.EncodeExchangesIDTickers | v3/exchanges.go:154-176 | the encoder makes exactly the guarded `Add`s of `ExchangesIDTickersEntries`, in order |
| Exchanges.ExchangesIDTickersQuery | v3/exchanges.go:154-176 | the exchange tickers query holds exactly the entries whose condition holds, one value each, and nothing else |
| Exchanges.ExchangesIDTickersKeysDistinct | v3/exchanges.go:157-172 | the five keys are distinct |
| Exchanges.ExchangesIDTickersQueryMeaning | v3/exchanges.go:157-172 | `coin_ids` is sent only for a non-empty list, which it splits back into; `depth` only as `"true"`; the logo flag and `order` always, `order` looking back up to the order; `page` reads back as at least 1 |

Proof helpers without a row (they unfold definitions or state constant facts used by the lemmas above): `Query.FromEntries2`, `Query.FromEntries5`, `Query.FromEntries6` and `Query.FromEntries7` write out a fold of two, five, six or seven guarded `Add`s; `Types.CoinsMarketOrderTable`, `Types.PriceChangePercentageTable` and `Types.TickerOrderTable` state that each name table is duplicate-free and comma-free; `Simple.LastUpdatedAtSplit` locates the first `_` of `last_updated_at`; `Simple.WriteOne` and `Simple.ParseFour` chain single callbacks for Simple.SingleCurrencyObject; `Simple.KeyParts` and `Simple.LongKeyNotTimestamp` split a composed key.

## Left out

- HTTP transport (`doReq`, `makeHTTPRequest…`, status handling, `http.Client`). Each endpoint method takes the transport's answer as a parameter (`resp`), so the model covers only the logic before and after the call. `dumpResponse` writes files and is left out.
- Applying `httpRequestModifier` to the outgoing request. The modifier a client holds is modelled, not run. A caller-supplied `*http.Client` or modifier is an opaque tag.
- JSON scanning and decoding. This covers jsonparser's `ObjectEach`/`ArrayEach`/`EachKey`, `ParseInt`/`ParseFloat`, and `json.Unmarshal`. What a walk delivers is a parameter (`Scan`: the callbacks in order, then the scanner's own error). The number parsers and `json.Unmarshal` are function parameters.
- `ArrayEach`'s and `EachKey`'s own return values. The source discards them (`_, _ =` and a bare call), so the model discards them too. A scanner error after the last callback therefore does not fail `/exchanges` or `/exchanges/list`.
- Exchange: `types.Exchange` is modelled as its `Id` plus the rest of the record as an opaque value, because only `Id` takes part in the logic.
- float64 values are `real`, passed through untouched. Only `ChartItem`'s time conversion computes with them, and there the truncation and int64 wrap-around are written out. `time.Time` is whole Unix seconds (`last_updated_at`) or nanoseconds (`ChartItem`).
- Go strings are byte sequences, and `strings.Index` returns a byte offset. The model treats strings as sequences of characters. The separators searched for (`_` and `,`) are ASCII and the offsets are used only to slice the same string, so the split parts are the same.
- `url.Values.Encode`: percent-encoding and key sorting. `Values` is the ordered list of `Add` calls, and `Get` groups them by key as `url.Values` does.
- strings.EqualFold (in `V3.HeaderToMap`): only ASCII letters are folded. Unicode simple folding is not modelled.
- The `fmt.Errorf` message texts of the simple-price decoder. `BadValue` keeps the coin, the field path and the raw value, but not the formatted string, and not the wrapped parse error.
- Reference semantics in `parseSimplePriceItem` (it updates a `*SimplePriceCurrencyItem` held in the map). The model stores the updated quote back into the map, which gives the same result.
- Types.CoinsMarketOrderString, Types.PriceChangePercentageString and Types.TickerOrderString require an in-range constant. Go indexes a fixed slice and panics otherwise. As a result, `EncodeCoinsIDTickers` and `EncodeExchangesIDTickers` (which send the order unclamped), and encoders given an out-of-range window, carry that precondition.
- Types.ChartItemOf requires the millisecond value to fit in int64, because Go leaves an out-of-range float-to-int conversion unspecified.
- Exchanges.ExchangesDecodedOutcome states only when decoding fails. Which error it reports is stated by Exchanges.CollectErrorIsFirstFailure on the same outcomes.
- The encoder methods state only that they build `FromEntries` of their entry list. The meaning of that query is stated once per endpoint by the `…Query` and `…QueryMeaning` lemmas, and `Simple.SimplePrice` carries it into its own contract.
- `format.Int2String` and `format.Bool2String`: `format/format.go` is not part of this model. They are taken as base-10 `strconv.Itoa` and `"true"`/`"false"`, as format/format_test.go expects.
- `types.NewBaseResult`/`NewBasePageResult` (cache and paging metadata decoded from response headers): their source file is not part of this model, so results carry no header metadata.
- The remaining endpoint calls (`CoinsList`, `CoinsMarket`, `CoinsID`, `CoinsIDTickers`, `CoinsIDHistory`, `CoinsIDMarketChart`, `ExchangesIDTickers`, `Ping`, `Global`, `ExchangeRates`, `SimpleSupportedVSCurrencies`). They only validate, format a URL, call the transport and `json.Unmarshal` the body. Their validators and encoders are modelled.
- The two-currency example of v3/simple_test.go:60-86: the model proves the single-currency case for every currency code without `_` (Simple.SingleCurrencyObject), not the concrete eight-key object.
