/** The client object, its construction options, and the two helpers of v3/v3.go that hold logic:
    `firstError` and `headerToMap`. */
module V3 {
  import opened Wrappers
  import Text

  const BaseURL: string := "https://api.coingecko.com/api/v3"
  const ProBaseURL: string := "https://pro-api.coingecko.com/api/v3"
  const ProAPIKeyHeader: string := "x-cg-pro-api-key"

  // ---------------------------------------------------------------- firstError

  /** `firstError(fst, snd)`: keep an error already seen, otherwise take the new one. */
  function FirstError(fst: Option<Error>, snd: Option<Error>): Option<Error>
  {
    if fst.Some? then fst else snd
  }

  /** `firstError` folded left to right over a run of outcomes yields the earliest error, and no
      error exactly when there is none. */
  function FoldFirstError(errs: seq<Option<Error>>): (e: Option<Error>)
    ensures e.None? <==> forall i :: 0 <= i < |errs| ==> errs[i].None?
    ensures e.Some? ==> exists i :: 0 <= i < |errs| && errs[i] == e && forall j :: 0 <= j < i ==> errs[j].None?
  {
    if |errs| == 0 then None
    else
      var front := errs[..|errs| - 1];
      var e := FirstError(FoldFirstError(front), errs[|errs| - 1]);
      assert forall i :: 0 <= i < |front| ==> front[i] == errs[i];
      e
  }

  /** Once the earliest error is at position `i`, nothing after it changes the fold. */
  lemma FoldFirstErrorIsEarliest(errs: seq<Option<Error>>, i: nat)
    requires i < |errs| && errs[i].Some?
    requires forall j :: 0 <= j < i ==> errs[j].None?
    ensures FoldFirstError(errs) == errs[i]
  {
    var e := FoldFirstError(errs);
    var k :| 0 <= k < |errs| && errs[k] == e && forall j :: 0 <= j < k ==> errs[j].None?;
    assert k == i;
  }

  // ---------------------------------------------------------------- headerToMap

  /** `http.Header`: canonical header name to its values. */
  type Header = map<string, seq<string>>

  predicate Requested(name: string, keys: seq<string>)
  {
    exists j :: 0 <= j < |keys| && Text.EqualFold(name, keys[j])
  }

  /** `headerToMap(header, keys...)`: exactly the entries of `header` whose name equals one of `keys`
      ignoring (ASCII) case, with names and values unchanged. */
  method HeaderToMap(header: Header, keys: seq<string>) returns (r: Header)
    ensures r.Keys == set name | name in header && Requested(name, keys)
    ensures forall name :: name in r ==> r[name] == header[name]
  {
    r := map[];
    var remaining := header.Keys;
    while remaining != {}
      invariant remaining <= header.Keys && r.Keys <= header.Keys
      invariant r.Keys == set name | name in header.Keys - remaining && Requested(name, keys)
      invariant forall name :: name in r ==> r[name] == header[name]
      decreases remaining
    {
      var k :| k in remaining;
      var v := header[k];
      ghost var rem0 := remaining;
      ghost var before := r;
      assert forall name :: name in before <==> name in header.Keys - rem0 && Requested(name, keys);
      for j := 0 to |keys|
        invariant r.Keys - {k} == before.Keys && r.Keys <= header.Keys
        invariant k in r <==> exists j' :: 0 <= j' < j && Text.EqualFold(k, keys[j'])
        invariant forall name :: name in r ==> r[name] == header[name]
      {
        if Text.EqualFold(k, keys[j]) {
          r := r[k := v];
        }
      }
      assert k in r <==> Requested(k, keys);
      remaining := remaining - {k};
      forall name | name in header.Keys - remaining && Requested(name, keys)
        ensures name in r
      {
        if name != k {
          assert name in header.Keys - rem0;
          assert name in before;
        }
      }
      assert forall name :: name in r ==> name in header.Keys - remaining && Requested(name, keys);
    }
  }

  // ---------------------------------------------------------------- Client and its options

  /** The `*http.Client` in use: Go's default one, or one the caller supplied (told apart by a tag). */
  datatype HttpClient = DefaultClient | CallerClient(tag: nat)

  /** An `HttpRequestModifier`: the one `WithAPIKey` installs, or a function the caller supplied. */
  datatype RequestModifier = SetHeader(name: string, value: string) | CallerModifier(tag: nat)

  /** A `ClientOption`, as one of the two option constructors the package offers. */
  datatype ClientOption =
    | WithHttpRequestModifier(f: Option<RequestModifier>)
    | WithAPIKey(apiKey: string)

  /** The fields of a `Client`. */
  datatype Config = Config(httpClient: HttpClient, baseURL: string, httpRequestModifier: Option<RequestModifier>)

  /** The effect of one option on the client's fields. */
  function ApplyOption(c: Config, option: ClientOption): (r: Config)
    ensures r.httpClient == c.httpClient
    ensures option.WithHttpRequestModifier? ==> r.baseURL == c.baseURL && r.httpRequestModifier == option.f
    ensures option.WithAPIKey? ==>
      r.baseURL == ProBaseURL && r.httpRequestModifier == Some(SetHeader(ProAPIKeyHeader, option.apiKey))
  {
    match option
    case WithHttpRequestModifier(f) => c.(httpRequestModifier := f)
    case WithAPIKey(k) => c.(baseURL := ProBaseURL, httpRequestModifier := Some(SetHeader(ProAPIKeyHeader, k)))
  }

  /** Options applied in argument order. */
  function ApplyOptions(c: Config, options: seq<ClientOption>): Config
    decreases |options|
  {
    if |options| == 0 then c else ApplyOptions(ApplyOption(c, options[0]), options[1..])
  }

  /** What `NewClient(httpClient, options...)` builds. */
  function NewConfig(httpClient: Option<HttpClient>, options: seq<ClientOption>): Config
  {
    ApplyOptions(Config(httpClient.GetOr(DefaultClient), BaseURL, None), options)
  }

  lemma {:induction false} ApplyOptionsSnoc(c: Config, options: seq<ClientOption>, last: ClientOption)
    ensures ApplyOptions(c, options + [last]) == ApplyOption(ApplyOptions(c, options), last)
    decreases |options|
  {
    if |options| > 0 {
      assert (options + [last])[1..] == options[1..] + [last];
      ApplyOptionsSnoc(ApplyOption(c, options[0]), options[1..], last);
    }
  }

  /** The modifier an option installs. */
  function ModifierOf(option: ClientOption): Option<RequestModifier>
  {
    match option
    case WithHttpRequestModifier(f) => f
    case WithAPIKey(k) => Some(SetHeader(ProAPIKeyHeader, k))
  }

  predicate HasAPIKey(options: seq<ClientOption>)
  {
    exists i :: 0 <= i < |options| && options[i].WithAPIKey?
  }

  /** Later options override earlier ones: the HTTP client is never touched by an option, the base URL
      is the pro endpoint once any `WithAPIKey` was given, and the modifier is the one the LAST option
      installs (so a `WithHttpRequestModifier` after `WithAPIKey` drops the API-key header while the
      pro base URL stays). */
  lemma {:induction false} ApplyOptionsEffect(c: Config, options: seq<ClientOption>)
    ensures ApplyOptions(c, options).httpClient == c.httpClient
    ensures ApplyOptions(c, options).baseURL == if HasAPIKey(options) then ProBaseURL else c.baseURL
    ensures ApplyOptions(c, options).httpRequestModifier ==
      if |options| == 0 then c.httpRequestModifier else ModifierOf(options[|options| - 1])
    decreases |options|
  {
    if |options| > 0 {
      var front, last := options[..|options| - 1], options[|options| - 1];
      assert options == front + [last];
      ApplyOptionsSnoc(c, front, last);
      ApplyOptionsEffect(c, front);
      if last.WithAPIKey? {
        assert HasAPIKey(options);
      } else {
        assert HasAPIKey(options) == HasAPIKey(front) by {
          if HasAPIKey(options) {
            var i :| 0 <= i < |options| && options[i].WithAPIKey?;
            assert front[i] == options[i];
          }
          if HasAPIKey(front) {
            var i :| 0 <= i < |front| && front[i].WithAPIKey?;
            assert options[i] == front[i];
          }
        }
      }
    }
  }

  /** `NewClient(nil)` talks to the public endpoint through Go's default client with no modifier;
      `NewClient(nil, WithAPIKey(k))` talks to the pro endpoint and sets the API-key header. */
  lemma NewClientDefaults(k: string)
    ensures NewConfig(None, []) == Config(DefaultClient, BaseURL, None)
    ensures NewConfig(None, [WithAPIKey(k)]) ==
      Config(DefaultClient, ProBaseURL, Some(SetHeader(ProAPIKeyHeader, k)))
  {
    var c0 := Config(DefaultClient, BaseURL, None);
    assert [WithAPIKey(k)][1..] == [];
    assert ApplyOptions(c0, [WithAPIKey(k)]) == ApplyOptions(ApplyOption(c0, WithAPIKey(k)), []);
  }

  /** The client object: `NewClient` and each option update its fields in place. */
  class Client {
    var httpClient: HttpClient
    var baseURL: string
    var httpRequestModifier: Option<RequestModifier>

    function State(): Config
      reads this
    {
      Config(httpClient, baseURL, httpRequestModifier)
    }

    /** `NewClient(httpClient, options...)`: a nil client becomes the default one, the base URL starts
        as the public endpoint, then each option is applied in order. */
    constructor NewClient(httpClient: Option<HttpClient>, options: seq<ClientOption>)
      ensures State() == NewConfig(httpClient, options)
    {
      this.httpClient := httpClient.GetOr(DefaultClient);
      baseURL := BaseURL;
      httpRequestModifier := None;
      new;
      ghost var initial := State();
      for i := 0 to |options|
        invariant State() == ApplyOptions(initial, options[..i])
      {
        Apply(options[i]);
        assert options[..i + 1] == options[..i] + [options[i]];
        ApplyOptionsSnoc(initial, options[..i], options[i]);
      }
      assert options[..|options|] == options;
    }

    /** Running one `ClientOption` on this client. */
    method Apply(option: ClientOption)
      modifies this
      ensures State() == ApplyOption(old(State()), option)
    {
      match option
      case WithHttpRequestModifier(f) =>
        httpRequestModifier := f;
      case WithAPIKey(k) =>
        baseURL := ProBaseURL;
        httpRequestModifier := Some(SetHeader(ProAPIKeyHeader, k));
    }
  }
}
