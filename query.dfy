/** `url.Values` as the encoders fill it, before percent-encoding and key sorting: the `Add` calls in
    the order they were made. `Get` groups them by key as `url.Values` does. */
module Query {
  import opened Wrappers
  import Text

  type Values = seq<(string, string)>

  /** `url.Values.Add`. */
  function Add(v: Values, key: string, value: string): Values
  {
    v + [(key, value)]
  }

  /** `v[key]`: the values added under `key`, in the order they were added. */
  function Get(v: Values, key: string): seq<string>
  {
    if |v| == 0 then []
    else Get(v[..|v| - 1], key) + (if v[|v| - 1].0 == key then [v[|v| - 1].1] else [])
  }

  /** `Add` appends `value` to the values of `key` and leaves every other key alone. */
  lemma GetAdd(v: Values, key: string, value: string, k: string)
    ensures Get(Add(v, key, value), k) == Get(v, k) + (if k == key then [value] else [])
  {
    assert Add(v, key, value)[..|v|] == v;
  }

  /** One `Add` an encoder makes, guarded by the condition it is made under (`true` for the
      unconditional ones). */
  datatype Entry = Entry(when: bool, key: string, value: string)

  /** `if e.when { v.Add(e.key, e.value) }`. */
  function AddIf(v: Values, e: Entry): Values
  {
    if e.when then Add(v, e.key, e.value) else v
  }

  /** The values an encoder that makes the guarded `Add`s `es`, in order, into empty values ends with. */
  function FromEntries(es: seq<Entry>): Values
  {
    if es == [] then [] else AddIf(FromEntries(es[..|es| - 1]), es[|es| - 1])
  }

  /** `FromEntries` of a short list, written out: the encoders' `Add`s one after another. */
  lemma FromEntries2(a: Entry, b: Entry)
    ensures FromEntries([a, b]) == AddIf(AddIf([], a), b)
  {
    assert [a, b][..1] == [a];
    assert [a][..0] == [];
    assert FromEntries([a]) == AddIf([], a);
  }

  lemma FromEntries5(a: Entry, b: Entry, c: Entry, d: Entry, e: Entry)
    ensures FromEntries([a, b, c, d, e]) == AddIf(AddIf(AddIf(AddIf(AddIf([], a), b), c), d), e)
  {
    FromEntries2(a, b);
    assert [a, b, c][..2] == [a, b];
    assert FromEntries([a, b, c]) == AddIf(FromEntries([a, b]), c);
    assert [a, b, c, d][..3] == [a, b, c];
    assert FromEntries([a, b, c, d]) == AddIf(FromEntries([a, b, c]), d);
    assert [a, b, c, d, e][..4] == [a, b, c, d];
  }

  lemma FromEntries6(a: Entry, b: Entry, c: Entry, d: Entry, e: Entry, f: Entry)
    ensures FromEntries([a, b, c, d, e, f]) == AddIf(AddIf(AddIf(AddIf(AddIf(AddIf([], a), b), c), d), e), f)
  {
    FromEntries5(a, b, c, d, e);
    assert [a, b, c, d, e, f][..5] == [a, b, c, d, e];
  }

  lemma FromEntries7(a: Entry, b: Entry, c: Entry, d: Entry, e: Entry, f: Entry, g: Entry)
    ensures FromEntries([a, b, c, d, e, f, g]) == AddIf(AddIf(AddIf(AddIf(AddIf(AddIf(AddIf([], a), b), c), d), e), f), g)
  {
    FromEntries6(a, b, c, d, e, f);
    assert [a, b, c, d, e, f, g][..6] == [a, b, c, d, e, f];
  }

  /** No key is used by two entries. */
  ghost predicate DistinctKeys(es: seq<Entry>)
  {
    forall i, j :: 0 <= i < j < |es| ==> es[i].key != es[j].key
  }

  /** `v` holds, under each entry's key, the entry's value alone when its condition holds and nothing
      otherwise. */
  ghost predicate EntriesHeld(v: Values, es: seq<Entry>)
  {
    forall i :: 0 <= i < |es| ==> Get(v, es[i].key) == if es[i].when then [es[i].value] else []
  }

  /** `v` holds nothing under a key no entry uses. */
  ghost predicate NoOtherKeys(v: Values, es: seq<Entry>)
  {
    forall k :: (forall i :: 0 <= i < |es| ==> es[i].key != k) ==> Get(v, k) == []
  }

  /** The query an encoder with entries `es` must produce. */
  ghost predicate Describes(v: Values, es: seq<Entry>)
  {
    EntriesHeld(v, es) && NoOtherKeys(v, es)
  }

  /** The last guarded `Add` changes the values of its own key only. */
  lemma GetAddIf(v: Values, e: Entry, k: string)
    ensures Get(AddIf(v, e), k) == Get(v, k) + (if e.when && k == e.key then [e.value] else [])
  {
    if e.when {
      GetAdd(v, e.key, e.value, k);
    }
  }

  /** Guarded `Add`s put nothing under a key none of them uses. */
  lemma {:induction false} FromEntriesAbsent(es: seq<Entry>, k: string)
    requires forall i :: 0 <= i < |es| ==> es[i].key != k
    ensures Get(FromEntries(es), k) == []
  {
    if es != [] {
      var init, e := es[..|es| - 1], es[|es| - 1];
      assert forall j :: 0 <= j < |init| ==> init[j] == es[j];
      FromEntriesAbsent(init, k);
      GetAddIf(FromEntries(init), e, k);
    }
  }

  /** Guarded `Add`s under distinct keys leave each entry's value under its key, alone, exactly when its
      condition holds. */
  lemma {:induction false} FromEntriesHeld(es: seq<Entry>)
    requires DistinctKeys(es)
    ensures EntriesHeld(FromEntries(es), es)
  {
    if es != [] {
      var init, e := es[..|es| - 1], es[|es| - 1];
      assert forall j :: 0 <= j < |init| ==> init[j] == es[j];
      FromEntriesHeld(init);
      var v0, v := FromEntries(init), FromEntries(es);
      forall i | 0 <= i < |es| ensures Get(v, es[i].key) == if es[i].when then [es[i].value] else [] {
        GetAddIf(v0, e, es[i].key);
        if i < |init| {
          assert init[i] == es[i] && es[i].key != e.key;
        } else {
          assert es[i] == e;
          FromEntriesAbsent(init, e.key);
        }
      }
    }
  }

  lemma FromEntriesNoOtherKeys(es: seq<Entry>)
    ensures NoOtherKeys(FromEntries(es), es)
  {
    forall k | forall i :: 0 <= i < |es| ==> es[i].key != k ensures Get(FromEntries(es), k) == [] {
      FromEntriesAbsent(es, k);
    }
  }

  /** Guarded `Add`s under distinct keys leave exactly the entries that were taken, one value each. */
  lemma FromEntriesDescribes(es: seq<Entry>)
    requires DistinctKeys(es)
    ensures Describes(FromEntries(es), es)
  {
    FromEntriesHeld(es);
    FromEntriesNoOtherKeys(es);
  }

  /** A held entry whose value is the decimal rendering of a 64-bit integer is sent once, and reads
      back as that integer. */
  lemma HeldNumber(v: Values, es: seq<Entry>, i: nat, n: int)
    requires EntriesHeld(v, es) && i < |es| && es[i].when && es[i].value == Text.Itoa(n) && Text.InInt64(n)
    ensures |Get(v, es[i].key)| == 1 && Text.Atoi(Get(v, es[i].key)[0]) == Some(n)
  {
    Text.AtoiItoa(n);
  }

  /** A held entry whose value is a comma-join of a non-empty list with no ',' in its items is sent
      once, and splitting it gives the list back. */
  lemma HeldList(v: Values, es: seq<Entry>, i: nat, xs: seq<string>)
    requires EntriesHeld(v, es) && i < |es| && es[i].when && es[i].value == Text.Join(xs, ",")
    requires |xs| > 0 && forall j :: 0 <= j < |xs| ==> ',' !in xs[j]
    ensures |Get(v, es[i].key)| == 1 && Text.Split(Get(v, es[i].key)[0], ',') == xs
  {
    Text.SplitJoin(xs, ',');
  }

  /** The validators' shared rule: the required fields, each with the message that reports it
      missing, are checked in order, and the first empty one is reported. */
  function FirstMissing(fields: seq<(string, string)>): (e: Option<Error>)
    ensures e.None? <==> forall i :: 0 <= i < |fields| ==> fields[i].0 != ""
    ensures e.Some? ==> exists i :: && 0 <= i < |fields| && fields[i].0 == "" && e == Some(Invalid(fields[i].1))
                                    && forall j :: 0 <= j < i ==> fields[j].0 != ""
  {
    if |fields| == 0 then None
    else if fields[0].0 == "" then Some(Invalid(fields[0].1))
    else
      var rest := FirstMissing(fields[1..]);
      assert rest.Some? ==> exists i :: && 0 <= i < |fields| && fields[i].0 == "" && rest == Some(Invalid(fields[i].1))
                                        && forall j :: 0 <= j < i ==> fields[j].0 != "" by {
        if rest.Some? {
          var i :| && 0 <= i < |fields| - 1 && fields[1..][i].0 == "" && rest == Some(Invalid(fields[1..][i].1))
                   && forall j :: 0 <= j < i ==> fields[1..][j].0 != "";
          assert forall j :: 0 <= j < i + 1 ==> fields[j].0 != "" by {
            forall j | 0 <= j < i + 1 ensures fields[j].0 != "" {
              if j > 0 { assert fields[j] == fields[1..][j - 1]; }
            }
          }
        }
      }
      assert (forall i :: 0 <= i < |fields| - 1 ==> fields[1..][i].0 != "") ==> forall i :: 0 <= i < |fields| ==> fields[i].0 != "" by {
        if forall i :: 0 <= i < |fields| - 1 ==> fields[1..][i].0 != "" {
          forall i | 0 <= i < |fields| ensures fields[i].0 != "" {
            if i > 0 { assert fields[i] == fields[1..][i - 1]; }
          }
        }
      }
      rest
  }

  /** A GET request the client would issue: the URL up to `?`, and the query parameters. */
  datatype Request = Request(url: string, query: Values)
}
