/**
 * The url.Values multimap that every request is built in: each key maps to the
 * list of values added under it, oldest first.
 */
module UrlValues {

  /** One key/value pair handed to url.Values.Add. */
  datatype Entry = Entry(key: string, value: string)

  type Values = map<string, seq<string>>

  /** The list stored under key; a key that was never added has no values. */
  function Get(v: Values, key: string): seq<string>
  {
    if key in v then v[key] else []
  }

  /** url.Values.Add: value goes to the end of key's list. */
  function Append(v: Values, key: string, value: string): Values
  {
    v[key := Get(v, key) + [value]]
  }

  /** url.Values.Add adds key if needed, extends its list by value at the end, and leaves every other key untouched. */
  lemma AppendGet(v: Values, key: string, value: string)
    ensures Append(v, key, value).Keys == v.Keys + {key}
    ensures Get(Append(v, key, value), key) == Get(v, key) + [value]
    ensures forall k :: k != key ==> Get(Append(v, key, value), k) == Get(v, k)
  {
  }

  /** The payload after Add-ing each entry of es in turn. */
  function AppendAll(v: Values, es: seq<Entry>): Values
  {
    if es == [] then v
    else
      var last := es[|es| - 1];
      Append(AppendAll(v, es[..|es| - 1]), last.key, last.value)
  }

  /** The values that es carries under key, in the order they occur. */
  function ValuesFor(es: seq<Entry>, key: string): seq<string>
  {
    if es == [] then []
    else
      var last := es[|es| - 1];
      ValuesFor(es[..|es| - 1], key) + (if last.key == key then [last.value] else [])
  }

  /** The keys of es, in order. */
  function KeySeq(es: seq<Entry>): seq<string>
  {
    seq(|es|, i requires 0 <= i < |es| => es[i].key)
  }

  /** The set of keys that es adds to. */
  function KeysOf(es: seq<Entry>): set<string>
  {
    set e | e in es :: e.key
  }

  /**
   * Adding a run of entries appends, under every key, exactly the values the run
   * carries for that key, after the values already there.
   */
  lemma {:induction false} AppendAllGet(v: Values, es: seq<Entry>, key: string)
    ensures Get(AppendAll(v, es), key) == Get(v, key) + ValuesFor(es, key)
  {
    if es != [] {
      AppendAllGet(v, es[..|es| - 1], key);
    }
  }

  /** Adding a run of entries creates exactly the keys the run mentions and removes none. */
  lemma {:induction false} AppendAllKeys(v: Values, es: seq<Entry>)
    ensures AppendAll(v, es).Keys == v.Keys + KeysOf(es)
  {
    if es != [] {
      var init := es[..|es| - 1];
      AppendAllKeys(v, init);
      assert es == init + [es[|es| - 1]];
      assert KeysOf(es) == KeysOf(init) + {es[|es| - 1].key};
    }
  }

  /**
   * Only appends: every key present before is still present, and its old list is a
   * prefix of its new list; keys the entries do not mention keep their lists.
   */
  lemma AppendOnly(v: Values, es: seq<Entry>)
    ensures forall k :: k in v ==> k in AppendAll(v, es) && v[k] <= AppendAll(v, es)[k]
    ensures forall k :: k !in KeysOf(es) ==> Get(AppendAll(v, es), k) == Get(v, k)
  {
    AppendAllKeys(v, es);
    forall k | k in v
      ensures k in AppendAll(v, es) && v[k] <= AppendAll(v, es)[k]
    {
      AppendAllGet(v, es, k);
    }
    forall k | k !in KeysOf(es)
      ensures Get(AppendAll(v, es), k) == Get(v, k)
    {
      AppendAllGet(v, es, k);
      NoValuesForAbsentKey(es, k);
    }
  }

  lemma {:induction false} NoValuesForAbsentKey(es: seq<Entry>, key: string)
    requires key !in KeysOf(es)
    ensures ValuesFor(es, key) == []
  {
    if es != [] {
      var init := es[..|es| - 1];
      assert KeysOf(init) <= KeysOf(es);
      assert es[|es| - 1] in es;
      NoValuesForAbsentKey(init, key);
    }
  }

  lemma {:induction false} AddedKeyHasValues(es: seq<Entry>, key: string)
    requires key in KeysOf(es)
    ensures ValuesFor(es, key) != []
  {
    var init, last := es[..|es| - 1], es[|es| - 1];
    assert es == init + [last];
    if last.key != key {
      assert key in KeysOf(init);
      AddedKeyHasValues(init, key);
    }
  }

  /** Starting from an empty payload, a key is present exactly when some entry carries it, with exactly those values. */
  lemma FromEmpty(es: seq<Entry>, key: string)
    ensures key in AppendAll(map[], es) <==> ValuesFor(es, key) != []
    ensures Get(AppendAll(map[], es), key) == ValuesFor(es, key)
  {
    AppendAllKeys(map[], es);
    AppendAllGet(map[], es, key);
    if key in KeysOf(es) {
      AddedKeyHasValues(es, key);
    } else {
      NoValuesForAbsentKey(es, key);
    }
  }

  /** A mutable url.Values, as the AppendPayload methods receive it through a pointer. */
  class Payload {
    var values: Values

    /** url.Values{}: no keys. */
    constructor ()
      ensures values == map[]
    {
      values := map[];
    }

    /** url.Values.Add. */
    method Add(key: string, value: string)
      modifies this
      ensures values == Append(old(values), key, value)
    {
      values := values[key := Get(values, key) + [value]];
    }
  }
}
