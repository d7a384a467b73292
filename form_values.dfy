/** Go's url.Values: a multimap from form key to the list of its values, in
    the order they were added. Add only ever appends. */
module FormValues {

  type Values = map<string, seq<string>>

  /** One key/value pair appended to a form. */
  datatype Entry = Entry(key: string, value: string)

  /** The list of values stored under `key`; empty when the key is absent. */
  function ValuesOf(m: Values, key: string): seq<string>
  {
    if key in m then m[key] else []
  }

  /** url.Values.Add: append `value` to the list stored under `key`. */
  function Add(m: Values, key: string, value: string): Values
  {
    m[key := ValuesOf(m, key) + [value]]
  }

  /** Add appends the value under its key, may add that key, and changes nothing else. */
  lemma AddValues(m: Values, key: string, value: string)
    ensures Add(m, key, value).Keys == m.Keys + {key}
    ensures ValuesOf(Add(m, key, value), key) == ValuesOf(m, key) + [value]
    ensures forall k :: k != key ==> ValuesOf(Add(m, key, value), k) == ValuesOf(m, k)
  {
  }

  /** The form obtained by adding the entries one after another. */
  function ApplyEntries(m: Values, es: seq<Entry>): Values
  {
    if es == [] then m
    else Add(ApplyEntries(m, es[..|es| - 1]), es[|es| - 1].key, es[|es| - 1].value)
  }

  /** The values the entries carry for `key`, in order. */
  function ValuesFor(es: seq<Entry>, key: string): (vs: seq<string>)
    ensures |vs| <= |es|
  {
    if es == [] then []
    else ValuesFor(es[..|es| - 1], key) + (if es[|es| - 1].key == key then [es[|es| - 1].value] else [])
  }

  /** The keys the entries mention. */
  function KeysOf(es: seq<Entry>): set<string>
  {
    if es == [] then {} else KeysOf(es[..|es| - 1]) + {es[|es| - 1].key}
  }

  /** Every key of `m` is still present in `m2`, and its old list of values is
      a prefix of its new one. */
  ghost predicate Extends(m: Values, m2: Values)
  {
    forall k :: k in m ==> k in m2 && m[k] <= m2[k]
  }

  lemma ApplyEntriesSnoc(m: Values, es: seq<Entry>, e: Entry)
    ensures ApplyEntries(m, es + [e]) == Add(ApplyEntries(m, es), e.key, e.value)
  {
    assert (es + [e])[..|es|] == es;
  }

  /** Adding two lists of entries one after the other is adding their concatenation. */
  lemma {:induction false} ApplyEntriesAppend(m: Values, es: seq<Entry>, fs: seq<Entry>)
    ensures ApplyEntries(ApplyEntries(m, es), fs) == ApplyEntries(m, es + fs)
    decreases |fs|
  {
    if fs == [] {
      assert es + fs == es;
    } else {
      var init, last := fs[..|fs| - 1], fs[|fs| - 1];
      assert fs == init + [last];
      ApplyEntriesAppend(m, es, init);
      ApplyEntriesSnoc(ApplyEntries(m, es), init, last);
      assert es + fs == (es + init) + [last];
      ApplyEntriesSnoc(m, es + init, last);
    }
  }

  /** The values under any key after adding entries are the values before,
      followed by the values the entries carry for that key. */
  lemma {:induction false} ApplyEntriesValues(m: Values, es: seq<Entry>, key: string)
    ensures ValuesOf(ApplyEntries(m, es), key) == ValuesOf(m, key) + ValuesFor(es, key)
    decreases |es|
  {
    if es != [] {
      var init, last := es[..|es| - 1], es[|es| - 1];
      ApplyEntriesValues(m, init, key);
      AddValues(ApplyEntries(m, init), last.key, last.value);
    }
  }

  /** Adding entries removes no key and adds exactly the keys they mention. */
  lemma {:induction false} ApplyEntriesKeys(m: Values, es: seq<Entry>)
    ensures ApplyEntries(m, es).Keys == m.Keys + KeysOf(es)
    decreases |es|
  {
    if es != [] {
      var init := es[..|es| - 1];
      ApplyEntriesKeys(m, init);
      AddValues(ApplyEntries(m, init), es[|es| - 1].key, es[|es| - 1].value);
    }
  }

  /** Adding entries only ever appends: every old key keeps its old values as a prefix. */
  lemma ApplyEntriesExtends(m: Values, es: seq<Entry>)
    ensures Extends(m, ApplyEntries(m, es))
  {
    var m2 := ApplyEntries(m, es);
    ApplyEntriesKeys(m, es);
    forall k | k in m ensures k in m2 && m[k] <= m2[k] {
      ApplyEntriesValues(m, es, k);
    }
  }

  /** A key the entries do not mention keeps exactly its old values. */
  lemma {:induction false} ValuesForAbsent(es: seq<Entry>, key: string)
    requires key !in KeysOf(es)
    ensures ValuesFor(es, key) == []
    decreases |es|
  {
    if es != [] {
      ValuesForAbsent(es[..|es| - 1], key);
    }
  }

  lemma ExtendsTransitive(m1: Values, m2: Values, m3: Values)
    requires Extends(m1, m2) && Extends(m2, m3)
    ensures Extends(m1, m3)
  {
  }

  lemma {:induction false} ValuesForAppend(es: seq<Entry>, fs: seq<Entry>, key: string)
    ensures ValuesFor(es + fs, key) == ValuesFor(es, key) + ValuesFor(fs, key)
    decreases |fs|
  {
    if fs == [] {
      assert es + fs == es;
    } else {
      var init := fs[..|fs| - 1];
      ValuesForAppend(es, init, key);
      assert (es + fs)[..|es + fs| - 1] == es + init;
    }
  }

  lemma {:induction false} KeysOfAppend(es: seq<Entry>, fs: seq<Entry>)
    ensures KeysOf(es + fs) == KeysOf(es) + KeysOf(fs)
    decreases |fs|
  {
    if fs == [] {
      assert es + fs == es;
    } else {
      var init := fs[..|fs| - 1];
      KeysOfAppend(es, init);
      assert (es + fs)[..|es + fs| - 1] == es + init;
    }
  }
}
