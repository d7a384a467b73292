/** The parts of net/url and path the client uses to compose request URLs:
    url.URL with its path kept as a list of segments and its query as the
    decoded url.Values; path.Join of plain segments; url.Values.Set. */
module Urls {
  import opened FormValues

  /** A parsed URL: scheme, authority and everything else that the client
      never rewrites is `origin`. */
  datatype Url = Url(origin: string, path: seq<string>, query: Values)

  /** The result of url.Parse. */
  datatype ParsedUrl = Parsed(url: Url) | BadUrl(reason: string)

  /** The non-empty elements of `elems`, in order. */
  function NonEmpty(elems: seq<string>): (r: seq<string>)
    ensures |r| <= |elems|
    ensures forall k :: 0 <= k < |r| ==> r[k] != ""
  {
    if elems == [] then []
    else (if elems[0] == "" then [] else [elems[0]]) + NonEmpty(elems[1..])
  }

  /** path.Join(base, elems...) on plain segments: empty elements are dropped. */
  function JoinPath(base: seq<string>, elems: seq<string>): seq<string>
  {
    base + NonEmpty(elems)
  }

  /** url.Values.Set: `key` is left with exactly the one value `value`. */
  function SetParam(u: Url, key: string, value: string): Url
  {
    u.(query := u.query[key := [value]])
  }

  /** Dropping empty elements distributes over concatenation. */
  lemma {:induction false} NonEmptyAppend(a: seq<string>, b: seq<string>)
    ensures NonEmpty(a + b) == NonEmpty(a) + NonEmpty(b)
    decreases |a|
  {
    if a == [] {
      assert a + b == b;
    } else {
      assert (a + b)[0] == a[0] && (a + b)[1..] == a[1..] + b;
      NonEmptyAppend(a[1..], b);
    }
  }

  /** Every element that is not empty is kept, as often as it occurs, and
      the empty ones are dropped. */
  lemma {:induction false} NonEmptyCounts(elems: seq<string>)
    ensures multiset(NonEmpty(elems)) == multiset(elems)["" := 0]
    decreases |elems|
  {
    if elems != [] {
      NonEmptyCounts(elems[1..]);
      assert elems == [elems[0]] + elems[1..];
      var head := if elems[0] == "" then [] else [elems[0]];
      assert NonEmpty(elems) == head + NonEmpty(elems[1..]);
      assert multiset(head) == multiset([elems[0]])["" := 0];
    }
  }

  /** Joining segments keeps the base, then appends exactly the non-empty
      elements: each one kept as often as it occurs, the empty ones dropped. */
  lemma JoinPathKeeps(base: seq<string>, elems: seq<string>)
    ensures JoinPath(base, elems)[..|base|] == base
    ensures forall e :: e in JoinPath(base, elems)[|base|..] <==> e in elems && e != ""
    ensures multiset(JoinPath(base, elems)[|base|..]) == multiset(elems)["" := 0]
  {
    assert JoinPath(base, elems)[|base|..] == NonEmpty(elems);
    NonEmptyCounts(elems);
    forall e ensures e in NonEmpty(elems) <==> e in elems && e != "" {
      assert e in NonEmpty(elems) <==> multiset(NonEmpty(elems))[e] > 0;
      assert e in elems <==> multiset(elems)[e] > 0;
    }
  }

  /** The elements stay in their order: joining one more element appends it
      when it is not empty and changes nothing when it is. */
  lemma JoinPathSnoc(base: seq<string>, elems: seq<string>, e: string)
    ensures JoinPath(base, elems + [e]) == JoinPath(base, elems) + (if e == "" then [] else [e])
  {
    NonEmptyAppend(elems, [e]);
    assert [e][1..] == [];
  }

  /** The three-element joins the client builds: an empty query ID drops out
      of the path. */
  lemma JoinThree(base: seq<string>, a: string, id: string, c: string)
    requires a != "" && c != ""
    ensures JoinPath(base, [a, id, c]) == if id == "" then base + [a, c] else base + [a, id, c]
  {
    assert [c][1..] == [];
    assert NonEmpty([c]) == [c];
    assert [id, c][1..] == [c];
    assert NonEmpty([id, c]) == (if id == "" then [] else [id]) + [c];
    assert [a, id, c][1..] == [id, c];
    assert NonEmpty([a, id, c]) == [a] + NonEmpty([id, c]);
  }

  /** Set leaves `key` with the one new value and every other parameter, the
      origin and the path as they were. */
  lemma SetParamEffect(u: Url, key: string, value: string)
    ensures var v := SetParam(u, key, value);
      && v.origin == u.origin && v.path == u.path
      && ValuesOf(v.query, key) == [value]
      && v.query.Keys == u.query.Keys + {key}
      && forall k :: k != key ==> ValuesOf(v.query, k) == ValuesOf(u.query, k)
  {
  }

  /** A second Set of the same key overrides the first. */
  lemma SetParamTwice(u: Url, key: string, first: string, second: string)
    ensures SetParam(SetParam(u, key, first), key, second) == SetParam(u, key, second)
  {
  }
}
