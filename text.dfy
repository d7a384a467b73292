/** Go's strings.Index, strings.Split and strings.Join for a non-empty
    separator, as the coordinate table decoder uses them. */
module Text {

  /** `sep` occurs in `s` starting at position `j`. */
  predicate OccursAt(s: string, sep: string, j: int)
  {
    0 <= j && j + |sep| <= |s| && s[j..j + |sep|] == sep
  }

  /** strings.Index: the first position at or after `from` where `sep` occurs, or -1. */
  function IndexFrom(s: string, sep: string, from: nat): (r: int)
    requires |sep| > 0 && from <= |s|
    ensures r == -1 || (from <= r && OccursAt(s, sep, r))
    ensures forall j :: from <= j && (r == -1 || j < r) ==> !OccursAt(s, sep, j)
    decreases |s| - from
  {
    if from + |sep| > |s| then -1
    else if s[from..from + |sep|] == sep then from
    else IndexFrom(s, sep, from + 1)
  }

  function Index(s: string, sep: string): (r: int)
    requires |sep| > 0
    ensures r == -1 || OccursAt(s, sep, r)
    ensures forall j :: 0 <= j && (r == -1 || j < r) ==> !OccursAt(s, sep, j)
  {
    IndexFrom(s, sep, 0)
  }

  /** Index is determined by the first occurrence. */
  lemma IndexIsFirst(s: string, sep: string, r: nat)
    requires |sep| > 0 && OccursAt(s, sep, r)
    requires forall j :: 0 <= j < r ==> !OccursAt(s, sep, j)
    ensures Index(s, sep) == r
  {
  }

  /** strings.Split: the pieces of `s` between the non-overlapping occurrences
      of `sep`, scanned left to right; a string without `sep` is one piece. */
  function Split(s: string, sep: string): (parts: seq<string>)
    requires |sep| > 0
    ensures |parts| >= 1
    decreases |s|
  {
    var i := Index(s, sep);
    if i < 0 then [s] else [s[..i]] + Split(s[i + |sep|..], sep)
  }

  /** strings.Join. */
  function Join(parts: seq<string>, sep: string): string
  {
    if |parts| == 0 then ""
    else if |parts| == 1 then parts[0]
    else parts[0] + sep + Join(parts[1..], sep)
  }

  /** Joining the pieces of a split gives back the original string. */
  lemma {:induction false} JoinSplit(s: string, sep: string)
    requires |sep| > 0
    ensures Join(Split(s, sep), sep) == s
    decreases |s|
  {
    var i := Index(s, sep);
    if i >= 0 {
      var head, rest := s[..i], s[i + |sep|..];
      var tail := Split(rest, sep);
      JoinSplit(rest, sep);
      assert Split(s, sep) == [head] + tail;
      assert ([head] + tail)[1..] == tail;
      assert Join([head] + tail, sep) == head + sep + Join(tail, sep);
      assert s == head + sep + rest;
    }
  }

  /** No piece of a split contains the separator. */
  lemma {:induction false} SplitPiecesFree(s: string, sep: string)
    requires |sep| > 0
    ensures forall k :: 0 <= k < |Split(s, sep)| ==> Index(Split(s, sep)[k], sep) == -1
    decreases |s|
  {
    var i := Index(s, sep);
    if i >= 0 {
      var rest := s[i + |sep|..];
      SplitPiecesFree(rest, sep);
      var head := s[..i];
      forall j | 0 <= j ensures !OccursAt(head, sep, j) {
        if j + |sep| <= |head| {
          assert head[j..j + |sep|] == s[j..j + |sep|];
          assert !OccursAt(s, sep, j);
        }
      }
    }
  }

  /** A piece can be joined in front of a separator without the separator
      being found earlier than where it was put. */
  predicate Separable(p: string, sep: string)
    requires |sep| > 0
  {
    Index(p + sep, sep) == |p|
  }

  /** A piece that does not contain the separator's first character is separable. */
  lemma SeparableWithoutLead(p: string, sep: string)
    requires |sep| > 0 && sep[0] !in p
    ensures Separable(p, sep)
  {
    var s := p + sep;
    assert s[|p|..|p| + |sep|] == sep;
    forall j | 0 <= j < |p| ensures !OccursAt(s, sep, j) {
      assert s[j] == p[j];
      assert j + |sep| <= |s| ==> s[j..j + |sep|][0] == s[j];
    }
    IndexIsFirst(s, sep, |p|);
  }

  /** An occurrence found in a prefix is also the first occurrence in any extension. */
  lemma IndexOfExtension(s: string, t: string, sep: string)
    requires |sep| > 0 && Index(s, sep) >= 0
    ensures Index(s + t, sep) == Index(s, sep)
  {
    var i := Index(s, sep);
    var st := s + t;
    assert st[i..i + |sep|] == s[i..i + |sep|];
    forall j | 0 <= j < i ensures !OccursAt(st, sep, j) {
      assert st[j..j + |sep|] == s[j..j + |sep|];
      assert !OccursAt(s, sep, j);
    }
    IndexIsFirst(st, sep, i);
  }

  /** Splitting a join of separable pieces gives back the pieces. */
  lemma {:induction false} SplitJoin(parts: seq<string>, sep: string)
    requires |sep| > 0 && |parts| >= 1
    requires forall k :: 0 <= k < |parts| ==> Separable(parts[k], sep)
    ensures Split(Join(parts, sep), sep) == parts
    decreases |parts|
  {
    var p := parts[0];
    if |parts| == 1 {
      assert Index(p, sep) == -1 by {
        assert Separable(p, sep);
        forall j | 0 <= j ensures !OccursAt(p, sep, j) {
          if j + |sep| <= |p| {
            assert (p + sep)[j..j + |sep|] == p[j..j + |sep|];
            assert !OccursAt(p + sep, sep, j);
          }
        }
      }
    } else {
      var rest := Join(parts[1..], sep);
      var s := p + sep + rest;
      assert Separable(p, sep);
      IndexOfExtension(p + sep, rest, sep);
      assert Index(s, sep) == |p|;
      assert s[|p| + |sep|..] == rest;
      assert s[..|p|] == p;
      SplitJoin(parts[1..], sep);
      assert Split(s, sep) == [p] + Split(rest, sep);
    }
  }
}
