/** Strings: trimming, splitting and joining, as the Python and JavaScript code uses them. */
module Text {
  // Whitespace as Python's str.strip() sees it.
  predicate IsPySpace(c: char) {
    || '\t' <= c <= '\r' || '\U{1c}' <= c <= ' ' || c == '\U{85}' || c == '\U{a0}' || c == '\U{1680}'
    || '\U{2000}' <= c <= '\U{200a}' || c == '\U{2028}' || c == '\U{2029}' || c == '\U{202f}'
    || c == '\U{205f}' || c == '\U{3000}'
  }

  // Whitespace as JavaScript's String.prototype.trim() sees it.
  predicate IsJsSpace(c: char) {
    || '\t' <= c <= '\r' || c == ' ' || c == '\U{a0}' || c == '\U{1680}'
    || '\U{2000}' <= c <= '\U{200a}' || c == '\U{2028}' || c == '\U{2029}' || c == '\U{202f}'
    || c == '\U{205f}' || c == '\U{3000}' || c == '\U{feff}'
  }

  predicate IsTrimmed(space: char -> bool, s: string) {
    s == "" || (!space(s[0]) && !space(s[|s| - 1]))
  }

  function TrimLeft(space: char -> bool, s: string): (r: string)
    ensures r == "" || !space(r[0])
    ensures s != "" && !space(s[0]) ==> r == s
    ensures forall c | c in r :: c in s
    ensures s != "" && !space(s[|s| - 1]) ==> r != "" && r[|r| - 1] == s[|s| - 1]
  {
    if s != "" && space(s[0]) then TrimLeft(space, s[1..]) else s
  }

  function TrimRight(space: char -> bool, s: string): (r: string)
    ensures r <= s
    ensures r == "" || !space(r[|r| - 1])
    ensures s != "" && !space(s[|s| - 1]) ==> r == s
  {
    if s != "" && space(s[|s| - 1]) then TrimRight(space, s[..|s| - 1]) else s
  }

  // Removing whitespace at both ends: the result is trimmed, and trimmed text is untouched.
  function Trim(space: char -> bool, s: string): (r: string)
    ensures IsTrimmed(space, r)
    ensures IsTrimmed(space, s) ==> r == s
    ensures forall c | c in r :: c in s
  {
    TrimRight(space, TrimLeft(space, s))
  }

  // Trimming cuts off whitespace, all of it and nothing else, at both ends.
  lemma TrimIsTheMiddle(space: char -> bool, s: string) returns (i: nat, j: nat)
    ensures i <= j <= |s| && Trim(space, s) == s[i..j]
    ensures forall k | 0 <= k < |s| && !(i <= k < j) :: space(s[k])
    ensures i < j ==> !space(s[i]) && !space(s[j - 1])
  {
    i := LeftCut(space, s);
    var r := s[i..];
    var n := RightCut(space, r);
    j := i + n;
    assert r[..n] == s[i..j];
    assert forall k | 0 <= k < |r| :: r[k] == s[i + k];
    forall k | 0 <= k < |s| && !(i <= k < j) ensures space(s[k]) {
      if k >= j {
        assert s[k] == r[k - i];
      }
    }
  }

  lemma {:induction false} LeftCut(space: char -> bool, s: string) returns (i: nat)
    ensures i <= |s| && TrimLeft(space, s) == s[i..] && forall k | 0 <= k < i :: space(s[k])
  {
    if s != "" && space(s[0]) {
      var rest := LeftCut(space, s[1..]);
      i := rest + 1;
      forall k | 0 <= k < i ensures space(s[k]) {
        assert k == 0 || s[k] == s[1..][k - 1];
      }
    } else {
      i := 0;
    }
  }

  lemma {:induction false} RightCut(space: char -> bool, s: string) returns (j: nat)
    ensures j <= |s| && TrimRight(space, s) == s[..j] && forall k | j <= k < |s| :: space(s[k])
  {
    if s != "" && space(s[|s| - 1]) {
      var front := s[..|s| - 1];
      j := RightCut(space, front);
      assert front[..j] == s[..j];
      forall k | j <= k < |s| ensures space(s[k]) {
        assert k == |s| - 1 || s[k] == front[k];
      }
    } else {
      j := |s|;
    }
  }

  predicate IsClean(s: string) {
    IsTrimmed(IsPySpace, s)
  }

  // `str(value).strip()`
  function Clean(s: string): (r: string)
    ensures IsClean(r)
    ensures IsClean(s) ==> r == s
  {
    Trim(IsPySpace, s)
  }

  // `a or b` on strings.
  function Or(a: string, b: string): string {
    if a != "" then a else b
  }
}

/** Python dictionaries as lists of items, in insertion order. */
module PyDict {
  import opened Prelude

  type Items<V> = seq<(string, V)>

  function Find<V>(d: Items<V>, k: string): Option<V> {
    if d == [] then None else if d[0].0 == k then Some(d[0].1) else Find(d[1..], k)
  }

  // `d[k] = v`: a known key keeps its place, a new one goes last.
  function Put<V>(d: Items<V>, k: string, v: V): Items<V> {
    if d == [] then [(k, v)]
    else if d[0].0 == k then [(k, v)] + d[1..]
    else [d[0]] + Put(d[1..], k, v)
  }

  function ToMap<V>(d: Items<V>): map<string, V> {
    if d == [] then map[] else ToMap(d[1..])[d[0].0 := d[0].1]
  }

  // No key occurs twice.
  ghost predicate Distinct<V>(d: Items<V>) {
    d != [] ==> d[0].0 !in ToMap(d[1..]) && Distinct(d[1..])
  }

  lemma {:induction false} PutUpdates<V>(d: Items<V>, k: string, v: V)
    ensures ToMap(Put(d, k, v)) == ToMap(d)[k := v]
  {
    if d != [] {
      PutUpdates(d[1..], k, v);
      if d[0].0 == k {
        assert ([(k, v)] + d[1..])[1..] == d[1..];
      } else {
        assert ([d[0]] + Put(d[1..], k, v))[1..] == Put(d[1..], k, v);
      }
    }
  }

  lemma {:induction false} FindLooksUp<V>(d: Items<V>, k: string)
    ensures Find(d, k) == Lookup(ToMap(d), k)
  {
    if d != [] {
      FindLooksUp(d[1..], k);
    }
  }

  // Putting changes one entry and disturbs no other.
  lemma FindAfterPut<V>(d: Items<V>, k: string, v: V, k': string)
    ensures Find(Put(d, k, v), k') == if k' == k then Some(v) else Find(d, k')
  {
    PutUpdates(d, k, v);
    FindLooksUp(d, k');
    FindLooksUp(Put(d, k, v), k');
  }

  lemma {:induction false} PutKeepsDistinct<V>(d: Items<V>, k: string, v: V)
    requires Distinct(d)
    ensures Distinct(Put(d, k, v))
  {
    if d != [] {
      if d[0].0 == k {
        assert ([(k, v)] + d[1..])[1..] == d[1..];
      } else {
        PutKeepsDistinct(d[1..], k, v);
        PutUpdates(d[1..], k, v);
        assert ([d[0]] + Put(d[1..], k, v))[1..] == Put(d[1..], k, v);
      }
    }
  }
}

/** Splitting text at separators and joining it again. */
module Splitting {
  // Always one part more than there are separators.
  function Split(sep: char -> bool, s: string): (parts: seq<string>)
    ensures parts != []
  {
    if s == "" then [""]
    else
      var rest := Split(sep, s[1..]);
      if sep(s[0]) then [""] + rest else [[s[0]] + rest[0]] + rest[1..]
  }

  function Join(glue: char, parts: seq<string>): string {
    if parts == [] then ""
    else if |parts| == 1 then parts[0]
    else parts[0] + [glue] + Join(glue, parts[1..])
  }

  predicate FreeOf(sep: char -> bool, s: string) {
    forall c | c in s :: !sep(c)
  }

  lemma {:induction false} SplitParts(sep: char -> bool, s: string, part: string)
    requires part in Split(sep, s)
    ensures FreeOf(sep, part) && forall c | c in part :: c in s
  {
    if s != "" {
      var rest := Split(sep, s[1..]);
      if part in rest {
        SplitParts(sep, s[1..], part);
      } else if part != "" {
        SplitParts(sep, s[1..], rest[0]);
      }
    }
  }

  lemma {:induction false} SplitAtFirst(sep: char -> bool, a: string, c: char, rest: string)
    requires FreeOf(sep, a) && sep(c)
    ensures Split(sep, a + [c] + rest) == [a] + Split(sep, rest)
  {
    var s := a + [c] + rest;
    if a == "" {
      assert s[1..] == rest;
    } else {
      assert s[1..] == a[1..] + [c] + rest;
      SplitAtFirst(sep, a[1..], c, rest);
      assert [a[0]] + a[1..] == a;
    }
  }

  lemma {:induction false} SplitOfFree(sep: char -> bool, a: string)
    requires FreeOf(sep, a)
    ensures Split(sep, a) == [a]
  {
    if a != "" {
      SplitOfFree(sep, a[1..]);
      assert [a[0]] + a[1..] == a;
    }
  }

  // Splitting undoes joining, for parts without separators.
  lemma {:induction false} SplitJoin(sep: char -> bool, glue: char, parts: seq<string>)
    requires sep(glue) && parts != [] && forall part | part in parts :: FreeOf(sep, part)
    ensures Split(sep, Join(glue, parts)) == parts
  {
    SplitOfFree(sep, parts[0]);
    if |parts| > 1 {
      SplitJoin(sep, glue, parts[1..]);
      SplitAtFirst(sep, parts[0], glue, Join(glue, parts[1..]));
    }
  }
}
