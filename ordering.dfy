/**
 * Ordinal order on strings (by character code, a proper prefix first) and an
 * insertion sort under it: the total order the generator's import list is
 * sorted by.
 */
module Ordering {
  /** `a` comes strictly before `b`. */
  predicate Less(a: string, b: string)
    decreases |a|
  {
    if |a| == 0 then |b| > 0
    else if |b| == 0 then false
    else a[0] < b[0] || (a[0] == b[0] && Less(a[1..], b[1..]))
  }

  predicate LessEq(a: string, b: string) {
    a == b || Less(a, b)
  }

  lemma {:induction false} LessIrreflexive(a: string)
    ensures !Less(a, a)
    decreases |a|
  {
    if |a| > 0 {
      LessIrreflexive(a[1..]);
    }
  }

  lemma {:induction false} LessTransitive(a: string, b: string, c: string)
    requires Less(a, b) && Less(b, c)
    ensures Less(a, c)
    decreases |a|
  {
    if |a| > 0 && a[0] == b[0] && b[0] == c[0] {
      LessTransitive(a[1..], b[1..], c[1..]);
    }
  }

  /** Any two different strings are ordered one way or the other. */
  lemma {:induction false} LessTotal(a: string, b: string)
    requires a != b
    ensures Less(a, b) || Less(b, a)
    decreases |a|
  {
    if |a| > 0 && |b| > 0 && a[0] == b[0] {
      assert a == [a[0]] + a[1..] && b == [b[0]] + b[1..];
      LessTotal(a[1..], b[1..]);
    }
  }

  lemma LessAsymmetric(a: string, b: string)
    requires Less(a, b)
    ensures !Less(b, a)
  {
    if Less(b, a) {
      LessTransitive(a, b, a);
      LessIrreflexive(a);
    }
  }

  predicate Ascending(s: seq<string>) {
    forall i, j :: 0 <= i < j < |s| ==> LessEq(s[i], s[j])
  }

  predicate StrictlyAscending(s: seq<string>) {
    forall i, j :: 0 <= i < j < |s| ==> Less(s[i], s[j])
  }

  predicate Distinct(s: seq<string>) {
    forall i, j :: 0 <= i < j < |s| ==> s[i] != s[j]
  }

  /** Inserts `x` before the first element it does not follow. */
  function Insert(x: string, s: seq<string>): (r: seq<string>)
    requires Ascending(s)
    ensures multiset(r) == multiset(s) + multiset{x}
    ensures Ascending(r)
    decreases |s|
  {
    if |s| == 0 then [x]
    else if LessEq(x, s[0]) then
      assert forall j :: 0 < j < |s| ==> LessEq(s[0], s[j]);
      InsertFrontAscending(x, s);
      [x] + s
    else
      LessTotal(x, s[0]);
      var rest := Insert(x, s[1..]);
      assert s == [s[0]] + s[1..];
      InsertBehindAscending(s[0], x, s[1..], rest);
      [s[0]] + rest
  }

  lemma InsertFrontAscending(x: string, s: seq<string>)
    requires Ascending(s) && |s| > 0 && LessEq(x, s[0])
    ensures Ascending([x] + s)
  {
    var r := [x] + s;
    forall i, j | 0 <= i < j < |r| ensures LessEq(r[i], r[j]) {
      if i == 0 && j > 1 {
        assert LessEq(s[0], s[j - 1]);
        if x != s[0] && s[0] != s[j - 1] {
          LessTransitive(x, s[0], s[j - 1]);
        }
      }
    }
  }

  lemma InsertBehindAscending(h: string, x: string, t: seq<string>, rest: seq<string>)
    requires Ascending([h] + t) && Ascending(rest) && Less(h, x)
    requires multiset(rest) == multiset(t) + multiset{x}
    ensures Ascending([h] + rest)
  {
    var r := [h] + rest;
    forall i, j | 0 <= i < j < |r| ensures LessEq(r[i], r[j]) {
      if i == 0 {
        var y := rest[j - 1];
        assert r[0] == h && r[j] == y;
        assert y in multiset(rest);
        if y != x {
          assert y in multiset(t);
          var k :| 0 <= k < |t| && t[k] == y;
          assert ([h] + t)[0] == h && ([h] + t)[k + 1] == y;
        }
      } else {
        assert r[i] == rest[i - 1] && r[j] == rest[j - 1];
      }
    }
  }

  /** Insertion sort: an ascending permutation of its input. */
  function Sort(s: seq<string>): (r: seq<string>)
    ensures multiset(r) == multiset(s)
    ensures Ascending(r)
    decreases |s|
  {
    if |s| == 0 then []
    else
      assert s == [s[0]] + s[1..];
      Insert(s[0], Sort(s[1..]))
  }

  /** An ascending sequence without repeats is strictly ascending. */
  lemma AscendingDistinctIsStrict(s: seq<string>)
    requires Ascending(s) && Distinct(s)
    ensures StrictlyAscending(s)
  {
  }

  /** Sorting keeps the elements, so a sequence without repeats sorts to one without repeats. */
  lemma SortDistinct(s: seq<string>)
    requires Distinct(s)
    ensures Distinct(Sort(s)) && StrictlyAscending(Sort(s)) && (forall x :: x in Sort(s) <==> x in s)
  {
    var r := Sort(s);
    forall x ensures x in r <==> x in s {
      assert x in r <==> x in multiset(r);
      assert x in s <==> x in multiset(s);
    }
    forall i, j | 0 <= i < j < |r| ensures r[i] != r[j] {
      DistinctCountsOne(s, r[i]);
      if r[i] == r[j] {
        RepeatCountsTwo(r, i, j);
        assert false;
      }
    }
    AscendingDistinctIsStrict(r);
  }

  lemma RepeatCountsTwo(r: seq<string>, i: int, j: int)
    requires 0 <= i < j < |r| && r[i] == r[j]
    ensures multiset(r)[r[i]] >= 2
  {
    var a := r[..i];
    var b := r[i + 1..j];
    var c := r[j + 1..];
    assert r == a + [r[i]] + b + [r[j]] + c;
    assert multiset(r) == multiset(a) + multiset{r[i]} + multiset(b) + multiset{r[j]} + multiset(c);
  }

  lemma {:induction false} DistinctCountsOne(s: seq<string>, x: string)
    requires Distinct(s)
    ensures multiset(s)[x] <= 1
    decreases |s|
  {
    if |s| > 0 {
      assert s == [s[0]] + s[1..];
      DistinctCountsOne(s[1..], x);
      if s[0] == x {
        assert x !in s[1..];
      }
    }
  }
}
