/** The byte-wise order of strings, sorting, and strictly ordered lists. */
module Ordering {

  /** Lexicographic order, strictly. */
  predicate Before(s: string, t: string) {
    t != "" && (s == "" || s[0] < t[0] || (s[0] == t[0] && Before(s[1..], t[1..])))
  }

  /** One string comes before another as a proper prefix of it, or by the first character in which they differ. */
  lemma {:induction false} BeforeMeans(s: string, t: string)
    ensures Before(s, t) <==> s < t || exists i :: DifferFirst(s, t, i) && s[i] < t[i]
  {
    if s != "" && t != "" {
      if s[0] == t[0] {
        BeforeMeans(s[1..], t[1..]);
        assert s == [s[0]] + s[1..] && t == [s[0]] + t[1..];
        if i :| DifferFirst(s, t, i) && s[i] < t[i] { assert DifferFirst(s[1..], t[1..], i - 1); }
        if i :| DifferFirst(s[1..], t[1..], i) && s[1..][i] < t[1..][i] { assert DifferFirst(s, t, i + 1); }
      } else {
        assert DifferFirst(s, t, 0);
        if i :| DifferFirst(s, t, i) && s[i] < t[i] { assert i == 0; }
      }
    }
  }

  ghost predicate DifferFirst(s: string, t: string, i: int) {
    0 <= i < |s| && i < |t| && s[i] != t[i] && forall j :: 0 <= j < i ==> s[j] == t[j]
  }

  lemma {:induction false} BeforeIsAsymmetric(s: string, t: string)
    requires Before(s, t)
    ensures !Before(t, s) && s != t
  {
    if s != "" && s[0] == t[0] {
      BeforeIsAsymmetric(s[1..], t[1..]);
    }
  }

  lemma {:induction false} BeforeIsTransitive(s: string, t: string, u: string)
    requires Before(s, t) && Before(t, u)
    ensures Before(s, u)
  {
    if s != "" && s[0] == t[0] && t[0] == u[0] {
      BeforeIsTransitive(s[1..], t[1..], u[1..]);
    }
  }

  lemma {:induction false} BeforeIsTotal(s: string, t: string)
    ensures s == t || Before(s, t) || Before(t, s)
  {
    if s != "" && t != "" && s[0] == t[0] {
      BeforeIsTotal(s[1..], t[1..]);
      if s[1..] == t[1..] {
        assert s == [s[0]] + s[1..];
        assert t == [t[0]] + t[1..];
      }
    }
  }

  // ---------------------------------------------------------------- sorting

  /** Stable insertion: behind everything that may precede `x`. */
  function Insert<T>(s: seq<T>, x: T, atMost: (T, T) -> bool): seq<T> {
    if s == [] || atMost(s[|s| - 1], x) then s + [x] else Insert(s[..|s| - 1], x, atMost) + [s[|s| - 1]]
  }

  /** A stable sort, as `sort_by` and ORDER BY do it. */
  function Sort<T>(s: seq<T>, atMost: (T, T) -> bool): seq<T> {
    if s == [] then [] else Insert(Sort(s[..|s| - 1], atMost), s[|s| - 1], atMost)
  }

  lemma {:induction false} InsertHolds<T>(s: seq<T>, x: T, atMost: (T, T) -> bool)
    ensures |Insert(s, x, atMost)| == |s| + 1
    ensures multiset(Insert(s, x, atMost)) == multiset(s) + multiset{x}
    ensures forall y :: y in Insert(s, x, atMost) <==> y in s || y == x
  {
    if s != [] && !atMost(s[|s| - 1], x) {
      InsertHolds(s[..|s| - 1], x, atMost);
      assert s == s[..|s| - 1] + [s[|s| - 1]];
    }
  }

  /** Sorting loses and repeats nothing. */
  lemma {:induction false} SortPermutes<T>(s: seq<T>, atMost: (T, T) -> bool)
    ensures |Sort(s, atMost)| == |s|
    ensures multiset(Sort(s, atMost)) == multiset(s)
    ensures forall y :: y in Sort(s, atMost) <==> y in s
  {
    if s != [] {
      SortPermutes(s[..|s| - 1], atMost);
      InsertHolds(Sort(s[..|s| - 1], atMost), s[|s| - 1], atMost);
      assert s == s[..|s| - 1] + [s[|s| - 1]];
    }
  }

  /** What is in order already stays as it is. */
  lemma {:induction false} SortKeepsSorted<T>(s: seq<T>, atMost: (T, T) -> bool)
    requires forall i, j :: 0 <= i < j < |s| ==> atMost(s[i], s[j])
    ensures Sort(s, atMost) == s
  {
    if s != [] {
      SortKeepsSorted(s[..|s| - 1], atMost);
      assert s == s[..|s| - 1] + [s[|s| - 1]];
    }
  }

  // ---------------------------------------------------------------- strictly increasing lists

  ghost predicate Increasing<T(!new)>(s: seq<T>, less: (T, T) -> bool) {
    forall i, j :: 0 <= i < j < |s| ==> less(s[i], s[j])
  }

  ghost predicate Transitive<T(!new)>(less: (T, T) -> bool) {
    forall x, y, z :: less(x, y) && less(y, z) ==> less(x, z)
  }

  ghost predicate Asymmetric<T(!new)>(less: (T, T) -> bool) {
    forall x, y :: less(x, y) ==> !less(y, x)
  }

  /** The sort order decides between `x` and the members of `s` as the strict order does. */
  ghost predicate Decides<T(!new)>(s: seq<T>, x: T, atMost: (T, T) -> bool, less: (T, T) -> bool) {
    forall y :: y in s ==> if atMost(y, x) then less(y, x) else less(x, y)
  }

  lemma ByTransitivity<T(!new)>(less: (T, T) -> bool, x: T, y: T, z: T)
    requires Transitive(less) && less(x, y) && less(y, z)
    ensures less(x, z)
  {
  }

  /** Appending what comes after the last member keeps a list increasing. */
  lemma AppendIncreases<T(!new)>(s: seq<T>, x: T, less: (T, T) -> bool)
    requires Increasing(s, less) && Transitive(less) && (s != [] ==> less(s[|s| - 1], x))
    ensures Increasing(s + [x], less)
  {
    hide Transitive;
    forall i | 0 <= i < |s| ensures less(s[i], x) {
      if i < |s| - 1 { ByTransitivity(less, s[i], s[|s| - 1], x); }
    }
  }

  lemma {:induction false} InsertIncreases<T(!new)>(s: seq<T>, x: T, atMost: (T, T) -> bool, less: (T, T) -> bool)
    requires Increasing(s, less) && Transitive(less) && Decides(s, x, atMost, less)
    ensures Increasing(Insert(s, x, atMost), less)
  {
    hide Transitive;
    if s == [] || atMost(s[|s| - 1], x) {
      AppendIncreases(s, x, less);
    } else {
      var before, last := s[..|s| - 1], s[|s| - 1];
      assert last in s && s == before + [last];
      InsertIncreases(before, x, atMost, less);
      InsertHolds(before, x, atMost);
      var inner := Insert(before, x, atMost);
      hide Insert;
      forall i | 0 <= i < |inner| ensures less(inner[i], last) {
        assert inner[i] in inner;
      }
      assert Increasing(inner + [last], less);
    }
  }

  /** Sorting members that the order tells apart gives a strictly increasing list. */
  lemma {:induction false} SortIncreases<T(!new)>(s: seq<T>, atMost: (T, T) -> bool, less: (T, T) -> bool)
    requires Transitive(less)
    requires forall i :: 0 <= i < |s| ==> Decides(s[..i], s[i], atMost, less)
    ensures Increasing(Sort(s, atMost), less)
  {
    if s != [] {
      var n := |s| - 1;
      forall i | 0 <= i < n ensures Decides(s[..n][..i], s[..n][i], atMost, less) {
        assert s[..n][..i] == s[..i];
        assert Decides(s[..i], s[i], atMost, less);
      }
      SortIncreases(s[..n], atMost, less);
      SortPermutes(s[..n], atMost);
      assert Decides(s[..n], s[n], atMost, less);
      InsertIncreases(Sort(s[..n], atMost), s[n], atMost, less);
    }
  }

  lemma FirstAgrees<T(!new)>(r: seq<T>, q: seq<T>, less: (T, T) -> bool)
    requires Increasing(r, less) && Increasing(q, less) && Asymmetric(less) && r != [] && q != []
    requires forall x :: x in r <==> x in q
    ensures r[0] == q[0]
  {
    assert r[0] in q && q[0] in r;
    var i :| 0 <= i < |q| && q[i] == r[0];
    var j :| 0 <= j < |r| && r[j] == q[0];
    assert i > 0 ==> less(q[0], q[i]);
    assert j > 0 ==> less(r[0], r[j]);
  }

  lemma TailDropsHead<T(!new)>(r: seq<T>, x: T, less: (T, T) -> bool)
    requires Increasing(r, less) && Asymmetric(less) && r != []
    ensures x in r[1..] <==> x in r && x != r[0]
  {
    if x in r[1..] {
      var i :| 0 <= i < |r| - 1 && r[1..][i] == x;
      assert less(r[0], r[i + 1]);
    }
  }

  /** Two increasing lists of the same members are the same list. */
  lemma {:induction false} IncreasingIsUnique<T(!new)>(r: seq<T>, q: seq<T>, less: (T, T) -> bool)
    requires Increasing(r, less) && Increasing(q, less) && Asymmetric(less)
    requires forall x :: x in r <==> x in q
    ensures r == q
  {
    assert q != [] ==> q[0] in r;
    if r != [] {
      assert r[0] in r;
      FirstAgrees(r, q, less);
      forall x ensures x in r[1..] <==> x in q[1..] {
        TailDropsHead(r, x, less);
        TailDropsHead(q, x, less);
      }
      IncreasingIsUnique(r[1..], q[1..], less);
      assert r == [r[0]] + r[1..] && q == [q[0]] + q[1..];
    }
  }

  lemma {:induction false} IncreasingSize<T(!new)>(r: seq<T>, less: (T, T) -> bool)
    requires Increasing(r, less) && Asymmetric(less)
    ensures |set x | x in r| == |r|
  {
    if r != [] {
      var n := |r| - 1;
      IncreasingSize(r[..n], less);
      forall i | 0 <= i < n ensures r[i] != r[n] {
        assert less(r[i], r[n]);
      }
      assert (set x | x in r) == (set x | x in r[..n]) + {r[n]};
    }
  }

  /** An increasing list whose members all occur in another of the same length has all of its members. */
  lemma IncreasingCovers<T(!new)>(r: seq<T>, q: seq<T>, less: (T, T) -> bool)
    requires Increasing(r, less) && Increasing(q, less) && Asymmetric(less)
    requires |r| == |q| && forall x :: x in r ==> x in q
    ensures forall x :: x in q ==> x in r
  {
    var a, b := set x | x in r, set x | x in q;
    IncreasingSize(r, less);
    IncreasingSize(q, less);
    assert a <= b && b == a + (b - a);
    forall x | x in q ensures x in r {
      assert x in b && |b - a| == 0;
      assert b - a == {};
    }
  }
}
