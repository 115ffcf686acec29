/** The page order the editor and the reader display:
    `[...pages].sort((a, b) => a.page_number - b.page_number)`. The sort is
    stable, so pages with equal numbers keep their stored order. */
module PageOrder {
  import opened Records

  predicate SortedByNumber(ps: seq<Page>)
  {
    forall i, j :: 0 <= i < j < |ps| ==> ps[i].pageNumber <= ps[j].pageNumber
  }

  /** The pages carrying page number `n`, in their order in `ps`. */
  function WithNumber(ps: seq<Page>, n: int): (r: seq<Page>)
    ensures |r| <= |ps|
  {
    if ps == [] then []
    else (if ps[0].pageNumber == n then [ps[0]] else []) + WithNumber(ps[1..], n)
  }

  /** A page no higher than the first of a sorted list can go in front. */
  lemma ConsSorted(x: Page, t: seq<Page>)
    requires SortedByNumber(t)
    requires |t| > 0 ==> x.pageNumber <= t[0].pageNumber
    ensures SortedByNumber([x] + t)
  {
    var r := [x] + t;
    forall i, j | 0 <= i < j < |r|
      ensures r[i].pageNumber <= r[j].pageNumber
    {
      if i == 0 && j > 1 {
        assert r[j] == t[j - 1];
      }
    }
  }

  /** `p` placed into sorted `s` before the first page numbered at least as
      high: ahead of its equals, which came later in the input. */
  function Insert(p: Page, s: seq<Page>): (r: seq<Page>)
    requires SortedByNumber(s)
    ensures |r| == |s| + 1
    ensures r[0] == p || (|s| > 0 && r[0] == s[0])
    ensures multiset(r) == multiset(s) + multiset{p}
    ensures SortedByNumber(r)
  {
    if s == [] || p.pageNumber <= s[0].pageNumber then
      ConsSorted(p, s);
      [p] + s
    else
      var t := Insert(p, s[1..]);
      assert s == [s[0]] + s[1..];
      ConsSorted(s[0], t);
      [s[0]] + t
  }

  /** The displayed order: sorted, a permutation of the input. */
  function SortByNumber(ps: seq<Page>): (r: seq<Page>)
    ensures |r| == |ps|
    ensures multiset(r) == multiset(ps)
    ensures SortedByNumber(r)
  {
    if ps == [] then []
    else
      assert ps == [ps[0]] + ps[1..];
      Insert(ps[0], SortByNumber(ps[1..]))
  }

  lemma {:induction false} WithNumberConcat(a: seq<Page>, b: seq<Page>, n: int)
    ensures WithNumber(a + b, n) == WithNumber(a, n) + WithNumber(b, n)
    decreases |a|
  {
    if a == [] {
      assert a + b == b;
    } else {
      var c := a + b;
      assert c[0] == a[0];
      assert c[1..] == a[1..] + b;
      WithNumberConcat(a[1..], b, n);
      var h := if a[0].pageNumber == n then [a[0]] else [];
      assert WithNumber(c, n) == h + (WithNumber(a[1..], n) + WithNumber(b, n));
      assert WithNumber(a, n) == h + WithNumber(a[1..], n);
    }
  }

  lemma {:induction false} InsertKeepsEquals(p: Page, s: seq<Page>, n: int)
    requires SortedByNumber(s)
    ensures WithNumber(Insert(p, s), n) == WithNumber([p], n) + WithNumber(s, n)
    decreases |s|
  {
    if s == [] || p.pageNumber <= s[0].pageNumber {
      WithNumberConcat([p], s, n);
    } else {
      var t := Insert(p, s[1..]);
      InsertKeepsEquals(p, s[1..], n);
      WithNumberConcat([s[0]], t, n);
      WithNumberConcat([s[0]], s[1..], n);
      assert s == [s[0]] + s[1..];
      if p.pageNumber == n {
        assert s[0].pageNumber != n;
      }
    }
  }

  /** Stability: for every page number, the pages carrying it appear in the
      displayed order exactly as they appear in the input. */
  lemma {:induction false} SortIsStable(ps: seq<Page>, n: int)
    ensures WithNumber(SortByNumber(ps), n) == WithNumber(ps, n)
    decreases |ps|
  {
    if ps != [] {
      SortIsStable(ps[1..], n);
      InsertKeepsEquals(ps[0], SortByNumber(ps[1..]), n);
      WithNumberConcat([ps[0]], ps[1..], n);
      assert ps == [ps[0]] + ps[1..];
    }
  }

  /** Pages already in order are shown as stored. */
  lemma {:induction false} SortedInputUnchanged(ps: seq<Page>)
    requires SortedByNumber(ps)
    ensures SortByNumber(ps) == ps
    decreases |ps|
  {
    if ps != [] {
      SortedInputUnchanged(ps[1..]);
    }
  }
}
