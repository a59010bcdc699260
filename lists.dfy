/**
 * The array operations the handlers chain together: `filter`, a stable
 * `sort` by an integer key, `slice` and the page arithmetic around it.
 */
module Lists {

  function Min(a: int, b: int): int {
    if a <= b then a else b
  }

  /**
   * `xs.filter(p)`: the elements satisfying `p`, in their original order.
   * How often each is kept is stated by `FilterMultiplicity`, and the order
   * by `FilterAppend`.
   */
  function Filter<T(!new)>(xs: seq<T>, p: T -> bool): (r: seq<T>)
    ensures |r| <= |xs|
    ensures forall x :: x in r <==> x in xs && p(x)
  {
    if xs == [] then []
    else (if p(xs[0]) then [xs[0]] else []) + Filter(xs[1..], p)
  }

  /** The filter keeps each element satisfying `p` as often as the input holds it, and no other. */
  lemma {:induction false} FilterMultiplicity<T(!new)>(xs: seq<T>, p: T -> bool)
    ensures forall x :: multiset(Filter(xs, p))[x] == if p(x) then multiset(xs)[x] else 0
  {
    if xs != [] {
      FilterMultiplicity(xs[1..], p);
      assert xs == [xs[0]] + xs[1..];
    }
  }

  /** Filtering a concatenation filters each part: the kept elements stay in their order. */
  lemma {:induction false} FilterAppend<T(!new)>(xs: seq<T>, ys: seq<T>, p: T -> bool)
    ensures Filter(xs + ys, p) == Filter(xs, p) + Filter(ys, p)
  {
    if xs == [] {
      assert xs + ys == ys;
    } else {
      assert (xs + ys)[1..] == xs[1..] + ys;
      FilterAppend(xs[1..], ys, p);
    }
  }

  /** Filtering by `p` and then by `q` is filtering once by a predicate that holds where both do. */
  lemma {:induction false} FilterFilter<T(!new)>(xs: seq<T>, p: T -> bool, q: T -> bool, pq: T -> bool)
    requires forall x :: x in xs ==> pq(x) == (p(x) && q(x))
    ensures Filter(Filter(xs, p), q) == Filter(xs, pq)
  {
    if xs != [] {
      var head := if p(xs[0]) then [xs[0]] else [];
      FilterAppend(head, Filter(xs[1..], p), q);
      FilterFilter(xs[1..], p, q, pq);
    }
  }

  /** A filter that every element passes keeps the list as it is. */
  lemma {:induction false} FilterKeepsAll<T(!new)>(xs: seq<T>, p: T -> bool)
    requires forall x :: x in xs ==> p(x)
    ensures Filter(xs, p) == xs
  {
    if xs != [] {
      FilterKeepsAll(xs[1..], p);
    }
  }

  /** The number of elements satisfying `p`, counted one by one. */
  function Count<T>(xs: seq<T>, p: T -> bool): nat {
    if xs == [] then 0 else (if p(xs[0]) then 1 else 0) + Count(xs[1..], p)
  }

  /** `xs.filter(p).length` is the count of the elements satisfying `p`. */
  lemma {:induction false} FilterLengthIsCount<T(!new)>(xs: seq<T>, p: T -> bool)
    ensures |Filter(xs, p)| == Count(xs, p)
  {
    if xs != [] {
      FilterLengthIsCount(xs[1..], p);
    }
  }

  /** Two filters whose predicates never hold together keep, between them, at most all of the list. */
  lemma {:induction false} DisjointFiltersBound<T(!new)>(xs: seq<T>, p: T -> bool, q: T -> bool)
    requires forall x :: !(p(x) && q(x))
    ensures |Filter(xs, p)| + |Filter(xs, q)| <= |xs|
  {
    if xs != [] {
      DisjointFiltersBound(xs[1..], p, q);
    }
  }

  /** Two orderings of the same elements keep, under one filter, the same elements and as many. */
  lemma FilterPermutation<T(!new)>(xs: seq<T>, ys: seq<T>, p: T -> bool)
    requires multiset(xs) == multiset(ys)
    ensures multiset(Filter(xs, p)) == multiset(Filter(ys, p))
    ensures Count(xs, p) == Count(ys, p)
  {
    FilterMultiplicity(xs, p);
    FilterMultiplicity(ys, p);
    assert forall x :: multiset(Filter(xs, p))[x] == multiset(Filter(ys, p))[x];
    FilterLengthIsCount(xs, p);
    FilterLengthIsCount(ys, p);
    assert |Filter(xs, p)| == |multiset(Filter(xs, p))|;
  }

  /** Two orderings of the same elements hold the same elements. */
  lemma SameElements<T>(xs: seq<T>, ys: seq<T>)
    requires multiset(xs) == multiset(ys)
    ensures forall x :: x in xs <==> x in ys
  {
    forall x
      ensures x in xs <==> x in ys
    {
      assert x in xs <==> x in multiset(xs);
      assert x in ys <==> x in multiset(ys);
    }
  }

  /** A prefix holds no element more often than the list. */
  lemma PrefixSubMultiset<T>(s: seq<T>, k: nat)
    requires k <= |s|
    ensures multiset(s[..k]) <= multiset(s)
  {
    assert s == s[..k] + s[k..];
  }

  ghost predicate SortedBy<T>(s: seq<T>, key: T -> int) {
    forall i, j :: 0 <= i < j < |s| ==> key(s[i]) <= key(s[j])
  }

  /** Places `x` before the first element whose key is not smaller, so `x` precedes its ties. */
  function Insert<T>(x: T, s: seq<T>, key: T -> int): (r: seq<T>)
    requires SortedBy(s, key)
    ensures SortedBy(r, key)
    ensures multiset(r) == multiset(s) + multiset{x}
  {
    if s == [] || key(x) <= key(s[0]) then
      ConsSorted(x, s, key);
      [x] + s
    else
      var rest := Insert(x, s[1..], key);
      assert s == [s[0]] + s[1..];
      HeadBelowRest(s[0], x, s[1..], rest, key);
      ConsSorted(s[0], rest, key);
      [s[0]] + rest
  }

  /** An element whose key is no larger than the first of a sorted list can be put in front of it. */
  lemma ConsSorted<T>(h: T, s: seq<T>, key: T -> int)
    requires SortedBy(s, key)
    requires forall y :: y in s ==> key(h) <= key(y)
    ensures SortedBy([h] + s, key)
  {
    forall i, j | 0 <= i < j < |[h] + s|
      ensures key(([h] + s)[i]) <= key(([h] + s)[j])
    {
      if i > 0 {
        assert ([h] + s)[i] == s[i - 1];
      }
      assert ([h] + s)[j] == s[j - 1];
    }
  }

  /** A key no larger than `x`'s and than every key of `s` is no larger than any key among `s` and `x`. */
  lemma HeadBelowRest<T>(h: T, x: T, s: seq<T>, rest: seq<T>, key: T -> int)
    requires key(h) <= key(x)
    requires forall i :: 0 <= i < |s| ==> key(h) <= key(s[i])
    requires multiset(rest) == multiset(s) + multiset{x}
    ensures forall y :: y in rest ==> key(h) <= key(y)
  {
    forall y | y in rest
      ensures key(h) <= key(y)
    {
      assert y in multiset(rest);
      if y != x {
        assert y in multiset(s);
        var j :| 0 <= j < |s| && s[j] == y;
      }
    }
  }

  /**
   * `s.sort((a, b) => key(a) - key(b))`: ascending by key. The head of a list is
   * inserted before its ties in the sorted tail, so equal keys keep their order.
   */
  function SortBy<T>(s: seq<T>, key: T -> int): (r: seq<T>)
    ensures SortedBy(r, key)
    ensures multiset(r) == multiset(s)
  {
    if s == [] then []
    else
      assert s == [s[0]] + s[1..];
      Insert(s[0], SortBy(s[1..], key), key)
  }

  /** `s.slice(0, n)`. */
  function Take<T>(s: seq<T>, n: nat): (r: seq<T>)
    ensures |r| == Min(n, |s|)
    ensures forall k :: 0 <= k < |r| ==> r[k] == s[k]
  {
    s[..Min(n, |s|)]
  }

  /** What is not among the first `n` of a sorted list has a key no smaller than any of them. */
  lemma PrefixHoldsSmallestKeys<T>(s: seq<T>, key: T -> int, n: nat, b: T)
    requires SortedBy(s, key)
    requires b in s && b !in Take(s, n)
    ensures forall y :: y in Take(s, n) ==> key(y) <= key(b)
  {
    var j :| 0 <= j < |s| && s[j] == b;
    forall y | y in Take(s, n)
      ensures key(y) <= key(b)
    {
      var i :| 0 <= i < |Take(s, n)| && Take(s, n)[i] == y;
      assert s[i] == y;
    }
  }

  /**
   * `s.sort(by key).slice(0, n)`: the `n` elements of smallest key, in
   * ascending order; nothing left out has a smaller key than what is kept.
   */
  function SmallestBy<T(!new)>(s: seq<T>, key: T -> int, n: nat): (r: seq<T>)
    ensures |r| == Min(n, |s|)
    ensures multiset(r) <= multiset(s)
    ensures forall b :: b in r ==> b in s
    ensures forall i, j :: 0 <= i < j < |r| ==> key(r[i]) <= key(r[j])
    ensures forall b, y :: b in s && b !in r && y in r ==> key(y) <= key(b)
    ensures |r| < n ==> forall b :: b in s ==> b in r
  {
    var sorted := SortBy(s, key);
    var r := Take(sorted, n);
    SameElements(sorted, s);
    PrefixSubMultiset(sorted, |r|);
    assert r == sorted[..|r|];
    forall b, y | b in s && b !in r && y in r
      ensures key(y) <= key(b)
    {
      PrefixHoldsSmallestKeys(sorted, key, n, b);
    }
    assert |r| < n ==> r == sorted;
    r
  }

  /** `xs.slice(start, end)` for `start <= end`: indices past the end are clamped. */
  function Slice<T>(xs: seq<T>, start: nat, end: nat): (r: seq<T>)
    requires start <= end
    ensures |r| == if start < |xs| then Min(end, |xs|) - start else 0
    ensures forall k :: 0 <= k < |r| ==> r[k] == xs[start + k]
  {
    if start < |xs| then xs[start..Min(end, |xs|)] else []
  }

  /** `Math.ceil(n / d)`: the least number of pages of `d` items that hold `n` items. */
  function CeilDiv(n: nat, d: nat): (q: nat)
    requires d >= 1
    ensures (q - 1) * d < n <= q * d
  {
    var q := (n + d - 1) / d;
    assert q * d + (n + d - 1) % d == n + d - 1;
    assert (q + 1) * d == q * d + d;
    assert (q - 1) * d == q * d - d;
    q
  }

  /** The window of `limit` items from `start`: never longer than `limit`, full unless it reaches the end. */
  lemma SliceWindow<T>(xs: seq<T>, start: nat, limit: nat)
    ensures var w := Slice(xs, start, start + limit);
            && |w| <= limit
            && (w != [] ==> start + |w| <= |xs|)
            && (start < |xs| ==> |w| == Min(limit, |xs| - start))
  {
  }

  datatype Page<T> = Page(data: seq<T>, currentPage: nat, perPage: nat, total: nat, totalPages: nat)

  /**
   * The page arithmetic shared by the list handlers: the page holds the window
   * of `limit` items starting at `(page - 1) * limit`, clamped to the list.
   */
  function Paginate<T>(xs: seq<T>, page: nat, limit: nat): (r: Page<T>)
    requires page >= 1 && limit >= 1
    ensures r.currentPage == page && r.perPage == limit && r.total == |xs|
    ensures |r.data| <= limit
    ensures r.data != [] ==> (page - 1) * limit + |r.data| <= |xs|
    ensures forall k :: 0 <= k < |r.data| ==> r.data[k] == xs[(page - 1) * limit + k]
    ensures (page - 1) * limit < |xs| ==> |r.data| == Min(limit, |xs| - (page - 1) * limit)
    ensures (r.totalPages - 1) * limit < |xs| <= r.totalPages * limit
  {
    var start := (page - 1) * limit;
    SliceWindow(xs, start, limit);
    Page(Slice(xs, start, start + limit), page, limit, |xs|, CeilDiv(|xs|, limit))
  }

  /** A page shows only items of the list. */
  lemma PageHoldsListItems<T>(xs: seq<T>, page: nat, limit: nat)
    requires page >= 1 && limit >= 1
    ensures forall x :: x in Paginate(xs, page, limit).data ==> x in xs
  {
    var data := Paginate(xs, page, limit).data;
    forall x | x in data
      ensures x in xs
    {
      var k :| 0 <= k < |data| && data[k] == x;
      assert xs[(page - 1) * limit + k] == x;
    }
  }

  /** Every item is shown exactly where the arithmetic puts it: on page `i / limit + 1`, at `i % limit`. */
  lemma EveryItemOnItsPage<T>(xs: seq<T>, limit: nat, i: nat)
    requires limit >= 1 && i < |xs|
    ensures i / limit + 1 <= Paginate(xs, 1, limit).totalPages
    ensures var page := Paginate(xs, i / limit + 1, limit);
            i % limit < |page.data| && page.data[i % limit] == xs[i]
  {
    var p, k := i / limit, i % limit;
    assert i == p * limit + k;
    var t := Paginate(xs, 1, limit).totalPages;
    assert p * limit < t * limit;
    MulCancel(p, t, limit);
    var page := Paginate(xs, p + 1, limit);
    assert (p + 1 - 1) * limit == p * limit;
    assert |page.data| == Min(limit, |xs| - p * limit);
  }

  lemma MulCancel(a: nat, b: nat, c: nat)
    requires a * c < b * c
    ensures a < b
  {
    if b <= a {
      MulMonotone(b, a, c);
    }
  }

  lemma MulMonotone(a: nat, b: nat, c: nat)
    requires a <= b
    ensures a * c <= b * c
  {
    var d := b - a;
    assert b * c == a * c + d * c;
  }

  /** Asking for a page past the last one yields no items. */
  lemma PagePastLastIsEmpty<T>(xs: seq<T>, page: nat, limit: nat)
    requires limit >= 1 && page > Paginate(xs, 1, limit).totalPages
    ensures Paginate(xs, page, limit).data == []
  {
    var t := Paginate(xs, 1, limit).totalPages;
    var r := Paginate(xs, page, limit);
    assert r.totalPages == t;
    MulMonotone(t, page - 1, limit);
    assert |xs| <= (page - 1) * limit;
  }
}
