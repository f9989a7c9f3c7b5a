// The LINQ operators the order-side queries are built from: Where,
// FirstOrDefault, OrderBy/OrderByDescending, Skip/Take, Count and Sum,
// over sequences in storage order.
module Linq {
  import opened Wrappers

  /** Where: the elements that satisfy p, in their original order. */
  function Where<T(==,!new)>(s: seq<T>, p: T -> bool): (r: seq<T>)
    ensures |r| <= |s|
    ensures forall x :: x in r <==> x in s && p(x)
    ensures forall x :: multiset(r)[x] == if p(x) then multiset(s)[x] else 0
  {
    if s == [] then []
    else
      var rest := Where(s[1..], p);
      assert s == [s[0]] + s[1..];
      if p(s[0]) then [s[0]] + rest else rest
  }

  /** FirstOrDefault(p): the first element that satisfies p. */
  function FirstWhere<T(==,!new)>(s: seq<T>, p: T -> bool): (r: Option<T>)
    ensures r.Some? <==> exists x :: x in s && p(x)
    ensures r.Some? ==> exists i :: 0 <= i < |s| && s[i] == r.value && p(s[i]) && forall j :: 0 <= j < i ==> !p(s[j])
  {
    if s == [] then None
    else if p(s[0]) then Some(s[0])
    else
      var r := FirstWhere(s[1..], p);
      assert forall x :: x in s[1..] ==> x in s;
      assert forall x :: x in s && x != s[0] ==> x in s[1..];
      if r.Some? then
        var i :| 0 <= i < |s[1..]| && s[1..][i] == r.value && p(s[1..][i]) && forall j :: 0 <= j < i ==> !p(s[1..][j]);
        assert s[i + 1] == r.value && forall j :: 0 <= j < i + 1 ==> !p(s[j]);
        r
      else r
  }

  /** Count(p). */
  function Count<T(==,!new)>(s: seq<T>, p: T -> bool): (n: nat)
    ensures n == |Where(s, p)|
  {
    if s == [] then 0 else (if p(s[0]) then 1 else 0) + Count(s[1..], p)
  }

  /** Sum(f). */
  function Sum<T>(s: seq<T>, f: T -> int): int
  {
    if s == [] then 0 else f(s[0]) + Sum(s[1..], f)
  }

  lemma {:induction false} SumAppend<T>(s: seq<T>, t: seq<T>, f: T -> int)
    ensures Sum(s + t, f) == Sum(s, f) + Sum(t, f)
  {
    if s != [] {
      assert (s + t)[0] == s[0];
      assert (s + t)[1..] == s[1..] + t;
      SumAppend(s[1..], t, f);
    } else {
      assert s + t == t;
    }
  }

  // ---------------------------------------------------------------------
  // Ordering by a nullable key

  /**
   * The database's order of a nullable key: by value, with null above every
   * value, so that ascending puts nulls last and descending puts them first.
   */
  predicate KeyLe(a: Option<int>, b: Option<int>)
  {
    b.None? || (a.Some? && a.value <= b.value)
  }

  /** a may come before b in an ascending or a descending order. */
  predicate InOrder(descending: bool, a: Option<int>, b: Option<int>)
  {
    if descending then KeyLe(b, a) else KeyLe(a, b)
  }

  predicate Ordered<T>(s: seq<T>, key: T -> Option<int>, descending: bool)
  {
    forall i, j :: 0 <= i < j < |s| ==> InOrder(descending, key(s[i]), key(s[j]))
  }

  function Insert<T(==,!new)>(x: T, s: seq<T>, key: T -> Option<int>, descending: bool): (r: seq<T>)
    ensures multiset(r) == multiset(s) + multiset{x}
  {
    if s == [] then [x]
    else if InOrder(descending, key(x), key(s[0])) then [x] + s
    else
      assert s == [s[0]] + s[1..];
      [s[0]] + Insert(x, s[1..], key, descending)
  }

  /** Inserting into an ordered sequence keeps it ordered. */
  lemma {:induction false} InsertOrdered<T(!new)>(x: T, s: seq<T>, key: T -> Option<int>, descending: bool)
    requires Ordered(s, key, descending)
    ensures Ordered(Insert(x, s, key, descending), key, descending)
  {
    if s != [] && !InOrder(descending, key(x), key(s[0])) {
      var rest := Insert(x, s[1..], key, descending);
      InsertOrdered(x, s[1..], key, descending);
      forall k | 0 <= k < |rest|
        ensures InOrder(descending, key(s[0]), key(rest[k]))
      {
        assert rest[k] in multiset(rest);
        if rest[k] != x {
          assert rest[k] in multiset(s[1..]);
          var j :| 0 <= j < |s[1..]| && s[1..][j] == rest[k];
          assert s[j + 1] == rest[k];
        }
      }
    }
  }

  /** OrderBy(key) or OrderByDescending(key): the same elements, ordered by the key. */
  function SortBy<T(==,!new)>(s: seq<T>, key: T -> Option<int>, descending: bool): (r: seq<T>)
    ensures multiset(r) == multiset(s) && |r| == |s|
  {
    if s == [] then []
    else
      assert s == [s[0]] + s[1..];
      Insert(s[0], SortBy(s[1..], key, descending), key, descending)
  }

  lemma {:induction false} SortByOrdered<T(!new)>(s: seq<T>, key: T -> Option<int>, descending: bool)
    ensures Ordered(SortBy(s, key, descending), key, descending)
  {
    if s != [] {
      SortByOrdered(s[1..], key, descending);
      InsertOrdered(s[0], SortBy(s[1..], key, descending), key, descending);
    }
  }

  // ---------------------------------------------------------------------
  // Paging

  /** Skip(n): a count of zero or less skips nothing. */
  function Skip<T>(s: seq<T>, n: int): (r: seq<T>)
  {
    if n <= 0 then s else if n >= |s| then [] else s[n..]
  }

  /** Take(n): a count of zero or less takes nothing. */
  function Take<T>(s: seq<T>, n: int): (r: seq<T>)
  {
    if n <= 0 then [] else if n >= |s| then s else s[..n]
  }

  function Min(a: int, b: int): int
  {
    if a <= b then a else b
  }

  /** Skip(offset).Take(count) with a nonnegative offset is the slice from offset, at most count long. */
  lemma PageIsSlice<T>(s: seq<T>, offset: int, count: int)
    requires offset >= 0 && count >= 0
    ensures var lo := Min(offset, |s|);
      Take(Skip(s, offset), count) == s[lo..Min(lo + count, |s|)]
    ensures |Take(Skip(s, offset), count)| <= count
  {
  }

  /** A page of at least one element is empty exactly when the offset reaches past the end. */
  lemma EmptyPage<T>(s: seq<T>, offset: int, count: int)
    requires offset >= 0 && count >= 1
    ensures Take(Skip(s, offset), count) == [] <==> offset >= |s|
  {
    if offset < |s| {
      assert Take(Skip(s, offset), count)[0] == s[offset];
    }
  }

  /** A slice of an ordered sequence is ordered. */
  lemma OrderedSlice<T>(s: seq<T>, lo: int, hi: int, key: T -> Option<int>, descending: bool)
    requires 0 <= lo <= hi <= |s| && Ordered(s, key, descending)
    ensures Ordered(s[lo..hi], key, descending)
  {
    var r := s[lo..hi];
    forall i, j | 0 <= i < j < |r|
      ensures InOrder(descending, key(r[i]), key(r[j]))
    {
      assert r[i] == s[lo + i] && r[j] == s[lo + j];
    }
  }

  /** A page of an ordered sequence is ordered. */
  lemma OrderedPage<T>(s: seq<T>, key: T -> Option<int>, descending: bool, offset: int, count: int)
    requires offset >= 0 && count >= 0 && Ordered(s, key, descending)
    ensures Ordered(Take(Skip(s, offset), count), key, descending)
  {
    var lo := Min(offset, |s|);
    PageIsSlice(s, offset, count);
    OrderedSlice(s, lo, Min(lo + count, |s|), key, descending);
  }
}
