/**
 * Python's `sorted(xs, key=...)`: a stable sort under a total preorder.
 * Modelled as insertion sort, which is stable because an element is placed
 * before the first later element it is not greater than.
 */
module Sorting {

  ghost predicate TotalPreorder<T(!new)>(le: (T, T) -> bool) {
    (forall a, b :: le(a, b) || le(b, a))
    && (forall a, b, c :: le(a, b) && le(b, c) ==> le(a, c))
  }

  predicate SortedBy<T>(s: seq<T>, le: (T, T) -> bool) {
    forall i, j :: 0 <= i < j < |s| ==> le(s[i], s[j])
  }

  function Insert<T>(x: T, s: seq<T>, le: (T, T) -> bool): (r: seq<T>)
    ensures multiset(r) == multiset(s) + multiset{x}
    ensures |r| == |s| + 1
    decreases |s|
  {
    if s == [] then [x]
    else if le(x, s[0]) then [x] + s
    else
      assert s == [s[0]] + s[1..];
      [s[0]] + Insert(x, s[1..], le)
  }

  lemma {:induction false} InsertSorted<T(!new)>(x: T, s: seq<T>, le: (T, T) -> bool)
    requires TotalPreorder(le) && SortedBy(s, le)
    ensures SortedBy(Insert(x, s, le), le)
    decreases |s|
  {
    if s != [] && !le(x, s[0]) {
      var t := Insert(x, s[1..], le);
      InsertSorted(x, s[1..], le);
      assert s == [s[0]] + s[1..];
      forall k | 0 <= k < |t| ensures le(s[0], t[k]) {
        assert t[k] in multiset(t);
        if t[k] != x {
          assert t[k] in multiset(s[1..]);
          assert t[k] in s[1..];
        }
      }
      var r := [s[0]] + t;
      forall i, j | 0 <= i < j < |r| ensures le(r[i], r[j]) {
        if i > 0 { assert r[i] == t[i - 1] && r[j] == t[j - 1]; }
      }
    }
  }

  function SortBy<T(!new)>(s: seq<T>, le: (T, T) -> bool): (r: seq<T>)
    ensures multiset(r) == multiset(s)
    ensures |r| == |s|
    decreases |s|
  {
    if s == [] then []
    else
      assert s == [s[0]] + s[1..];
      Insert(s[0], SortBy(s[1..], le), le)
  }

  lemma {:induction false} SortBySorted<T(!new)>(s: seq<T>, le: (T, T) -> bool)
    requires TotalPreorder(le)
    ensures SortedBy(SortBy(s, le), le)
    decreases |s|
  {
    if s != [] {
      SortBySorted(s[1..], le);
      InsertSorted(s[0], SortBy(s[1..], le), le);
    }
  }

  /** The elements `le` ranks equal to `e`: neither sorts strictly before the other. */
  function Ties<T>(le: (T, T) -> bool, e: T): T -> bool {
    y => le(e, y) && le(y, e)
  }

  /** Inserting `x` puts it before every element tied with it and keeps the tied elements' order. */
  lemma {:induction false} InsertTies<T(!new)>(x: T, s: seq<T>, le: (T, T) -> bool, e: T)
    requires TotalPreorder(le)
    ensures Filter(Insert(x, s, le), Ties(le, e)) == (if Ties(le, e)(x) then [x] else []) + Filter(s, Ties(le, e))
    decreases |s|
  {
    var p := Ties(le, e);
    if s == [] {
      assert Insert(x, s, le) == [x];
      FilterCons([x], p);
      assert [x][1..] == [];
    } else if le(x, s[0]) {
      FilterCons([x] + s, p);
      assert ([x] + s)[1..] == s;
    } else {
      var t := Insert(x, s[1..], le);
      var hx := if p(x) then [x] else [];
      var h0 := if p(s[0]) then [s[0]] else [];
      assert h0 + hx == hx + h0 by {
        TiedOrdered(le, e, x, s[0]);
      }
      calc {
        Filter(Insert(x, s, le), p);
        Filter([s[0]] + t, p);
        { FilterCons([s[0]] + t, p); assert ([s[0]] + t)[1..] == t; }
        h0 + Filter(t, p);
        { InsertTies(x, s[1..], le, e); }
        h0 + (hx + Filter(s[1..], p));
        { ConcatAssoc(h0, hx, Filter(s[1..], p)); }
        (h0 + hx) + Filter(s[1..], p);
        { ConcatAssoc(hx, h0, Filter(s[1..], p)); }
        hx + (h0 + Filter(s[1..], p));
        { FilterCons(s, p); }
        hx + Filter(s, p);
      }
    }
  }

  /** Concatenation is associative. */
  lemma ConcatAssoc<T>(a: seq<T>, b: seq<T>, c: seq<T>)
    ensures a + (b + c) == (a + b) + c
  {
  }

  /** Filtering a non-empty list: its first element if it passes, then the rest filtered. */
  lemma FilterCons<T(!new)>(s: seq<T>, p: T -> bool)
    requires s != []
    ensures Filter(s, p) == (if p(s[0]) then [s[0]] else []) + Filter(s[1..], p)
  {
  }

  /** Two elements tied with `e` are ordered both ways. */
  lemma TiedOrdered<T(!new)>(le: (T, T) -> bool, e: T, a: T, b: T)
    requires TotalPreorder(le)
    ensures Ties(le, e)(a) && Ties(le, e)(b) ==> le(a, b)
  {
  }

  /** `sorted` is stable: the elements tied with any `e` come out in the order they went in. */
  lemma {:induction false} SortByStable<T(!new)>(s: seq<T>, le: (T, T) -> bool, e: T)
    requires TotalPreorder(le)
    ensures Filter(SortBy(s, le), Ties(le, e)) == Filter(s, Ties(le, e))
    decreases |s|
  {
    if s != [] {
      SortByStable(s[1..], le, e);
      InsertTies(s[0], SortBy(s[1..], le), le, e);
    }
  }

  /** Filtering keeps order; `Filter(s, p)` is the subsequence of elements satisfying `p`. */
  function Filter<T(!new)>(s: seq<T>, p: T -> bool): (r: seq<T>)
    ensures |r| <= |s|
    ensures forall x :: x in r <==> x in s && p(x)
    ensures multiset(r) <= multiset(s)
    decreases |s|
  {
    if s == [] then []
    else
      assert s == [s[0]] + s[1..];
      (if p(s[0]) then [s[0]] else []) + Filter(s[1..], p)
  }

  /** Lexicographic order on strings by code point, as Python compares `str` values. */
  predicate StrLe(a: string, b: string)
    decreases |a|
  {
    if a == [] then true
    else if b == [] then false
    else if a[0] != b[0] then a[0] < b[0]
    else StrLe(a[1..], b[1..])
  }

  lemma {:induction false} StrLeTotal(a: string, b: string)
    ensures StrLe(a, b) || StrLe(b, a)
    decreases |a|
  {
    if a != [] && b != [] && a[0] == b[0] { StrLeTotal(a[1..], b[1..]); }
  }

  lemma {:induction false} StrLeTrans(a: string, b: string, c: string)
    requires StrLe(a, b) && StrLe(b, c)
    ensures StrLe(a, c)
    decreases |a|
  {
    if a != [] && b != [] && c != [] && a[0] == b[0] && b[0] == c[0] {
      StrLeTrans(a[1..], b[1..], c[1..]);
    }
  }

  lemma {:induction false} StrLeAntisym(a: string, b: string)
    requires StrLe(a, b) && StrLe(b, a)
    ensures a == b
    decreases |a|
  {
    if a != [] && b != [] {
      StrLeAntisym(a[1..], b[1..]);
      assert a == [a[0]] + a[1..] && b == [b[0]] + b[1..];
    }
  }

  lemma StrLeOrder()
    ensures TotalPreorder(StrLe)
  {
    forall a, b ensures StrLe(a, b) || StrLe(b, a) { StrLeTotal(a, b); }
    forall a, b, c | StrLe(a, b) && StrLe(b, c) ensures StrLe(a, c) { StrLeTrans(a, b, c); }
  }

  /** `sorted(names)` for strings. */
  function SortStrings(s: seq<string>): (r: seq<string>)
    ensures multiset(r) == multiset(s)
    ensures SortedBy(r, StrLe)
  {
    StrLeOrder();
    SortBySorted(s, StrLe);
    SortBy(s, StrLe)
  }

  /** `list(s)` for a set: each element once, in an unspecified order. */
  method Enumerate<T>(s: set<T>) returns (r: seq<T>)
    ensures forall x :: x in r <==> x in s
    ensures |r| == |s|
    ensures forall i, j :: 0 <= i < j < |r| ==> r[i] != r[j]
  {
    r := [];
    var remaining := s;
    while remaining != {}
      invariant remaining <= s
      invariant forall x :: x in r <==> x in s - remaining
      invariant |r| == |s - remaining|
      invariant forall i, j :: 0 <= i < j < |r| ==> r[i] != r[j]
      decreases remaining
    {
      var x :| x in remaining;
      assert s - (remaining - {x}) == (s - remaining) + {x};
      r := r + [x];
      remaining := remaining - {x};
    }
  }

  /**
   * The retention rule `items[:-n] if len(items) > n else []` on a list sorted
   * oldest first: Python's `[:-n]` is empty for `n = 0`, drops the last `n`
   * items for `n > 0`, and keeps the first `-n` items for `n < 0`.
   */
  function RetentionSlice<T>(items: seq<T>, n: int): (r: seq<T>)
    ensures r <= items
  {
    if |items| <= n || n == 0 then []
    else if n > 0 then items[..|items| - n]
    else items[..if -n < |items| then -n else |items|]
  }

  /** With a positive retention count and more items than it, exactly the newest `n` survive. */
  lemma RetentionKeepsNewest<T>(items: seq<T>, n: int)
    requires 0 < n < |items|
    ensures RetentionSlice(items, n) + items[|items| - n..] == items
    ensures |items[|items| - n..]| == n
  {
  }

  /** Retention `0` removes nothing, contrary to what a count of items to keep would suggest. */
  lemma RetentionZeroKeepsAll<T>(items: seq<T>)
    ensures RetentionSlice(items, 0) == []
  {
  }

  /** On a list sorted oldest first, every removed item is no newer than every kept one. */
  lemma RetentionRemovesOldest<T>(items: seq<T>, n: int, le: (T, T) -> bool)
    requires SortedBy(items, le)
    ensures forall i, j :: 0 <= i < |RetentionSlice(items, n)| <= j < |items| ==> le(items[i], items[j])
  {
  }

  /** `lst.remove(x)` for every occurrence: the list without `x`, in order. */
  function Without<T(==,!new)>(s: seq<T>, x: T): (r: seq<T>)
    ensures forall y :: y in r <==> y in s && y != x
    ensures |r| <= |s|
    decreases |s|
  {
    if s == [] then []
    else (if s[0] == x then [] else [s[0]]) + Without(s[1..], x)
  }

  predicate Distinct<T(==)>(s: seq<T>) {
    forall i, j :: 0 <= i < j < |s| ==> s[i] != s[j]
  }

  lemma {:induction false} WithoutAbsent<T(!new)>(s: seq<T>, x: T)
    requires x !in s
    ensures Without(s, x) == s
    decreases |s|
  {
    if s != [] {
      assert s[0] != x && x !in s[1..];
      WithoutAbsent(s[1..], x);
      assert [s[0]] + s[1..] == s;
    }
  }

  lemma {:induction false} WithoutDistinct<T(!new)>(s: seq<T>, x: T)
    requires Distinct(s)
    ensures Distinct(Without(s, x))
    decreases |s|
  {
    if s != [] {
      var t := Without(s[1..], x);
      assert Distinct(s[1..]) by {
        forall i, j | 0 <= i < j < |s[1..]| ensures s[1..][i] != s[1..][j] {
          assert s[1..][i] == s[i + 1] && s[1..][j] == s[j + 1];
        }
      }
      WithoutDistinct(s[1..], x);
      if s[0] != x {
        assert s[0] !in s[1..];
        assert s[0] !in t;
        var r := [s[0]] + t;
        forall i, j | 0 <= i < j < |r| ensures r[i] != r[j] {
          if i == 0 { assert r[j] == t[j - 1] && r[j] in t; } else { assert r[i] == t[i - 1] && r[j] == t[j - 1]; }
        }
      }
    }
  }

  /** Filtering a list extended by one element extends the filtered list by that element when it passes. */
  lemma {:induction false} FilterSnoc<T(!new)>(s: seq<T>, x: T, p: T -> bool)
    ensures Filter(s + [x], p) == Filter(s, p) + (if p(x) then [x] else [])
    decreases |s|
  {
    if s == [] {
      assert [] + [x] == [x];
    } else {
      assert (s + [x])[1..] == s[1..] + [x];
      FilterSnoc(s[1..], x, p);
    }
  }

  /** Some element of a list extended by `x` passes exactly when some earlier one or `x` passes. */
  lemma AnySnoc<T>(s: seq<T>, x: T, p: T -> bool)
    ensures (exists k :: 0 <= k < |s + [x]| && p((s + [x])[k])) <==> (exists k :: 0 <= k < |s| && p(s[k])) || p(x)
  {
    var t := s + [x];
    if exists k :: 0 <= k < |s| && p(s[k]) {
      var k :| 0 <= k < |s| && p(s[k]);
      assert t[k] == s[k];
    }
    if p(x) {
      assert t[|s|] == x;
    }
    if exists k :: 0 <= k < |t| && p(t[k]) {
      var k :| 0 <= k < |t| && p(t[k]);
      if k < |s| {
        assert s[k] == t[k];
      }
    }
  }

  /** Filtering one more element of a list, as a loop over its indices does. */
  lemma FilterNext<T(!new)>(s: seq<T>, i: nat, p: T -> bool)
    requires i < |s|
    ensures Filter(s[..i + 1], p) == Filter(s[..i], p) + (if p(s[i]) then [s[i]] else [])
  {
    assert s[..i + 1] == s[..i] + [s[i]];
    FilterSnoc(s[..i], s[i], p);
  }

  /** Splitting a list by a test and by its negation loses and invents nothing. */
  lemma {:induction false} FilterPartition<T(!new)>(s: seq<T>, p: T -> bool, q: T -> bool)
    requires forall x :: q(x) == !p(x)
    ensures multiset(Filter(s, p)) + multiset(Filter(s, q)) == multiset(s)
    decreases |s|
  {
    if s != [] {
      FilterPartition(s[1..], p, q);
      FilterHead(s, p);
      FilterHead(s, q);
      assert q(s[0]) == !p(s[0]);
      assert multiset(s) == multiset{s[0]} + multiset(s[1..]) by { assert s == [s[0]] + s[1..]; }
    }
  }

  /** The first element of a list counts in its filter exactly when it passes. */
  lemma FilterHead<T(!new)>(s: seq<T>, p: T -> bool)
    requires s != []
    ensures multiset(Filter(s, p)) == (if p(s[0]) then multiset{s[0]} else multiset{}) + multiset(Filter(s[1..], p))
  {
    assert Filter(s, p) == (if p(s[0]) then [s[0]] else []) + Filter(s[1..], p);
  }

}
