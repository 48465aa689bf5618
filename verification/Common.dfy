/** Values every model shares: nullable columns, maxima over them, and sorted query results. */
module Common {

  datatype Option<+T> = None | Some(value: T) {
    function GetOr(default: T): T {
      if None? then default else value
    }
  }

  /** The SQL and Python maximum over values of which any may be null. */
  function MaxOpt(a: Option<int>, b: Option<int>): (r: Option<int>)
    ensures r.None? <==> a.None? && b.None?
    ensures forall x :: a == Some(x) || b == Some(x) ==> x <= r.value
    ensures r.Some? ==> r == a || r == b
  {
    if a.None? then b
    else if b.None? then a
    else if a.value < b.value then b else a
  }

  /** Null is below every value. */
  predicate AtMost(a: Option<int>, b: Option<int>) {
    a.Some? ==> b.Some? && a.value <= b.value
  }

  function Get<K, V>(m: map<K, V>, k: K): Option<V> {
    if k in m then Some(m[k]) else None
  }

  function Last<T>(s: seq<T>): T
    requires |s| > 0
  {
    s[|s| - 1]
  }

  function Init<T>(s: seq<T>): seq<T>
    requires |s| > 0
  {
    s[..|s| - 1]
  }

  lemma SplitLast<T>(s: seq<T>)
    requires |s| > 0
    ensures s == Init(s) + [Last(s)]
  {
  }

  function Filter<T(!new)>(s: seq<T>, keep: T -> bool): (r: seq<T>)
    ensures forall x :: x in r <==> x in s && keep(x)
  {
    if |s| == 0 then []
    else Filter(Init(s), keep) + (if keep(Last(s)) then [Last(s)] else [])
  }

  lemma {:induction false} FilterAll<T(!new)>(s: seq<T>, keep: T -> bool)
    requires forall x :: x in s ==> keep(x)
    ensures Filter(s, keep) == s
  {
    if |s| > 0 {
      SplitLast(s);
      FilterAll(Init(s), keep);
    }
  }

  lemma {:induction false} FilterSame<T(!new)>(s: seq<T>, keep: T -> bool, same: T -> bool)
    requires forall x :: keep(x) <==> same(x)
    ensures Filter(s, keep) == Filter(s, same)
  {
    if |s| > 0 {
      FilterSame(Init(s), keep, same);
    }
  }

  lemma FilterOneMore<T(!new)>(s: seq<T>, x: T, keep: T -> bool)
    ensures Filter(s + [x], keep) == Filter(s, keep) + (if keep(x) then [x] else [])
  {
    assert Init(s + [x]) == s;
  }

  lemma {:induction false} FilterConcat<T(!new)>(a: seq<T>, b: seq<T>, keep: T -> bool)
    ensures Filter(a + b, keep) == Filter(a, keep) + Filter(b, keep)
  {
    if |b| == 0 {
      assert a + b == a;
    } else {
      SplitLast(b);
      assert a + b == (a + Init(b)) + [Last(b)];
      FilterOneMore(a + Init(b), Last(b), keep);
      FilterConcat(a, Init(b), keep);
    }
  }

  /** Two filters in a row keep what both keep. */
  lemma {:induction false} FilterTwice<T(!new)>(s: seq<T>, first: T -> bool, next: T -> bool, both: T -> bool)
    requires forall x :: both(x) <==> first(x) && next(x)
    ensures Filter(Filter(s, first), next) == Filter(s, both)
  {
    if |s| > 0 {
      var x, front := Last(s), Filter(Init(s), first);
      FilterTwice(Init(s), first, next, both);
      SplitLast(s);
      FilterOneMore(Init(s), x, first);
      FilterOneMore(Init(s), x, both);
      FilterOneMore(front, x, next);
      assert front + [] == front;
    }
  }

  // ---- ORDER BY two integer keys ----

  predicate KeyLe(a: (int, int), b: (int, int)) {
    a.0 < b.0 || (a.0 == b.0 && a.1 <= b.1)
  }

  ghost predicate SortedBy<T>(s: seq<T>, key: T -> (int, int)) {
    forall i, j :: 0 <= i < j < |s| ==> KeyLe(key(s[i]), key(s[j]))
  }

  function Insert<T(!new)>(s: seq<T>, x: T, key: T -> (int, int)): (r: seq<T>)
    ensures multiset(r) == multiset(s) + multiset{x}
  {
    if |s| == 0 then [x]
    else if KeyLe(key(Last(s)), key(x)) then s + [x]
    else
      SplitLast(s);
      Insert(Init(s), x, key) + [Last(s)]
  }

  lemma {:induction false} InsertSorted<T(!new)>(s: seq<T>, x: T, key: T -> (int, int))
    requires SortedBy(s, key)
    ensures SortedBy(Insert(s, x, key), key)
  {
    if |s| > 0 && !KeyLe(key(Last(s)), key(x)) {
      var shorter := Insert(Init(s), x, key);
      InsertSorted(Init(s), x, key);
      forall i | 0 <= i < |shorter| ensures KeyLe(key(shorter[i]), key(Last(s))) {
        assert shorter[i] in multiset(shorter);
        assert shorter[i] in Init(s) || shorter[i] == x;
      }
    }
  }

  /** The rows of a query in the order its ORDER BY clause asks for. */
  function OrderBy<T(!new)>(s: seq<T>, key: T -> (int, int)): (r: seq<T>)
    ensures SortedBy(r, key)
    ensures multiset(r) == multiset(s)
  {
    if |s| == 0 then []
    else
      SplitLast(s);
      InsertSorted(OrderBy(Init(s), key), Last(s), key);
      Insert(OrderBy(Init(s), key), Last(s), key)
  }

  lemma InsertBefore<T(!new)>(front: seq<T>, last: T, x: T, key: T -> (int, int))
    requires !KeyLe(key(last), key(x))
    ensures Insert(front + [last], x, key) == Insert(front, x, key) + [last]
  {
    assert Init(front + [last]) == front;
  }

  lemma InsertAfter<T(!new)>(s: seq<T>, x: T, key: T -> (int, int))
    requires forall y :: y in s ==> KeyLe(key(y), key(x))
    ensures Insert(s, x, key) == s + [x]
  {
  }

  lemma SortedBelow<T(!new)>(s: seq<T>, x: T, key: T -> (int, int))
    requires SortedBy(s, key) && |s| > 0 && KeyLe(key(Last(s)), key(x))
    ensures forall y :: y in s ==> KeyLe(key(y), key(x))
  {
  }

  lemma FilterInsertEnd<T(!new)>(s: seq<T>, x: T, key: T -> (int, int), keep: T -> bool)
    requires forall y :: y in s ==> KeyLe(key(y), key(x))
    ensures Filter(Insert(s, x, key), keep) == if keep(x) then Insert(Filter(s, keep), x, key) else Filter(s, keep)
  {
    InsertAfter(s, x, key);
    InsertAfter(Filter(s, keep), x, key);
    FilterOneMore(s, x, keep);
  }

  lemma FilterInsertStep<T(!new)>(front: seq<T>, last: T, x: T, key: T -> (int, int), keep: T -> bool)
    requires !KeyLe(key(last), key(x))
    requires Filter(Insert(front, x, key), keep)
          == if keep(x) then Insert(Filter(front, keep), x, key) else Filter(front, keep)
    ensures Filter(Insert(front + [last], x, key), keep)
         == if keep(x) then Insert(Filter(front + [last], keep), x, key) else Filter(front + [last], keep)
  {
    InsertBefore(front, last, x, key);
    FilterOneMore(Insert(front, x, key), last, keep);
    FilterOneMore(front, last, keep);
    if keep(last) {
      InsertBefore(Filter(front, keep), last, x, key);
    } else {
      assert Filter(front, keep) + [] == Filter(front, keep);
    }
  }

  lemma {:induction false} FilterInsert<T(!new)>(s: seq<T>, x: T, key: T -> (int, int), keep: T -> bool)
    requires SortedBy(s, key)
    ensures Filter(Insert(s, x, key), keep) == if keep(x) then Insert(Filter(s, keep), x, key) else Filter(s, keep)
  {
    if |s| == 0 {
      FilterInsertEnd(s, x, key, keep);
    } else if KeyLe(key(Last(s)), key(x)) {
      SortedBelow(s, x, key);
      FilterInsertEnd(s, x, key, keep);
    } else {
      FilterInsert(Init(s), x, key, keep);
      FilterInsertStep(Init(s), Last(s), x, key, keep);
      SplitLast(s);
    }
  }

  lemma OrderOneMore<T(!new)>(s: seq<T>, x: T, key: T -> (int, int))
    ensures OrderBy(s + [x], key) == Insert(OrderBy(s, key), x, key)
  {
    assert Init(s + [x]) == s;
  }

  lemma FilterOrderStep<T(!new)>(s: seq<T>, x: T, key: T -> (int, int), keep: T -> bool)
    requires Filter(OrderBy(s, key), keep) == OrderBy(Filter(s, keep), key)
    ensures Filter(OrderBy(s + [x], key), keep) == OrderBy(Filter(s + [x], keep), key)
  {
    OrderOneMore(s, x, key);
    FilterInsert(OrderBy(s, key), x, key, keep);
    FilterOneMore(s, x, keep);
    if keep(x) {
      OrderOneMore(Filter(s, keep), x, key);
    } else {
      assert Filter(s, keep) + [] == Filter(s, keep);
    }
  }

  /** Filtering commutes with ORDER BY. */
  lemma {:induction false} FilterOrderBy<T(!new)>(s: seq<T>, key: T -> (int, int), keep: T -> bool)
    ensures Filter(OrderBy(s, key), keep) == OrderBy(Filter(s, keep), key)
  {
    if |s| > 0 {
      FilterOrderBy(Init(s), key, keep);
      FilterOrderStep(Init(s), Last(s), key, keep);
      SplitLast(s);
    }
  }

  /** Rows already in order stay as they are. */
  lemma {:induction false} OrderByInOrder<T(!new)>(s: seq<T>, key: T -> (int, int))
    requires SortedBy(s, key)
    ensures OrderBy(s, key) == s
  {
    if |s| > 0 {
      OrderByInOrder(Init(s), key);
      SplitLast(s);
      if |s| > 1 {
        assert KeyLe(key(s[|s| - 2]), key(s[|s| - 1]));
      }
    }
  }

  lemma SameElements<T(!new)>(a: seq<T>, b: seq<T>)
    requires multiset(a) == multiset(b)
    ensures forall x :: x in a <==> x in b
    ensures |a| == |b|
  {
    forall x ensures x in a <==> x in b {
      assert x in a <==> x in multiset(a);
      assert x in b <==> x in multiset(b);
    }
    assert |multiset(a)| == |a| && |multiset(b)| == |b|;
  }

  // ---- sorted(set(...)) over integers ----

  ghost predicate Increasing(s: seq<int>) {
    forall i, j :: 0 <= i < j < |s| ==> s[i] < s[j]
  }

  function InsertUnique(s: seq<int>, x: int): (r: seq<int>)
    requires Increasing(s)
    ensures Increasing(r)
    ensures forall y :: y in r <==> y in s || y == x
  {
    if |s| == 0 then [x]
    else if Last(s) < x then s + [x]
    else if Last(s) == x then s
    else
      var shorter := InsertUnique(Init(s), x);
      assert forall i :: 0 <= i < |shorter| ==> shorter[i] in shorter;
      shorter + [Last(s)]
  }

  /** The distinct values of s in increasing order. */
  function SortedUnique(s: seq<int>): (r: seq<int>)
    ensures Increasing(r)
    ensures forall y :: y in r <==> y in s
  {
    if |s| == 0 then [] else InsertUnique(SortedUnique(Init(s)), Last(s))
  }
}
