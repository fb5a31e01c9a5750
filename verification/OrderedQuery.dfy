/** SELECT … WHERE … ORDER BY … LIMIT over a table given as a sequence of rows in any order. */
module OrderedQuery {

  /** Any two rows compare, and comparisons chain. */
  ghost predicate TotalOrder<T(!new)>(le: (T, T) -> bool) {
    && (forall a, b :: le(a, b) || le(b, a))
    && (forall a, b, c :: le(a, b) && le(b, c) ==> le(a, c))
  }

  ghost predicate Antisymmetric<T(!new)>(le: (T, T) -> bool) {
    forall a, b :: le(a, b) && le(b, a) ==> a == b
  }

  ghost predicate Sorted<T(!new)>(s: seq<T>, le: (T, T) -> bool) {
    forall i, j | 0 <= i < j < |s| :: le(s[i], s[j])
  }

  function Insert<T>(x: T, s: seq<T>, le: (T, T) -> bool): seq<T> {
    if s == [] || le(x, s[0]) then [x] + s else [s[0]] + Insert(x, s[1..], le)
  }

  function OrderBy<T>(s: seq<T>, le: (T, T) -> bool): seq<T> {
    if s == [] then [] else Insert(s[0], OrderBy(s[1..], le), le)
  }

  function Where<T>(s: seq<T>, p: T -> bool): seq<T> {
    if s == [] then [] else if p(s[0]) then [s[0]] + Where(s[1..], p) else Where(s[1..], p)
  }

  function Map<T, U>(s: seq<T>, f: T -> U): seq<U> {
    if s == [] then [] else [f(s[0])] + Map(s[1..], f)
  }

  lemma {:induction false} InsertPermutes<T>(x: T, s: seq<T>, le: (T, T) -> bool)
    ensures multiset(Insert(x, s, le)) == multiset{x} + multiset(s)
    ensures |Insert(x, s, le)| == |s| + 1
  {
    if !(s == [] || le(x, s[0])) {
      InsertPermutes(x, s[1..], le);
      assert s == [s[0]] + s[1..];
    }
  }

  lemma {:induction false} InsertSorted<T(!new)>(x: T, s: seq<T>, le: (T, T) -> bool)
    requires TotalOrder(le) && Sorted(s, le)
    ensures Sorted(Insert(x, s, le), le)
  {
    if s == [] {
    } else if le(x, s[0]) {
      forall j | 0 <= j < |s| ensures le(x, s[j]) {}
    } else {
      InsertSorted(x, s[1..], le);
      InsertPermutes(x, s[1..], le);
      var rest := Insert(x, s[1..], le);
      forall j | 0 <= j < |rest| ensures le(s[0], rest[j]) {
        assert rest[j] in multiset(rest);
        if rest[j] != x {
          assert rest[j] in s[1..];
        }
      }
    }
  }

  /** ORDER BY returns the same rows, sorted. */
  lemma {:induction false} OrderBySorts<T(!new)>(s: seq<T>, le: (T, T) -> bool)
    requires TotalOrder(le)
    ensures Sorted(OrderBy(s, le), le) && multiset(OrderBy(s, le)) == multiset(s)
  {
    if s != [] {
      OrderBySorts(s[1..], le);
      InsertSorted(s[0], OrderBy(s[1..], le), le);
      InsertPermutes(s[0], OrderBy(s[1..], le), le);
      assert s == [s[0]] + s[1..];
    }
  }

  lemma {:induction false} WhereMembers<T>(s: seq<T>, p: T -> bool)
    ensures forall x :: x in Where(s, p) <==> x in s && p(x)
  {
    if s != [] {
      WhereMembers(s[1..], p);
      assert s == [s[0]] + s[1..];
    }
  }

  lemma {:induction false} WhereAppend<T>(a: seq<T>, b: seq<T>, p: T -> bool)
    ensures Where(a + b, p) == Where(a, p) + Where(b, p)
  {
    if a == [] {
      assert a + b == b;
    } else {
      WhereAppend(a[1..], b, p);
      assert (a + b)[1..] == a[1..] + b;
    }
  }

  lemma {:induction false} WhereInsert<T(!new)>(x: T, s: seq<T>, le: (T, T) -> bool, p: T -> bool)
    requires TotalOrder(le) && Sorted(s, le)
    ensures Where(Insert(x, s, le), p) == if p(x) then Insert(x, Where(s, p), le) else Where(s, p)
  {
    if s == [] {
    } else if le(x, s[0]) {
      assert ([x] + s)[1..] == s;
      WhereMembers(s, p);
      var kept := Where(s, p);
      if kept != [] {
        assert kept[0] in s;
        assert le(x, kept[0]) by {
          var j :| 0 <= j < |s| && s[j] == kept[0];
          assert j == 0 || le(s[0], s[j]);
        }
      }
    } else {
      WhereInsert(x, s[1..], le, p);
      assert ([s[0]] + Insert(x, s[1..], le))[1..] == Insert(x, s[1..], le);
      if p(x) && p(s[0]) {
        assert Where(s, p)[1..] == Where(s[1..], p);
      }
    }
  }

  /** Filtering before or after ordering is the same. */
  lemma {:induction false} WhereOrderBy<T(!new)>(s: seq<T>, le: (T, T) -> bool, p: T -> bool)
    requires TotalOrder(le)
    ensures Where(OrderBy(s, le), p) == OrderBy(Where(s, p), le)
  {
    if s != [] {
      WhereOrderBy(s[1..], le, p);
      OrderBySorts(s[1..], le);
      WhereInsert(s[0], OrderBy(s[1..], le), le, p);
      if p(s[0]) {
        assert Where(s, p)[1..] == Where(s[1..], p);
      }
    }
  }

  lemma {:induction false} InsertAgrees<T(!new)>(x: T, s: seq<T>, le1: (T, T) -> bool, le2: (T, T) -> bool)
    requires forall i | 0 <= i < |s| :: le1(x, s[i]) == le2(x, s[i])
    ensures Insert(x, s, le1) == Insert(x, s, le2)
  {
    if s != [] {
      InsertAgrees(x, s[1..], le1, le2);
    }
  }

  /** Orders that agree on the rows at hand give the same result. */
  lemma {:induction false} OrderByAgrees<T(!new)>(s: seq<T>, le1: (T, T) -> bool, le2: (T, T) -> bool)
    requires TotalOrder(le1)
    requires forall a, b | a in s && b in s :: le1(a, b) == le2(a, b)
    ensures OrderBy(s, le1) == OrderBy(s, le2)
  {
    if s != [] {
      OrderByAgrees(s[1..], le1, le2);
      OrderBySorts(s[1..], le1);
      var rest := OrderBy(s[1..], le1);
      forall i | 0 <= i < |rest| ensures le1(s[0], rest[i]) == le2(s[0], rest[i]) {
        assert rest[i] in multiset(rest);
        assert rest[i] in s[1..];
      }
      InsertAgrees(s[0], rest, le1, le2);
    }
  }

  /** Two filters in a row are one filter. */
  lemma {:induction false} WhereTwice<T>(s: seq<T>, p: T -> bool, q: T -> bool, both: T -> bool)
    requires forall x | x in s :: both(x) == (p(x) && q(x))
    ensures Where(Where(s, p), q) == Where(s, both)
  {
    if s != [] {
      WhereTwice(s[1..], p, q, both);
      if p(s[0]) {
        assert Where(s, p)[1..] == Where(s[1..], p);
      }
    }
  }

  lemma {:induction false} WhereAll<T>(s: seq<T>, p: T -> bool)
    requires forall x | x in s :: p(x)
    ensures Where(s, p) == s
  {
    if s != [] {
      WhereAll(s[1..], p);
    }
  }

  lemma {:induction false} WhereNone<T>(s: seq<T>, p: T -> bool)
    requires forall x | x in s :: !p(x)
    ensures Where(s, p) == []
  {
    if s != [] {
      WhereNone(s[1..], p);
    }
  }

  /** A filter that holds exactly from position `k` on keeps the rest of the list. */
  lemma {:induction false} WhereSuffix<T>(s: seq<T>, p: T -> bool, k: nat)
    requires k <= |s| && forall i | 0 <= i < |s| :: p(s[i]) <==> i >= k
    ensures Where(s, p) == s[k..]
  {
    if s != [] {
      WhereSuffix(s[1..], p, if k > 0 then k - 1 else 0);
    }
  }

  lemma {:induction false} MapLength<T, U>(s: seq<T>, f: T -> U)
    ensures |Map(s, f)| == |s| && forall i | 0 <= i < |s| :: Map(s, f)[i] == f(s[i])
  {
    if s != [] {
      MapLength(s[1..], f);
    }
  }

  lemma {:induction false} MapAppend<T, U>(a: seq<T>, b: seq<T>, f: T -> U)
    ensures Map(a + b, f) == Map(a, f) + Map(b, f)
  {
    if a == [] {
      assert a + b == b;
    } else {
      assert (a + b)[0] == a[0] && (a + b)[1..] == a[1..] + b;
      MapAppend(a[1..], b, f);
    }
  }

  lemma {:induction false} WhereCounts<T>(s: seq<T>, p: T -> bool)
    ensures forall x :: multiset(Where(s, p))[x] == if p(x) then multiset(s)[x] else 0
    ensures |Where(s, p)| <= |s|
  {
    if s != [] {
      WhereCounts(s[1..], p);
      assert s == [s[0]] + s[1..];
    }
  }

  /** The positions of the rows a filter keeps. */
  ghost function Positions<T>(s: seq<T>, p: T -> bool): set<nat> {
    set i: nat | i < |s| && p(s[i])
  }

  /** A filter keeps as many rows as there are positions where it holds. */
  lemma {:induction false} WhereHasPositions<T>(s: seq<T>, p: T -> bool)
    ensures |Where(s, p)| == |Positions(s, p)|
  {
    if s == [] {
      assert Positions(s, p) == {};
    } else {
      var n := |s| - 1;
      assert s == s[..n] + [s[n]];
      WhereAppend(s[..n], [s[n]], p);
      WhereHasPositions(s[..n], p);
      assert Positions(s, p) == Positions(s[..n], p) + if p(s[n]) then {n} else {};
    }
  }

  /** Ordering keeps the rows and their number. */
  lemma {:induction false} OrderByKeeps<T(!new)>(s: seq<T>, le: (T, T) -> bool)
    requires TotalOrder(le)
    ensures |OrderBy(s, le)| == |s|
    ensures forall x :: x in OrderBy(s, le) <==> x in s
  {
    OrderBySorts(s, le);
    var o := OrderBy(s, le);
    assert |multiset(o)| == |o| && |multiset(s)| == |s|;
    forall x ensures x in o <==> x in s {
      assert x in o <==> x in multiset(o);
      assert x in s <==> x in multiset(s);
    }
  }

  /** A row of one of two equal bags does not come before the head of the other, when that is sorted. */
  lemma {:induction false} HeadIsLeast<T(!new)>(a: seq<T>, b: seq<T>, le: (T, T) -> bool)
    requires TotalOrder(le) && Sorted(b, le) && a != [] && multiset(a) == multiset(b)
    ensures b != [] && le(b[0], a[0])
  {
    assert a[0] in multiset(b);
    var i :| 0 <= i < |b| && b[i] == a[0];
    assert i > 0 ==> le(b[0], b[i]);
  }

  lemma {:induction false} SameTail<T>(a: seq<T>, b: seq<T>)
    requires a != [] && b != [] && a[0] == b[0] && multiset(a) == multiset(b)
    ensures multiset(a[1..]) == multiset(b[1..])
  {
    assert a == [a[0]] + a[1..] && b == [b[0]] + b[1..];
    assert multiset(a[1..]) == multiset(a) - multiset{a[0]};
    assert multiset(b[1..]) == multiset(b) - multiset{b[0]};
  }

  /** A strict order has one sorted arrangement of each bag of rows. */
  lemma {:induction false} SortedUnique<T(!new)>(a: seq<T>, b: seq<T>, le: (T, T) -> bool)
    requires TotalOrder(le) && Antisymmetric(le) && Sorted(a, le) && Sorted(b, le)
    requires multiset(a) == multiset(b)
    ensures a == b
  {
    if a == [] {
      assert |b| == |multiset(b)| == 0;
    } else {
      HeadIsLeast(a, b, le);
      HeadIsLeast(b, a, le);
      SameTail(a, b);
      SortedUnique(a[1..], b[1..], le);
      assert a == [a[0]] + a[1..] && b == [b[0]] + b[1..];
    }
  }

  lemma {:induction false} OrderBySameBag<T(!new)>(a: seq<T>, b: seq<T>, le: (T, T) -> bool)
    requires TotalOrder(le) && Antisymmetric(le) && multiset(a) == multiset(b)
    ensures OrderBy(a, le) == OrderBy(b, le)
  {
    OrderBySorts(a, le);
    OrderBySorts(b, le);
    SortedUnique(OrderBy(a, le), OrderBy(b, le), le);
  }
}
