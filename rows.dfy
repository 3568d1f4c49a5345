/**
  The clauses of a query, as operations on a result set held as a sequence of
  rows: `COUNT(*) ... WHERE` and `SUM(CASE ...)` (Count),
  `ORDER BY` (SortBy) and `LIMIT` (Take).
 */
module Rows {

  /** The number of rows satisfying `p`. */
  function Count<T>(rows: seq<T>, p: T -> bool): (n: nat)
    ensures n <= |rows|
    ensures n == 0 <==> forall i :: 0 <= i < |rows| ==> !p(rows[i])
    ensures n == |rows| <==> forall i :: 0 <= i < |rows| ==> p(rows[i])
  {
    if rows == [] then 0 else (if p(rows[0]) then 1 else 0) + Count(rows[1..], p)
  }

  /** A single row counts once when it qualifies and not at all otherwise. */
  lemma CountSingle<T>(x: T, p: T -> bool)
    ensures Count([x], p) == if p(x) then 1 else 0
  {
  }

  /**
    Counting distributes over concatenation. With CountSingle this fixes
    the count of every sequence: one for each qualifying row.
   */
  lemma {:induction false} CountAppend<T>(a: seq<T>, b: seq<T>, p: T -> bool)
    ensures Count(a + b, p) == Count(a, p) + Count(b, p)
  {
    if a != [] {
      CountAppend(a[1..], b, p);
      assert (a + b)[0] == a[0];
      assert (a + b)[1..] == a[1..] + b;
    } else {
      assert a + b == b;
    }
  }

  /** Counting rows of two disjoint kinds never exceeds the number of rows. */
  lemma {:induction false} CountDisjoint<T>(rows: seq<T>, p: T -> bool, q: T -> bool)
    requires forall i :: 0 <= i < |rows| ==> !(p(rows[i]) && q(rows[i]))
    ensures Count(rows, p) + Count(rows, q) <= |rows|
  {
    if rows != [] {
      CountDisjoint(rows[1..], p, q);
    }
  }

  /** `LIMIT n`: the first `n` rows, or all of them when there are fewer. */
  function Take<T>(rows: seq<T>, n: nat): (r: seq<T>)
    ensures |r| == if |rows| <= n then |rows| else n
    ensures |rows| <= n ==> r == rows
    ensures forall i :: 0 <= i < |r| ==> r[i] == rows[i]
  {
    if |rows| <= n then rows else rows[..n]
  }

  /**
    The first `n` rows of a sorted sequence are some of its rows, and each
    comes before or ties with every row left out.
   */
  lemma TakeSorted<T>(s: seq<T>, n: nat, le: (T, T) -> bool)
    requires SortedBy(s, le)
    ensures multiset(Take(s, n)) <= multiset(s)
    ensures forall x, y :: x in Take(s, n) && y in multiset(s) - multiset(Take(s, n)) ==> le(x, y)
  {
    var r := Take(s, n);
    var k := |r|;
    assert s == r + s[k..];
    assert multiset(s) == multiset(r) + multiset(s[k..]);
    assert multiset(s) - multiset(r) == multiset(s[k..]);
    forall x, y | x in r && y in multiset(s) - multiset(r)
      ensures le(x, y)
    {
      var a :| 0 <= a < k && r[a] == x;
      assert y in s[k..];
      var b :| 0 <= b < |s| - k && s[k..][b] == y;
      assert s[a] == x && s[k + b] == y;
    }
  }

  /** `le` orders every pair of rows (ties allowed) and is transitive. */
  ghost predicate TotalPreorder<T(!new)>(le: (T, T) -> bool) {
    && (forall a, b :: le(a, b) || le(b, a))
    && (forall a, b, c :: le(a, b) && le(b, c) ==> le(a, c))
  }

  /** Every row comes before or ties with every later row. */
  predicate SortedBy<T>(s: seq<T>, le: (T, T) -> bool) {
    forall i, j :: 0 <= i < j < |s| ==> le(s[i], s[j])
  }

  function InsertBy<T(!new)>(x: T, s: seq<T>, le: (T, T) -> bool): (r: seq<T>)
    requires TotalPreorder(le) && SortedBy(s, le)
    ensures SortedBy(r, le)
    ensures multiset(r) == multiset(s) + multiset{x}
  {
    if s == [] then [x]
    else if le(x, s[0]) then
      assert forall j :: 0 <= j < |s| ==> le(x, s[j]);
      [x] + s
    else
      var rest := InsertBy(x, s[1..], le);
      assert s == [s[0]] + s[1..];
      assert le(s[0], x);
      assert forall j :: 0 <= j < |rest| ==> le(s[0], rest[j]) by {
        forall j | 0 <= j < |rest| ensures le(s[0], rest[j]) {
          assert rest[j] in multiset(rest);
        }
      }
      [s[0]] + rest
  }

  /**
    `ORDER BY`: the rows in an order that agrees with `le`. A SQL engine may
    return rows that tie under `le` in any order; the contract says no more
    than the clause does.
   */
  function SortBy<T(!new)>(s: seq<T>, le: (T, T) -> bool): (r: seq<T>)
    requires TotalPreorder(le)
    ensures SortedBy(r, le)
    ensures multiset(r) == multiset(s)
    ensures |r| == |s|
  {
    if s == [] then []
    else
      assert s == [s[0]] + s[1..];
      InsertBy(s[0], SortBy(s[1..], le), le)
  }
}
