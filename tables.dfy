/** Rows of a table and the queries the store runs over them: keep the rows
    that match a condition, then order them newest first by `createdAt`. */
module Tables {
  import opened Results

  /** Strictly oldest first: the order in which a table whose `createdAt`
      comes from a monotone clock was filled. */
  predicate OldestFirst<T>(rows: seq<T>, stamp: T -> nat)
  {
    forall i, j :: 0 <= i < j < |rows| ==> stamp(rows[i]) < stamp(rows[j])
  }

  /** The order of `ORDER BY created_at DESC`. */
  predicate NewestFirst<T>(rows: seq<T>, stamp: T -> nat)
  {
    forall i, j :: 0 <= i < j < |rows| ==> stamp(rows[i]) >= stamp(rows[j])
  }

  /** Filled oldest first, and every stamp is earlier than the clock. */
  predicate Chronological<T>(rows: seq<T>, stamp: T -> nat, clock: nat)
  {
    OldestFirst(rows, stamp) && forall i :: 0 <= i < |rows| ==> stamp(rows[i]) < clock
  }

  /** No two rows share a key: a primary key or a `unique()` column. */
  predicate KeysUnique<T, K(==)>(rows: seq<T>, key: T -> K)
  {
    forall i, j :: 0 <= i < j < |rows| ==> key(rows[i]) != key(rows[j])
  }

  /** `WHERE keep(row)`: the matching rows, in table order. */
  function Filter<T(!new)>(rows: seq<T>, keep: T -> bool): (r: seq<T>)
    ensures |r| <= |rows|
    ensures forall x :: x in r <==> x in rows && keep(x)
  {
    if rows == [] then []
    else
      var init, last := rows[..|rows| - 1], rows[|rows| - 1];
      assert rows == init + [last];
      Filter(init, keep) + (if keep(last) then [last] else [])
  }

  /** `const [row] = await db.select()...where(...)`: the first matching row, if any. */
  function First<T>(rows: seq<T>, keep: T -> bool): (r: Option<T>)
    ensures r.None? <==> forall x :: x in rows ==> !keep(x)
    ensures r.Some? ==> r.value in rows && keep(r.value)
  {
    if rows == [] then None
    else if keep(rows[0]) then Some(rows[0])
    else First(rows[1..], keep)
  }

  function Reverse<T>(s: seq<T>): (r: seq<T>)
    ensures |r| == |s|
    ensures forall i :: 0 <= i < |s| ==> r[i] == s[|s| - 1 - i]
  {
    if s == [] then [] else Reverse(s[1..]) + [s[0]]
  }

  /** Inserts `x` into a newest-first sequence, before the first row that is
      not newer than it. */
  function InsertByStamp<T(==,!new)>(x: T, sorted: seq<T>, stamp: T -> nat): (r: seq<T>)
    requires NewestFirst(sorted, stamp)
    ensures NewestFirst(r, stamp)
    ensures forall y :: y in r <==> y == x || y in sorted
    ensures multiset(r) == multiset(sorted) + multiset{x}
  {
    if sorted == [] || stamp(x) >= stamp(sorted[0]) then [x] + sorted
    else
      var head, rest := sorted[0], InsertByStamp(x, sorted[1..], stamp);
      assert sorted == [head] + sorted[1..];
      assert forall y :: y in rest ==> stamp(y) <= stamp(head) by {
        forall y | y in rest ensures stamp(y) <= stamp(head) {
          if y != x {
            var k :| 0 <= k < |sorted[1..]| && sorted[1..][k] == y;
            assert sorted[k + 1] == y;
          }
        }
      }
      [head] + rest
  }

  /** `ORDER BY created_at DESC` as an insertion sort. */
  function SortNewestFirst<T(==,!new)>(rows: seq<T>, stamp: T -> nat): (r: seq<T>)
    ensures NewestFirst(r, stamp)
    ensures multiset(r) == multiset(rows)
  {
    if rows == [] then []
    else
      assert rows == [rows[0]] + rows[1..];
      InsertByStamp(rows[0], SortNewestFirst(rows[1..], stamp), stamp)
  }

  /** A `get*` query of the store: filter, then newest first. */
  function Query<T(==,!new)>(rows: seq<T>, keep: T -> bool, stamp: T -> nat): (r: seq<T>)
    ensures forall x :: x in r <==> x in rows && keep(x)
    ensures multiset(r) == multiset(Filter(rows, keep))
    ensures NewestFirst(r, stamp)
  {
    var r := SortNewestFirst(Filter(rows, keep), stamp);
    assert forall x :: x in r <==> x in multiset(Filter(rows, keep));
    r
  }

  lemma FilterAppend<T(!new)>(rows: seq<T>, x: T, keep: T -> bool)
    ensures Filter(rows + [x], keep) == Filter(rows, keep) + (if keep(x) then [x] else [])
  {
    assert (rows + [x])[..|rows|] == rows;
  }

  /** A filter keeps the relative order of the rows it keeps. */
  lemma {:induction false} FilterOldestFirst<T(!new)>(rows: seq<T>, keep: T -> bool, stamp: T -> nat)
    requires OldestFirst(rows, stamp)
    ensures OldestFirst(Filter(rows, keep), stamp)
  {
    if rows != [] {
      var init, last := rows[..|rows| - 1], rows[|rows| - 1];
      assert rows == init + [last];
      FilterOldestFirst(init, keep, stamp);
      forall y | y in Filter(init, keep)
        ensures stamp(y) < stamp(last)
      {
        var i :| 0 <= i < |init| && init[i] == y;
        assert rows[i] == y;
      }
    }
  }

  /** Sorting a row older than everything into a newest-first sequence puts it last. */
  lemma {:induction false} InsertOldest<T(!new)>(x: T, sorted: seq<T>, stamp: T -> nat)
    requires NewestFirst(sorted, stamp)
    requires forall y :: y in sorted ==> stamp(x) < stamp(y)
    ensures InsertByStamp(x, sorted, stamp) == sorted + [x]
  {
    if sorted != [] {
      InsertOldest(x, sorted[1..], stamp);
      assert sorted == [sorted[0]] + sorted[1..];
    }
  }

  /** On a table filled oldest first, newest first is the reverse of table order. */
  lemma {:induction false} SortOldestFirst<T(!new)>(rows: seq<T>, stamp: T -> nat)
    requires OldestFirst(rows, stamp)
    ensures SortNewestFirst(rows, stamp) == Reverse(rows)
  {
    if rows != [] {
      var rest := rows[1..];
      SortOldestFirst(rest, stamp);
      var sorted := SortNewestFirst(rest, stamp);
      forall y | y in sorted
        ensures stamp(rows[0]) < stamp(y)
      {
        var i :| 0 <= i < |sorted| && sorted[i] == y;
        assert y == rows[|rest| - i];
      }
      InsertOldest(rows[0], sorted, stamp);
    }
  }

  /** On a table filled oldest first, a query returns the matching rows in
      reverse table order. */
  lemma QueryOldestFirst<T(!new)>(rows: seq<T>, keep: T -> bool, stamp: T -> nat)
    requires OldestFirst(rows, stamp)
    ensures Query(rows, keep, stamp) == Reverse(Filter(rows, keep))
  {
    FilterOldestFirst(rows, keep, stamp);
    SortOldestFirst(Filter(rows, keep), stamp);
  }

  lemma ReverseAppend<T>(s: seq<T>, x: T)
    ensures Reverse(s + [x]) == [x] + Reverse(s)
  {
  }

  /** Appending the newest row puts it at the head of every query that matches it,
      and leaves every other query as it was. */
  lemma QueryAppend<T(!new)>(rows: seq<T>, x: T, keep: T -> bool, stamp: T -> nat)
    requires OldestFirst(rows + [x], stamp)
    ensures Query(rows + [x], keep, stamp) == (if keep(x) then [x] else []) + Query(rows, keep, stamp)
  {
    assert OldestFirst(rows, stamp) by {
      forall i, j | 0 <= i < j < |rows| ensures stamp(rows[i]) < stamp(rows[j]) {
        assert rows[i] == (rows + [x])[i] && rows[j] == (rows + [x])[j];
      }
    }
    QueryOldestFirst(rows + [x], keep, stamp);
    QueryOldestFirst(rows, keep, stamp);
    FilterAppend(rows, x, keep);
    if keep(x) {
      ReverseAppend(Filter(rows, keep), x);
    }
  }

  /** A filter depends only on the verdicts of its condition. */
  lemma {:induction false} FilterSameCondition<T(!new)>(rows: seq<T>, f: T -> bool, g: T -> bool)
    requires forall x :: x in rows ==> f(x) == g(x)
    ensures Filter(rows, f) == Filter(rows, g)
  {
    if rows != [] {
      FilterSameCondition(rows[..|rows| - 1], f, g);
    }
  }

  /** When exactly one row matches, `First` finds it. */
  lemma FirstOfUnique<T>(rows: seq<T>, keep: T -> bool, i: nat)
    requires i < |rows| && keep(rows[i])
    requires forall j :: 0 <= j < |rows| && keep(rows[j]) ==> j == i
    ensures First(rows, keep) == Some(rows[i])
  {
    var r := First(rows, keep);
    var j :| 0 <= j < |rows| && rows[j] == r.value;
  }
}
