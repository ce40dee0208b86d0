/** What the SQL statements of the handlers do to a table held as a sequence of rows:
    `SELECT * ... WHERE` keeps the matching rows, `UPDATE ... SET ... WHERE` rewrites them. */
module Tables {

  /** The rows a `SELECT ... WHERE keep` returns, each as often as it occurs in the table. */
  function Filter<T(!new)>(rows: seq<T>, keep: T -> bool): (r: seq<T>)
    ensures |r| <= |rows|
    ensures forall x :: x in r <==> x in rows && keep(x)
  {
    if rows == [] then []
    else
      assert rows == [rows[0]] + rows[1..];
      (if keep(rows[0]) then [rows[0]] else []) + Filter(rows[1..], keep)
  }

  /** The SELECT has bag semantics: a matching row comes back exactly as often as it is
      stored, a row that does not match never. */
  lemma {:induction false} FilterCounts<T(!new)>(rows: seq<T>, keep: T -> bool, x: T)
    ensures multiset(Filter(rows, keep))[x] == if keep(x) then multiset(rows)[x] else 0
  {
    if rows != [] {
      var head := if keep(rows[0]) then [rows[0]] else [];
      assert rows == [rows[0]] + rows[1..];
      assert Filter(rows, keep) == head + Filter(rows[1..], keep);
      FilterCounts(rows[1..], keep, x);
    }
  }

  /** The table after `UPDATE ... WHERE hit`: rows that match are rewritten by `change`,
      all others stay where and as they are. */
  function UpdateWhere<T>(rows: seq<T>, hit: T -> bool, change: T -> T): (r: seq<T>)
    ensures |r| == |rows|
    ensures forall i :: 0 <= i < |rows| ==> r[i] == if hit(rows[i]) then change(rows[i]) else rows[i]
  {
    if rows == [] then []
    else [if hit(rows[0]) then change(rows[0]) else rows[0]] + UpdateWhere(rows[1..], hit, change)
  }

  /** An INSERT followed by a SELECT: the new row comes after the rows that matched before. */
  lemma {:induction false} FilterAppend<T(!new)>(rows: seq<T>, x: T, keep: T -> bool)
    ensures Filter(rows + [x], keep) == Filter(rows, keep) + (if keep(x) then [x] else [])
  {
    var tail := if keep(x) then [x] else [];
    if rows == [] {
      assert rows + [x] == [x];
      assert Filter([x], keep) == tail + Filter([], keep);
    } else {
      var head := if keep(rows[0]) then [rows[0]] else [];
      var longer := rows + [x];
      assert longer[0] == rows[0] && longer[1..] == rows[1..] + [x];
      assert Filter(longer, keep) == head + Filter(rows[1..] + [x], keep);
      FilterAppend(rows[1..], x, keep);
      assert Filter(rows, keep) == head + Filter(rows[1..], keep);
    }
  }

  /** An UPDATE whose change keeps rows matching, followed by a SELECT with the same
      condition: the same rows come back, in the same order, each rewritten. */
  lemma {:induction false} FilterAfterUpdate<T(!new)>(rows: seq<T>, hit: T -> bool, change: T -> T)
    requires forall x :: hit(x) ==> hit(change(x))
    ensures |Filter(UpdateWhere(rows, hit, change), hit)| == |Filter(rows, hit)|
    ensures forall i :: 0 <= i < |Filter(rows, hit)| ==>
              Filter(UpdateWhere(rows, hit, change), hit)[i] == change(Filter(rows, hit)[i])
  {
    if rows != [] {
      var u := UpdateWhere(rows, hit, change);
      assert u[1..] == UpdateWhere(rows[1..], hit, change);
      FilterAfterUpdate(rows[1..], hit, change);
    }
  }

  /** An UPDATE that matches no row leaves the table as it was. */
  lemma UpdateWithoutHit<T>(rows: seq<T>, hit: T -> bool, change: T -> T)
    requires forall x :: x in rows ==> !hit(x)
    ensures UpdateWhere(rows, hit, change) == rows
  {
  }
}
