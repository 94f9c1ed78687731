/**
 * Generated-column filtering in the SQL export plugin. Generated columns
 * cannot be written by INSERT, so a table export leaves them out of the
 * column list and remembers their positions; each data row then drops the
 * values at exactly those positions. The INSERT statement is well formed
 * because both lists are filtered by the same positions.
 */
module ColumnFilter {
  import opened QtText

  /** A column whose name the table definition lists among its generated
      columns, ignoring case. */
  predicate IsGenerated(generated: seq<string>, name: string)
  {
    ContainsIgnoringCase(generated, name)
  }

  predicate StrictlyIncreasing(xs: seq<int>)
  {
    forall i, j :: 0 <= i < j < |xs| ==> xs[i] < xs[j]
  }

  /** The positions of the generated columns, as the export loop collects
      them: one column after the other. */
  function GeneratedIndexes(names: seq<string>, generated: seq<string>): (r: seq<int>)
    ensures |r| <= |names|
    ensures forall k :: 0 <= k < |r| ==> 0 <= r[k] < |names| && IsGenerated(generated, names[r[k]])
    decreases |names|
  {
    if |names| == 0 then []
    else
      var n := |names| - 1;
      GeneratedIndexes(names[..n], generated) + (if IsGenerated(generated, names[n]) then [n] else [])
  }

  /** A position is collected exactly when it is a column of the table and
      that column is generated. */
  lemma {:induction false} GeneratedIndexesExact(names: seq<string>, generated: seq<string>)
    ensures forall i :: i in GeneratedIndexes(names, generated) <==>
      0 <= i < |names| && IsGenerated(generated, names[i])
    decreases |names|
  {
    if |names| > 0 {
      var n := |names| - 1;
      var front := names[..n];
      GeneratedIndexesExact(front, generated);
      var r, f := GeneratedIndexes(names, generated), GeneratedIndexes(front, generated);
      assert r == f + (if IsGenerated(generated, names[n]) then [n] else []);
      forall i | 0 <= i < n && IsGenerated(generated, names[i])
        ensures i in r
      {
        assert front[i] == names[i];
        assert i in f;
      }
      forall i | i in r
        ensures 0 <= i < |names| && IsGenerated(generated, names[i])
      {
        var k :| 0 <= k < |r| && r[k] == i;
      }
    }
  }

  /** The positions come in increasing order, as the loop visits them. */
  lemma {:induction false} GeneratedIndexesIncreasing(names: seq<string>, generated: seq<string>)
    ensures StrictlyIncreasing(GeneratedIndexes(names, generated))
    decreases |names|
  {
    if |names| > 0 {
      var n := |names| - 1;
      GeneratedIndexesIncreasing(names[..n], generated);
      var r, f := GeneratedIndexes(names, generated), GeneratedIndexes(names[..n], generated);
      assert r == f + (if IsGenerated(generated, names[n]) then [n] else []);
      forall i, j | 0 <= i < j < |r|
        ensures r[i] < r[j]
      {
        if j < |f| {
          assert r[i] == f[i] && r[j] == f[j];
        } else {
          assert r[i] == f[i] < n == r[j];
        }
      }
    }
  }

  /** The names of the columns an INSERT may write, in table order. */
  function KeptColumns(names: seq<string>, generated: seq<string>): (r: seq<string>)
    ensures |r| + |GeneratedIndexes(names, generated)| == |names|
    ensures forall k :: 0 <= k < |r| ==> r[k] in names && !IsGenerated(generated, r[k])
    decreases |names|
  {
    if |names| == 0 then []
    else
      var n := |names| - 1;
      KeptColumns(names[..n], generated) + (if IsGenerated(generated, names[n]) then [] else [names[n]])
  }

  /** The items of xs whose positions are not listed in positions, in order:
      the loop that skips a value when its counter is a listed position. */
  function DropPositions<T>(xs: seq<T>, positions: seq<int>): (r: seq<T>)
    ensures |r| <= |xs|
    ensures forall k :: 0 <= k < |r| ==> r[k] in xs
    ensures (forall i :: 0 <= i < |xs| ==> i !in positions) ==> r == xs
    decreases |xs|
  {
    if |xs| == 0 then []
    else
      var n := |xs| - 1;
      DropPositions(xs[..n], positions) + (if n in positions then [] else [xs[n]])
  }

  /** The positions below n that are not listed, in increasing order. */
  function KeptPositions(n: nat, positions: seq<int>): (r: seq<nat>)
    ensures forall k :: 0 <= k < |r| ==> r[k] < n && r[k] !in positions
    ensures forall p :: 0 <= p < n && p !in positions ==> p in r
    ensures forall i, j :: 0 <= i < j < |r| ==> r[i] < r[j]
  {
    if n == 0 then []
    else KeptPositions(n - 1, positions) + (if n - 1 in positions then [] else [n - 1])
  }

  /** Dropping positions picks exactly the kept positions, in order. */
  lemma {:induction false} DropPicksKept<T>(xs: seq<T>, positions: seq<int>)
    ensures var kept := KeptPositions(|xs|, positions);
      && |DropPositions(xs, positions)| == |kept|
      && forall k :: 0 <= k < |kept| ==> DropPositions(xs, positions)[k] == xs[kept[k]]
    decreases |xs|
  {
    if |xs| > 0 {
      var n := |xs| - 1;
      var front := xs[..n];
      DropPicksKept(front, positions);
      var dropped, kept := DropPositions(front, positions), KeptPositions(n, positions);
      assert DropPositions(xs, positions) == dropped + (if n in positions then [] else [xs[n]]);
      assert KeptPositions(|xs|, positions) == kept + (if n in positions then [] else [n]);
      forall k | 0 <= k < |kept|
        ensures dropped[k] == xs[kept[k]]
      {
        assert front[kept[k]] == xs[kept[k]];
      }
    }
  }

  /** Only the membership of the positions inside xs matters. */
  lemma {:induction false} DropDependsOnMembership<T>(xs: seq<T>, p: seq<int>, q: seq<int>)
    requires forall i :: 0 <= i < |xs| ==> (i in p <==> i in q)
    ensures DropPositions(xs, p) == DropPositions(xs, q)
    decreases |xs|
  {
    if |xs| > 0 {
      DropDependsOnMembership(xs[..|xs| - 1], p, q);
    }
  }

  /** Every position lands in exactly one place: its index among the
      generated indexes, or its name among the kept columns. */
  lemma {:induction false} KeptIsDropGenerated(names: seq<string>, generated: seq<string>)
    ensures KeptColumns(names, generated) == DropPositions(names, GeneratedIndexes(names, generated))
    decreases |names|
  {
    if |names| > 0 {
      var n := |names| - 1;
      var front := names[..n];
      KeptIsDropGenerated(front, generated);
      GeneratedIndexesExact(names, generated);
      GeneratedIndexesExact(front, generated);
      var all, part := GeneratedIndexes(names, generated), GeneratedIndexes(front, generated);
      forall i | 0 <= i < |front|
        ensures i in part <==> i in all
      {
        assert front[i] == names[i];
      }
      DropDependsOnMembership(front, part, all);
      assert n in all <==> IsGenerated(generated, names[n]);
    }
  }

  /** The INSERT of a full-width row is aligned: the k-th value left after
      dropping the generated positions comes from the same row position as
      the k-th column left in the column list. */
  lemma InsertAligned<V>(names: seq<string>, generated: seq<string>, row: seq<V>)
    requires |row| == |names|
    ensures var idx := GeneratedIndexes(names, generated);
      var cols, vals, kept := KeptColumns(names, generated), DropPositions(row, idx), KeptPositions(|names|, idx);
      && |cols| == |vals| == |kept|
      && forall k :: 0 <= k < |kept| ==> cols[k] == names[kept[k]] && vals[k] == row[kept[k]]
  {
    var idx := GeneratedIndexes(names, generated);
    KeptIsDropGenerated(names, generated);
    DropPicksKept(names, idx);
    DropPicksKept(row, idx);
  }

  /** The names of the columns that carry a GENERATED constraint, as the
      six-argument table export collects them. */
  function GeneratedColumnNames(columns: seq<ColumnDef>): (r: seq<string>)
    ensures |r| <= |columns|
    ensures forall k :: 0 <= k < |r| ==> ColumnDef(r[k], true) in columns
    decreases |columns|
  {
    if |columns| == 0 then []
    else
      var n := |columns| - 1;
      GeneratedColumnNames(columns[..n]) + (if columns[n].generated then [columns[n].name] else [])
  }

  /** A name is collected exactly when some column of that name is
      generated. */
  lemma {:induction false} GeneratedColumnNamesExact(columns: seq<ColumnDef>, x: string)
    ensures x in GeneratedColumnNames(columns) <==>
      exists i :: 0 <= i < |columns| && columns[i].generated && columns[i].name == x
    decreases |columns|
  {
    if |columns| > 0 {
      var n := |columns| - 1;
      var front := columns[..n];
      GeneratedColumnNamesExact(front, x);
      if x in GeneratedColumnNames(front) {
        var i :| 0 <= i < |front| && front[i].generated && front[i].name == x;
        assert columns[i] == front[i];
      }
      if exists i :: 0 <= i < |columns| && columns[i].generated && columns[i].name == x {
        var i :| 0 <= i < |columns| && columns[i].generated && columns[i].name == x;
        if i < n {
          assert front[i] == columns[i];
        }
      }
    }
  }

  /** A column of a parsed CREATE TABLE: its name and whether it has a
      GENERATED constraint. */
  datatype ColumnDef = ColumnDef(name: string, generated: bool)
}
