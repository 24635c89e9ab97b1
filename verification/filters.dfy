/**
  The selection filters `SelectColumnIsTrue`, `SelectColumnIsFalse`,
  `SelectColumnIsNull` and `SelectColumnIsNotNull`: each narrows the
  batch's active rows to those whose cell in one column satisfies the
  filter, rebuilding `selected` in ascending order. They write no column.
 */
module Filters {
  import opened Logic
  import opened Vectors

  datatype Filter = ColumnIsTrue | ColumnIsFalse | ColumnIsNull | ColumnIsNotNull

  /** Whether a row whose three-valued content is t survives filter f. */
  predicate Admits(f: Filter, t: Truth) {
    match f
    case ColumnIsTrue => t == True
    case ColumnIsFalse => t == False
    case ColumnIsNull => t == Null
    case ColumnIsNotNull => t != Null
  }

  /** The per-row test a filter's loop applies to a slot's raw value and null mark. */
  predicate Passes(f: Filter, value: int, isNull: bool) {
    match f
    case ColumnIsTrue => !isNull && value != 0
    case ColumnIsFalse => !isNull && value == 0
    case ColumnIsNull => isNull
    case ColumnIsNotNull => !isNull
  }

  /** The rows of rows, in their order, whose own slot of c passes f. With checkNulls false this
      is the no-nulls loop, which treats every row as non-null and never reads isNull. */
  function KeepRows(c: Column, f: Filter, rows: seq<nat>, checkNulls: bool): (kept: seq<nat>)
    requires |c.isNull| == |c.values| && Below(rows, |c.values|)
    ensures |kept| <= |rows| && Below(kept, |c.values|)
    ensures forall i :: i in kept <==> i in rows && Passes(f, c.values[i], checkNulls && c.isNull[i])
    ensures Ascending(rows) ==> Ascending(kept)
  {
    if rows == [] then []
    else
      assert rows == [rows[0]] + rows[1..];
      var rest := KeepRows(c, f, rows[1..], checkNulls);
      assert Ascending(rows) ==> forall k :: 0 <= k < |rest| ==> rows[0] < rest[k] by {
        if Ascending(rows) {
          forall k | 0 <= k < |rest|
            ensures rows[0] < rest[k]
          {
            assert rest[k] in rows[1..];
          }
        }
      }
      if Passes(f, c.values[rows[0]], checkNulls && c.isNull[rows[0]]) then [rows[0]] + rest else rest
  }

  /** The active rows of b that survive filter f on column colNum, in ascending order. A
      repeating column is tested once, at slot 0, keeping all active rows or none; a column
      without nulls is tested on its values alone; otherwise every active row is tested on its
      value and null mark. */
  function Survivors(b: Batch, colNum: nat, f: Filter): (kept: seq<nat>)
    requires WellFormed(b) && colNum < |b.cols|
    ensures |kept| <= b.size
    ensures Ascending(kept) && Below(kept, Capacity(b))
    ensures forall i :: i in kept <==> i in ActiveRows(b) && Admits(f, Cell(b.cols[colNum], i))
  {
    var c := b.cols[colNum];
    var rows := ActiveRows(b);
    if c.isRepeating then
      if Passes(f, c.values[0], !c.noNulls && c.isNull[0]) then rows else []
    else if c.noNulls then KeepRows(c, f, rows, false)
    else KeepRows(c, f, rows, true)
  }

  /** `new SelectColumnIs...(colNum).evaluate(b)` for the filter f: the survivors overwrite the
      front of the selection buffer, which comes into use. */
  function Select(b: Batch, colNum: nat, f: Filter): (b': Batch)
    requires WellFormed(b) && colNum < |b.cols|
    ensures WellFormed(b')
    ensures b'.cols == b.cols && b'.selectedInUse && |b'.selected| == |b.selected|
    ensures b'.size <= b.size
    ensures forall i :: i in ActiveRows(b') <==> i in ActiveRows(b) && Admits(f, Cell(b.cols[colNum], i))
  {
    var kept := Survivors(b, colNum, f);
    var selected := kept + b.selected[|kept|..];
    assert selected[..|kept|] == kept;
    b.(size := |kept|, selected := selected, selectedInUse := true)
  }

  /** The first entry of an ascending sequence is its least. */
  lemma HeadIsLeast(s: seq<nat>, x: nat)
    requires Ascending(s) && x in s
    ensures s[0] <= x
  {
  }

  /** The tail of a non-empty ascending sequence holds exactly its entries above the head. */
  lemma TailIsAbove(s: seq<nat>, x: nat)
    requires Ascending(s) && s != []
    ensures x in s[1..] <==> x in s && s[0] < x
  {
    if x in s && s[0] < x {
      var k :| 0 <= k < |s| && s[k] == x;
      assert s[1..][k - 1] == x;
    }
  }

  /** Sequences with the same elements are empty together. */
  lemma SameEmptiness(s: seq<nat>, t: seq<nat>)
    requires forall i :: i in s <==> i in t
    ensures s == [] <==> t == []
  {
    assert |s| > 0 ==> s[0] in t;
    assert |t| > 0 ==> t[0] in s;
  }

  /** An ascending sequence is determined by its elements. */
  lemma {:induction false} AscendingUnique(s: seq<nat>, t: seq<nat>)
    requires Ascending(s) && Ascending(t)
    requires forall i :: i in s <==> i in t
    ensures s == t
    decreases |s|
  {
    SameEmptiness(s, t);
    if s != [] {
      HeadIsLeast(s, t[0]);
      HeadIsLeast(t, s[0]);
      forall i: nat
        ensures i in s[1..] <==> i in t[1..]
      {
        TailIsAbove(s, i);
        TailIsAbove(t, i);
      }
      AscendingUnique(s[1..], t[1..]);
      assert s == [s[0]] + s[1..] && t == [t[0]] + t[1..];
    }
  }

  /** Of the three-valued outcomes, exactly one of IS TRUE, IS FALSE and IS NULL holds, and
      IS NOT NULL holds exactly when IS NULL does not. */
  lemma FiltersPartition(t: Truth)
    ensures Admits(ColumnIsTrue, t) || Admits(ColumnIsFalse, t) || Admits(ColumnIsNull, t)
    ensures !(Admits(ColumnIsTrue, t) && Admits(ColumnIsFalse, t))
    ensures !(Admits(ColumnIsTrue, t) && Admits(ColumnIsNull, t))
    ensures !(Admits(ColumnIsFalse, t) && Admits(ColumnIsNull, t))
    ensures Admits(ColumnIsNotNull, t) != Admits(ColumnIsNull, t)
  {
  }

  /** The survivors of IS NULL and of IS NOT NULL, and those of IS TRUE, IS FALSE and IS NULL,
      split the same rows with nothing counted twice. */
  lemma {:induction false} KeepRowsCounts(c: Column, rows: seq<nat>, checkNulls: bool)
    requires |c.isNull| == |c.values| && Below(rows, |c.values|)
    ensures |KeepRows(c, ColumnIsNull, rows, checkNulls)| + |KeepRows(c, ColumnIsNotNull, rows, checkNulls)| == |rows|
    ensures |KeepRows(c, ColumnIsTrue, rows, checkNulls)| + |KeepRows(c, ColumnIsFalse, rows, checkNulls)|
            + |KeepRows(c, ColumnIsNull, rows, checkNulls)| == |rows|
    decreases |rows|
  {
    if rows != [] {
      assert rows == [rows[0]] + rows[1..];
      KeepRowsCounts(c, rows[1..], checkNulls);
    }
  }

  /** Applied to copies of one batch, IS NULL and IS NOT NULL split its active rows between them,
      as do IS TRUE, IS FALSE and IS NULL: the survivors' counts add up to the batch size, and
      every active row survives IS NULL or IS NOT NULL. */
  lemma SelectPartitionsActiveRows(b: Batch, colNum: nat)
    requires WellFormed(b) && colNum < |b.cols|
    ensures Select(b, colNum, ColumnIsNull).size + Select(b, colNum, ColumnIsNotNull).size == b.size
    ensures Select(b, colNum, ColumnIsTrue).size + Select(b, colNum, ColumnIsFalse).size
            + Select(b, colNum, ColumnIsNull).size == b.size
    ensures forall i :: i in ActiveRows(b) <==>
              i in ActiveRows(Select(b, colNum, ColumnIsNull)) || i in ActiveRows(Select(b, colNum, ColumnIsNotNull))
  {
    var c := b.cols[colNum];
    var rows := ActiveRows(b);
    if c.isRepeating {
      FiltersPartition(Cell(c, 0));
    } else {
      KeepRowsCounts(c, rows, !c.noNulls);
    }
  }

  /** Filters compose: filtering an already filtered batch keeps the rows that pass both. */
  lemma SelectComposes(b: Batch, c1: nat, f1: Filter, c2: nat, f2: Filter)
    requires WellFormed(b) && c1 < |b.cols| && c2 < |b.cols|
    ensures var b'' := Select(Select(b, c1, f1), c2, f2);
            forall i :: i in ActiveRows(b'') <==>
              i in ActiveRows(b) && Admits(f1, Cell(b.cols[c1], i)) && Admits(f2, Cell(b.cols[c2], i))
  {
  }
}
