/**
  The value-producing logical expressions over long-encoded boolean
  columns: OR of two columns (`ColOrCol`), NOT of a column (`NotCol`) and
  the IS NULL test (`IsNull`). Each reads its inputs through their flags,
  writes a new output column over the batch's active rows and recomputes
  the output's `noNulls` and `isRepeating` flags from the inputs', never
  trusting the output's stale ones.
 */
module Expressions {
  import opened Logic
  import opened Vectors

  /** Raw OR of two encoded values, ignoring nullity. */
  function OrBits(a: int, b: int): int {
    if a != 0 || b != 0 then 1 else 0
  }

  /** Raw negation of an encoded value, ignoring nullity. */
  function NotBit(a: int): int {
    if a == 0 then 1 else 0
  }

  /** x and y can be read at every slot below the capacity of out, which is positive. */
  predicate Compatible(x: Column, y: Column, out: Column) {
    0 < |out.values| && Fits(out, |out.values|) && Fits(x, |out.values|) && Fits(y, |out.values|)
  }

  /** The slots an operator writes: slot 0 alone when its output repeats, else every active row. */
  function Targets(repeating: bool, rows: seq<nat>): seq<nat> {
    if repeating then [0] else rows
  }

  /** c and out agree at every slot the operator did not write. */
  predicate KeepsUnwritten(c: Column, out: Column, written: seq<nat>)
    requires Fits(c, |out.values|) && Fits(out, |out.values|)
  {
    forall j :: 0 <= j < |out.values| && j !in written ==> c.values[j] == out.values[j] && c.isNull[j] == out.isNull[j]
  }

  /** Null correction of OR at row i: a non-null true on either side makes the row non-null;
      otherwise the row is null when either side is. */
  predicate OrNullAt(x: Column, y: Column, i: nat)
    requires i < |x.values| && i < |x.isNull| && i < |y.values| && i < |y.isNull|
  {
    var xTrue := !NullAt(x, i) && x.values[Slot(x, i)] != 0;
    var yTrue := !NullAt(y, i) && y.values[Slot(y, i)] != 0;
    !xTrue && !yTrue && (NullAt(x, i) || NullAt(y, i))
  }

  /** At row i, the raw OR of the slots is the encoded three-valued OR whenever that is not null,
      and the null correction marks exactly the rows where it is null. */
  lemma OrRowAgrees(x: Column, y: Column, i: nat)
    requires i < |x.values| && i < |x.isNull| && i < |y.values| && i < |y.isNull|
    ensures OrNullAt(x, y, i) <==> Or(Cell(x, i), Cell(y, i)) == Null
    ensures Or(Cell(x, i), Cell(y, i)) != Null ==> OrBits(x.values[Slot(x, i)], y.values[Slot(y, i)]) == Bit(Or(Cell(x, i), Cell(y, i)))
  {
  }

  /** OR of columns x and y over rows into the buffers of out. The output repeats only when both
      inputs do. With no nulls on either side the raw OR is written and isNull is left alone;
      otherwise the raw OR is written and then the null-corrected nullity of every row. */
  function OrColumns(x: Column, y: Column, out: Column, rows: seq<nat>): (r: Column)
    requires Compatible(x, y, out) && Below(rows, |out.values|)
    ensures Fits(r, |out.values|)
    ensures r.noNulls == (x.noNulls && y.noNulls)
    ensures r.isRepeating == (x.isRepeating && y.isRepeating)
    ensures forall i :: i in rows ==> Holds(r, i, Or(Cell(x, i), Cell(y, i)))
    ensures KeepsUnwritten(r, out, Targets(r.isRepeating, rows))
  {
    var n := |out.values|;
    var repeating := x.isRepeating && y.isRepeating;
    var targets := Targets(repeating, rows);
    var raw := seq(n, i requires 0 <= i < n => OrBits(x.values[Slot(x, i)], y.values[Slot(y, i)]));
    var values := Scatter(out.values, targets, raw);
    var r := if x.noNulls && y.noNulls then Column(values, out.isNull, true, repeating)
             else Column(values, Scatter(out.isNull, targets, seq(n, i requires 0 <= i < n => OrNullAt(x, y, i))), false, repeating);
    assert forall i :: i in rows ==> Holds(r, i, Or(Cell(x, i), Cell(y, i))) by {
      forall i | i in rows
        ensures Holds(r, i, Or(Cell(x, i), Cell(y, i)))
      {
        OrRowAgrees(x, y, i);
        assert Slot(r, i) in targets;
      }
    }
    r
  }

  /** NOT of column x over rows into the buffers of out: each value is negated and, when x may
      hold nulls, its nullity is copied unchanged. A repeating input gives a repeating output. */
  function NotColumn(x: Column, out: Column, rows: seq<nat>): (r: Column)
    requires Compatible(x, x, out) && Below(rows, |out.values|)
    ensures Fits(r, |out.values|)
    ensures r.noNulls == x.noNulls
    ensures r.isRepeating == x.isRepeating
    ensures forall i :: i in rows ==> Holds(r, i, Not(Cell(x, i)))
    ensures KeepsUnwritten(r, out, Targets(r.isRepeating, rows))
  {
    var n := |out.values|;
    var targets := Targets(x.isRepeating, rows);
    var negated := seq(n, i requires 0 <= i < n => NotBit(x.values[i]));
    var values := Scatter(out.values, targets, negated);
    if x.noNulls then
      Column(values, out.isNull, true, x.isRepeating)
    else
      Column(values, Scatter(out.isNull, targets, x.isNull), false, x.isRepeating)
  }

  /** The IS NULL test of column x over rows into the buffers of out: 1 where the row is null,
      0 elsewhere, and 0 everywhere without reading isNull when x has no nulls. The output
      never holds nulls and repeats exactly when x does. */
  function IsNullColumn(x: Column, out: Column, rows: seq<nat>): (r: Column)
    requires Compatible(x, x, out) && Below(rows, |out.values|)
    ensures Fits(r, |out.values|)
    ensures r.noNulls
    ensures r.isRepeating == x.isRepeating
    ensures forall i :: i in rows ==> r.values[Slot(r, i)] == (if Cell(x, i) == Null then 1 else 0)
    ensures KeepsUnwritten(r, out, Targets(r.isRepeating, rows))
  {
    var n := |out.values|;
    var targets := Targets(x.isRepeating, rows);
    var tests :=
      if x.noNulls then seq(n, i => 0)
      else seq(n, i requires 0 <= i < n => if x.isNull[i] then 1 else 0);
    var values := Scatter(out.values, targets, tests);
    Column(values, out.isNull, true, x.isRepeating)
  }

  /** The operands exist in b, which is well formed. */
  predicate Operands(b: Batch, c1: nat, c2: nat, o: nat) {
    WellFormed(b) && c1 < |b.cols| && c2 < |b.cols| && o < |b.cols|
  }

  /** b' is b with at most column o replaced; the active-row view is untouched. */
  predicate OnlyColumnReplaced(b: Batch, b': Batch, o: nat) {
    && b'.size == b.size
    && b'.selected == b.selected
    && b'.selectedInUse == b.selectedInUse
    && |b'.cols| == |b.cols|
    && forall k :: 0 <= k < |b.cols| && k != o ==> b'.cols[k] == b.cols[k]
  }

  /** `new ColOrCol(colNum1, colNum2, outputColumn).evaluate(b)`. */
  function ColOrCol(b: Batch, colNum1: nat, colNum2: nat, outputColumn: nat): (b': Batch)
    requires Operands(b, colNum1, colNum2, outputColumn)
    ensures WellFormed(b') && OnlyColumnReplaced(b, b', outputColumn)
    ensures b'.cols[outputColumn].noNulls == (b.cols[colNum1].noNulls && b.cols[colNum2].noNulls)
    ensures b'.cols[outputColumn].isRepeating == (b.cols[colNum1].isRepeating && b.cols[colNum2].isRepeating)
    ensures forall i :: i in ActiveRows(b) ==>
              Holds(b'.cols[outputColumn], i, Or(Cell(b.cols[colNum1], i), Cell(b.cols[colNum2], i)))
  {
    var out := OrColumns(b.cols[colNum1], b.cols[colNum2], b.cols[outputColumn], ActiveRows(b));
    b.(cols := b.cols[outputColumn := out])
  }

  /** `new NotCol(colNum, outputColumn).evaluate(b)`. */
  function NotCol(b: Batch, colNum: nat, outputColumn: nat): (b': Batch)
    requires Operands(b, colNum, colNum, outputColumn)
    ensures WellFormed(b') && OnlyColumnReplaced(b, b', outputColumn)
    ensures b'.cols[outputColumn].noNulls == b.cols[colNum].noNulls
    ensures b'.cols[outputColumn].isRepeating == b.cols[colNum].isRepeating
    ensures forall i :: i in ActiveRows(b) ==> Holds(b'.cols[outputColumn], i, Not(Cell(b.cols[colNum], i)))
  {
    var out := NotColumn(b.cols[colNum], b.cols[outputColumn], ActiveRows(b));
    b.(cols := b.cols[outputColumn := out])
  }

  /** `new IsNull(colNum, outputColumn).evaluate(b)`. */
  function IsNull(b: Batch, colNum: nat, outputColumn: nat): (b': Batch)
    requires Operands(b, colNum, colNum, outputColumn)
    ensures WellFormed(b') && OnlyColumnReplaced(b, b', outputColumn)
    ensures b'.cols[outputColumn].noNulls
    ensures b'.cols[outputColumn].isRepeating == b.cols[colNum].isRepeating
    ensures forall i :: i in ActiveRows(b) ==>
              b'.cols[outputColumn].values[Slot(b'.cols[outputColumn], i)] == (if Cell(b.cols[colNum], i) == Null then 1 else 0)
  {
    var out := IsNullColumn(b.cols[colNum], b.cols[outputColumn], ActiveRows(b));
    b.(cols := b.cols[outputColumn := out])
  }

  /** The general-path form of x over rows: not repeating, nullity spelled out in isNull, every
      listed row held in its own slot. */
  function Expand(x: Column, rows: seq<nat>): (e: Column)
    requires Fits(x, |x.values|) && Below(rows, |x.values|)
    ensures Fits(e, |x.values|) && !e.isRepeating && !e.noNulls
    ensures forall i :: i in rows ==> Cell(e, i) == Cell(x, i)
  {
    var n := |x.values|;
    var values := seq(n, i requires 0 <= i < n => x.values[Slot(x, i)]);
    var nulls := seq(n, i requires 0 <= i < n => NullAt(x, i));
    Column(Scatter(x.values, rows, values), Scatter(x.isNull, rows, nulls), false, false)
  }

  /** The noNulls and isRepeating fast paths of OR agree with its general null-aware path run on
      the expanded inputs, which is taken whatever flags the inputs carry. */
  lemma OrFastPathsAgree(x: Column, y: Column, out: Column, rows: seq<nat>)
    requires Compatible(x, y, out) && Below(rows, |out.values|)
    ensures var g := OrColumns(Expand(x, rows), Expand(y, rows), out, rows);
            && !g.noNulls && !g.isRepeating
            && forall i :: i in rows ==> Cell(OrColumns(x, y, out, rows), i) == Cell(g, i)
  {
  }

  /** The fast paths of NOT agree with its general path on the expanded input. */
  lemma NotFastPathsAgree(x: Column, out: Column, rows: seq<nat>)
    requires Compatible(x, x, out) && Below(rows, |out.values|)
    ensures var g := NotColumn(Expand(x, rows), out, rows);
            && !g.noNulls && !g.isRepeating
            && forall i :: i in rows ==> Cell(NotColumn(x, out, rows), i) == Cell(g, i)
  {
  }

  /** The fast paths of IS NULL agree with its general path on the expanded input. */
  lemma IsNullFastPathsAgree(x: Column, out: Column, rows: seq<nat>)
    requires Compatible(x, x, out) && Below(rows, |out.values|)
    ensures var g := IsNullColumn(Expand(x, rows), out, rows);
            && g.noNulls && !g.isRepeating
            && forall i :: i in rows ==> Cell(IsNullColumn(x, out, rows), i) == Cell(g, i)
  {
  }

  /** An input with noNulls set has its isNull buffer ignored: whatever stale entries it holds,
      OR writes exactly the same output column. */
  lemma OrIgnoresStaleNulls(x: Column, y: Column, out: Column, rows: seq<nat>, stale: seq<bool>)
    requires Compatible(x, y, out) && Below(rows, |out.values|) && |stale| == |out.values|
    requires x.noNulls
    ensures OrColumns(x.(isNull := stale), y, out, rows) == OrColumns(x, y, out, rows)
  {
  }

  /** NOT and IS NULL likewise ignore the stale isNull buffer of a no-nulls input. */
  lemma UnaryIgnoresStaleNulls(x: Column, out: Column, rows: seq<nat>, stale: seq<bool>)
    requires Compatible(x, x, out) && Below(rows, |out.values|) && |stale| == |out.values|
    requires x.noNulls
    ensures NotColumn(x.(isNull := stale), out, rows) == NotColumn(x, out, rows)
    ensures IsNullColumn(x.(isNull := stale), out, rows) == IsNullColumn(x, out, rows)
  {
  }

  /** NOT is an involution up to nullity: negating twice restores every non-null row's content
      and keeps exactly the null rows null. */
  lemma NotNotRestores(b: Batch, colNum: nat, mid: nat, outputColumn: nat)
    requires Operands(b, colNum, mid, outputColumn)
    ensures var b'' := NotCol(NotCol(b, colNum, mid), mid, outputColumn);
            forall i :: i in ActiveRows(b) ==> Cell(b''.cols[outputColumn], i) == Cell(b.cols[colNum], i)
  {
  }
}
