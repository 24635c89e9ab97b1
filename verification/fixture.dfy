/**
  The truth-table batch of the logical-expression tests and the outcome
  each test asserts on it, proved of the model. Slots from 9 up, and the
  contents of the output column v2, are left unconstrained.
 */
module TestVectorLogicalExpressions {
  import opened Logic
  import opened Vectors
  import opened Expressions
  import opened Filters

  /** Rows 0..8 of v0 and v1: every pair of {0, 1, NULL}, each null row keeping the value written beside it. */
  const V0Values: seq<int> := [0, 0, 1, 1, 0, 0, 0, 1, 1]
  const V0Nulls: seq<bool> := [false, false, false, false, true, true, false, false, true]
  const V1Values: seq<int> := [0, 1, 0, 1, 0, 1, 0, 1, 1]
  const V1Nulls: seq<bool> := [false, false, false, false, false, false, true, true, true]

  /** The same rows read as SQL booleans. */
  const V0Cells: seq<Truth> := [False, False, True, True, Null, Null, False, True, Null]
  const V1Cells: seq<Truth> := [False, True, False, True, False, True, Null, Null, Null]

  /** c holds the given rows 0..8 and is flagged as possibly holding nulls, not repeating. */
  predicate HoldsRows(c: Column, values: seq<int>, nulls: seq<bool>)
    requires |values| == 9 && |nulls| == 9
  {
    && |c.values| >= 9 && |c.isNull| >= 9
    && (forall i :: 0 <= i < 9 ==> c.values[i] == values[i] && c.isNull[i] == nulls[i])
    && !c.noNulls && !c.isRepeating
  }

  /** b has the fixture's nine dense active rows and its input columns v0 and v1; the output
      column v2 may hold anything. */
  predicate FixtureInputs(b: Batch) {
    && WellFormed(b)
    && |b.cols| == 3
    && b.size == 9
    && !b.selectedInUse
    && HoldsRows(b.cols[0], V0Values, V0Nulls)
    && HoldsRows(b.cols[1], V1Values, V1Nulls)
  }

  /** b is a batch `getBatchThreeBooleanCols` builds: the fixture inputs, and an output column
      v2 whose flags both (wrongly) claim a repeating, null-free column. */
  predicate IsThreeBooleanCols(b: Batch) {
    FixtureInputs(b) && b.cols[2].isRepeating && b.cols[2].noNulls
  }

  /** `getBatchThreeBooleanCols` at the given capacity, with zero-filled buffers beyond row 8. */
  function GetBatchThreeBooleanCols(capacity: nat): (b: Batch)
    requires 9 <= capacity
    ensures IsThreeBooleanCols(b) && Capacity(b) == capacity
  {
    var pad := capacity - 9;
    var v0 := Column(V0Values + seq(pad, _ => 0), V0Nulls + seq(pad, _ => false), false, false);
    var v1 := Column(V1Values + seq(pad, _ => 0), V1Nulls + seq(pad, _ => false), false, false);
    var v2 := Column(seq(capacity, _ => 0), seq(capacity, _ => false), true, true);
    Batch([v0, v1, v2], 9, seq(capacity, _ => 0), false)
  }

  /** b with column k replaced by c, as a test does when it resets a column's flags or slots
      between evaluations; the batch stays well formed and its active rows stay put. */
  function WithColumn(b: Batch, k: nat, c: Column): (b': Batch)
    requires WellFormed(b) && k < |b.cols| && Fits(c, Capacity(b))
    ensures WellFormed(b') && ActiveRows(b') == ActiveRows(b)
    ensures b'.cols == b.cols[k := c] && b'.size == b.size
  {
    b.(cols := b.cols[k := c])
  }

  /** b with its three columns replaced, as a test does when it resets every column's flags
      before an evaluation; the batch stays well formed and its active rows stay put. */
  function WithColumns(b: Batch, c0: Column, c1: Column, c2: Column): (b': Batch)
    requires WellFormed(b) && Fits(c0, Capacity(b)) && Fits(c1, Capacity(b)) && Fits(c2, Capacity(b))
    ensures WellFormed(b') && ActiveRows(b') == ActiveRows(b)
    ensures b'.cols == [c0, c1, c2] && b'.size == b.size
  {
    b.(cols := [c0, c1, c2])
  }

  /** The fixture's rows read as SQL booleans, as its row comments give them. */
  lemma FixtureCells(b: Batch)
    requires FixtureInputs(b)
    ensures forall i :: 0 <= i < 9 ==> i in ActiveRows(b)
    ensures forall i :: 0 <= i < 9 ==> Cell(b.cols[0], i) == V0Cells[i] && Cell(b.cols[1], i) == V1Cells[i]
  {
  }

  /** testLongColOrLongCol, general path: three-valued OR row by row, with the output's stale
      flags replaced. */
  lemma OrOnFixture(b: Batch)
    requires IsThreeBooleanCols(b)
    ensures var b' := ColOrCol(b, 0, 1, 2);
            var out := b'.cols[2];
            && out.values[0] == 0 && out.values[1] == 1 && out.values[2] == 1 && out.values[3] == 1
            && !out.isNull[3] && out.isNull[4] && out.values[5] == 1 && out.isNull[6]
            && out.values[7] == 1 && out.isNull[8]
            && b'.size == 9 && !out.noNulls && !out.isRepeating
  {
    var out := ColOrCol(b, 0, 1, 2).cols[2];
    OrRowOnFixture(b, 0);
    OrRowOnFixture(b, 1);
    OrRowOnFixture(b, 2);
    OrRowOnFixture(b, 3);
    OrRowOnFixture(b, 4);
    OrRowOnFixture(b, 5);
    OrRowOnFixture(b, 6);
    OrRowOnFixture(b, 7);
    OrRowOnFixture(b, 8);
  }

  /** One row of testLongColOrLongCol's general path. */
  lemma OrRowOnFixture(b: Batch, i: nat)
    requires IsThreeBooleanCols(b) && i < 9
    ensures var out := ColOrCol(b, 0, 1, 2).cols[2];
            && !out.isRepeating && !out.noNulls
            && (out.isNull[i] <==> Or(V0Cells[i], V1Cells[i]) == Null)
            && (Or(V0Cells[i], V1Cells[i]) != Null ==> out.values[i] == Bit(Or(V0Cells[i], V1Cells[i])))
  {
    FixtureCells(b);
    var out := ColOrCol(b, 0, 1, 2).cols[2];
    assert Holds(out, i, Or(Cell(b.cols[0], i), Cell(b.cols[1], i)));
  }

  /** testLongColOrLongCol, no-nulls path: both inputs flagged noNulls though their isNull
      buffers still mark rows 4..8. */
  lemma OrNoNullsOnFixture(b: Batch)
    requires IsThreeBooleanCols(b)
    ensures var b1 := WithColumns(b, b.cols[0].(noNulls := true), b.cols[1].(noNulls := true), b.cols[2].(noNulls := false));
            var out := ColOrCol(b1, 0, 1, 2).cols[2];
            && out.noNulls
            && out.values[0] == 0 && out.values[1] == 1 && out.values[2] == 1 && out.values[3] == 1
  {
    var x, y := b.cols[0].(noNulls := true), b.cols[1].(noNulls := true);
    var b1 := WithColumns(b, x, y, b.cols[2].(noNulls := false));
    assert b1.cols[0] == x && b1.cols[1] == y;
    assert Cell(x, 0) == False && Cell(x, 1) == False && Cell(x, 2) == True && Cell(x, 3) == True;
    assert Cell(y, 0) == False && Cell(y, 1) == True && Cell(y, 2) == False && Cell(y, 3) == True;
    OrRowIs(b1, 0, False);
    OrRowIs(b1, 1, True);
    OrRowIs(b1, 2, True);
    OrRowIs(b1, 3, True);
  }

  /** testLongColOrLongCol, left input repeating with no nulls: its slot 0 (value 0) is paired
      with every row of the right input, so the output is v1 and does not repeat. */
  lemma OrLeftRepeatingOnFixture(b: Batch)
    requires IsThreeBooleanCols(b)
    ensures var b1 := WithColumns(b, b.cols[0].(noNulls := true, isRepeating := true),
                                     b.cols[1].(noNulls := true, isRepeating := false),
                                     b.cols[2].(noNulls := false, isRepeating := true));
            var out := ColOrCol(b1, 0, 1, 2).cols[2];
            && !out.isRepeating
            && out.values[0] == 0 && out.values[1] == 1 && out.values[2] == 0 && out.values[3] == 1
  {
    var x, y := b.cols[0].(noNulls := true, isRepeating := true), b.cols[1].(noNulls := true, isRepeating := false);
    var b1 := WithColumns(b, x, y, b.cols[2].(noNulls := false, isRepeating := true));
    assert b1.cols[0] == x && b1.cols[1] == y;
    assert Cell(x, 0) == False && Cell(x, 1) == False && Cell(x, 2) == False && Cell(x, 3) == False;
    assert Cell(y, 0) == False && Cell(y, 1) == True && Cell(y, 2) == False && Cell(y, 3) == True;
    OrRowIs(b1, 0, False);
    OrRowIs(b1, 1, True);
    OrRowIs(b1, 2, False);
    OrRowIs(b1, 3, True);
  }

  /** OR of columns 0 and 1 into column 2 at row i of a dense batch, given its three-valued result. */
  lemma OrRowIs(b: Batch, i: nat, t: Truth)
    requires Operands(b, 0, 1, 2) && i < b.size && !b.selectedInUse
    requires Or(Cell(b.cols[0], i), Cell(b.cols[1], i)) == t
    ensures Holds(ColOrCol(b, 0, 1, 2).cols[2], i, t)
  {
    assert i in ActiveRows(b);
  }

  /** testBooleanNot on a non-repeating input with nulls: row 0 (false) gives 1, row 2 (true)
      gives 0, and the null row 4 stays null. */
  lemma NotOnFixture(b: Batch)
    requires IsThreeBooleanCols(b)
    ensures var out := NotCol(b, 0, 2).cols[2];
            && !out.isRepeating
            && out.values[0] == 1 && !out.isNull[0]
            && out.values[2] == 0 && !out.isNull[2]
            && out.isNull[4]
  {
    FixtureCells(b);
  }

  /** testBooleanNot, continued on the same batch with the input flagged noNulls: the output is
      null-free and rows 0 and 2 keep their negations. */
  lemma NotNoNullsOnFixture(b: Batch)
    requires IsThreeBooleanCols(b)
    ensures var b1 := NotCol(b, 0, 2);
            var out := NotCol(WithColumn(b1, 0, b1.cols[0].(noNulls := true)), 0, 2).cols[2];
            && !out.isRepeating && out.noNulls
            && out.values[0] == 1 && out.values[2] == 0
  {
    var b1 := NotCol(b, 0, 2);
    assert b1.cols[0] == b.cols[0] && b1.cols[1] == b.cols[1];
    NotNoNullsStep(b1);
  }

  /** NOT of v0 flagged noNulls, whatever the output column held before. */
  lemma NotNoNullsStep(b: Batch)
    requires FixtureInputs(b)
    ensures var out := NotCol(WithColumn(b, 0, b.cols[0].(noNulls := true)), 0, 2).cols[2];
            && !out.isRepeating && out.noNulls
            && out.values[0] == 1 && out.values[2] == 0
  {
    var v0 := b.cols[0].(noNulls := true);
    assert 0 in ActiveRows(b) && 2 in ActiveRows(b);
    assert Cell(v0, 0) == False && Cell(v0, 2) == True;
  }

  /** testBooleanNot on a repeating input: a null slot 0 gives a repeating null output; a
      non-null 0 gives a repeating, null-free 1. */
  lemma NotRepeatingOnFixture(b: Batch)
    requires IsThreeBooleanCols(b)
    ensures var v0 := b.cols[0];
            var out := NotCol(WithColumn(b, 0, v0.(isRepeating := true, isNull := v0.isNull[0 := true])), 0, 2).cols[2];
            out.isRepeating && out.isNull[0]
    ensures var v0 := b.cols[0];
            var out := NotCol(WithColumn(b, 0, v0.(isRepeating := true, noNulls := true)), 0, 2).cols[2];
            out.isRepeating && out.noNulls && out.values[0] == 1
  {
    FixtureCells(b);
  }

  /** testIsNullExpr on a non-repeating input with nulls: 1 at the null row 4, 0 at row 0. */
  lemma IsNullOnFixture(b: Batch)
    requires IsThreeBooleanCols(b)
    ensures var out := IsNull(b, 0, 2).cols[2];
            out.values[0] == 0 && out.values[4] == 1 && out.noNulls && !out.isRepeating
  {
    FixtureCells(b);
  }

  /** testIsNullExpr, continued on the same batch with the input flagged noNulls: the stale
      isNull[4] is ignored and row 4 gives 0. */
  lemma IsNullNoNullsOnFixture(b: Batch)
    requires IsThreeBooleanCols(b)
    ensures var b1 := IsNull(b, 0, 2);
            var out := IsNull(WithColumn(b1, 0, b1.cols[0].(noNulls := true)), 0, 2).cols[2];
            !out.isRepeating && out.noNulls && out.values[0] == 0 && out.values[4] == 0
  {
    var b1 := IsNull(b, 0, 2);
    assert b1.cols[0] == b.cols[0] && b1.cols[1] == b.cols[1];
    IsNullNoNullsStep(b1);
  }

  /** IS NULL of v0 flagged noNulls, whatever the output column held before. */
  lemma IsNullNoNullsStep(b: Batch)
    requires FixtureInputs(b)
    ensures var out := IsNull(WithColumn(b, 0, b.cols[0].(noNulls := true)), 0, 2).cols[2];
            !out.isRepeating && out.noNulls && out.values[0] == 0 && out.values[4] == 0
  {
    var v0 := b.cols[0].(noNulls := true);
    assert 0 in ActiveRows(b) && 4 in ActiveRows(b);
    assert Cell(v0, 0) == False && Cell(v0, 4) == False;
  }

  /** testIsNullExpr on a repeating input: a null slot 0 gives a repeating 1, a non-null one a
      repeating 0; the output never holds nulls. */
  lemma IsNullRepeatingOnFixture(b: Batch)
    requires IsThreeBooleanCols(b)
    ensures var v0 := b.cols[0];
            var out := IsNull(WithColumn(b, 0, v0.(isRepeating := true, isNull := v0.isNull[0 := true])), 0, 2).cols[2];
            out.isRepeating && out.values[0] == 1 && out.noNulls
    ensures var v0 := b.cols[0];
            var out := IsNull(WithColumn(b, 0, v0.(isRepeating := true, noNulls := true)), 0, 2).cols[2];
            out.isRepeating && out.noNulls && out.values[0] == 0
  {
    FixtureCells(b);
  }

  /** A filter on column v0 or v1 of the fixture selects exactly the expected rows, in order,
      when those are the fixture rows whose cell passes it. */
  lemma SelectOnFixture(b: Batch, colNum: nat, f: Filter, expected: seq<nat>)
    requires IsThreeBooleanCols(b) && colNum < 2 && Ascending(expected)
    requires forall i: nat :: i in expected <==> i < 9 && Admits(f, (if colNum == 0 then V0Cells else V1Cells)[i])
    ensures var b' := Select(b, colNum, f);
            b'.size == |expected| && b'.selected[..b'.size] == expected
  {
    FixtureCells(b);
    var b' := Select(b, colNum, f);
    AscendingUnique(ActiveRows(b'), expected);
  }

  /** Every fixture row is one of 0..8, spelled out for case analysis. */
  predicate FixtureRow(i: nat) {
    i == 0 || i == 1 || i == 2 || i == 3 || i == 4 || i == 5 || i == 6 || i == 7 || i == 8
  }

  /** testBooleanFiltersOnColumns: IS TRUE on v0 keeps rows 2, 3 and 7; the null row 8 is dropped although it holds 1. */
  lemma IsTrueOnFixture(b: Batch)
    requires IsThreeBooleanCols(b)
    ensures var b' := Select(b, 0, ColumnIsTrue); b'.size == 3 && b'.selected[..3] == [2, 3, 7]
  {
    forall i: nat
      ensures i in [2, 3, 7] <==> i < 9 && Admits(ColumnIsTrue, V0Cells[i])
    {
      assert i < 9 ==> FixtureRow(i);
    }
    SelectOnFixture(b, 0, ColumnIsTrue, [2, 3, 7]);
  }

  /** testBooleanFiltersOnColumns: IS FALSE on v1 keeps rows 0, 2 and 4; the null row 6 is dropped although it holds 0. */
  lemma IsFalseOnFixture(b: Batch)
    requires IsThreeBooleanCols(b)
    ensures var b' := Select(b, 1, ColumnIsFalse); b'.size == 3 && b'.selected[..3] == [0, 2, 4]
  {
    forall i: nat
      ensures i in [0, 2, 4] <==> i < 9 && Admits(ColumnIsFalse, V1Cells[i])
    {
      assert i < 9 ==> FixtureRow(i);
    }
    SelectOnFixture(b, 1, ColumnIsFalse, [0, 2, 4]);
  }

  /** testBooleanFiltersOnColumns: IS NULL on v0 keeps rows 4, 5 and 8. */
  lemma IsNullFilterOnFixture(b: Batch)
    requires IsThreeBooleanCols(b)
    ensures var b' := Select(b, 0, ColumnIsNull); b'.size == 3 && b'.selected[..3] == [4, 5, 8]
  {
    forall i: nat
      ensures i in [4, 5, 8] <==> i < 9 && Admits(ColumnIsNull, V0Cells[i])
    {
      assert i < 9 ==> FixtureRow(i);
    }
    SelectOnFixture(b, 0, ColumnIsNull, [4, 5, 8]);
  }

  /** testBooleanFiltersOnColumns: IS NOT NULL on v1 keeps rows 0 to 5. */
  lemma IsNotNullOnFixture(b: Batch)
    requires IsThreeBooleanCols(b)
    ensures var b' := Select(b, 1, ColumnIsNotNull); b'.size == 6 && b'.selected[..6] == [0, 1, 2, 3, 4, 5]
  {
    forall i: nat
      ensures i in [0, 1, 2, 3, 4, 5] <==> i < 9 && Admits(ColumnIsNotNull, V1Cells[i])
    {
      assert i < 9 ==> FixtureRow(i);
    }
    SelectOnFixture(b, 1, ColumnIsNotNull, [0, 1, 2, 3, 4, 5]);
  }
}
