# Vectorized three-valued boolean logic over long columns (Hive)

This project is a Dafny model of the vectorized logical-expression layer of Hive's
query executor. The layer works on one `VectorizedRowBatch` at a time, over
`LongColumnVector`s that hold booleans encoded as 0/1. The model covers the
operators exercised by `TestVectorLogicalExpressions`:

- `ColOrCol`: SQL OR of two columns, where a non-null true dominates a null.
- `NotCol`: negation that passes nulls through.
- `IsNull`: a never-null 0/1 column, holding 1 exactly at the null rows.
- `SelectColumnIsTrue`, `SelectColumnIsFalse`, `SelectColumnIsNull` and
  `SelectColumnIsNotNull`: each rebuilds the batch's selection as the ascending
  list of active rows that pass the filter.

Files and modules:

- `logic.dfy` (`Logic`): the three-valued `Truth` type, `Or` and `Not`.
- `vectors.dfy` (`Vectors`): `Column` and `Batch`, plus the meaning of a row.
  - `Cell` reads slot 0 of a repeating column.
  - `Cell` ignores `isNull` when `noNulls` holds.
  - `ActiveRows` gives the dense `0..size-1` view or `selected[0..size-1]`.
  - `Scatter` writes per-row results into a reused buffer.
- `expressions.dfy` (`Expressions`): the value-producing operators. Each is
  written along its fast paths, dispatching on the inputs' `noNulls` and
  `isRepeating` flags. Its contract states the result in terms of `Cell`,
  independently of those flags. Further lemmas show three things:
  - the fast paths agree with the general path run on expanded inputs;
  - a no-nulls input's stale `isNull` buffer is never read;
  - NOT is an involution up to nullity.
- `filters.dfy` (`Filters`): the selection filters, and a lemma that an ascending
  selection is determined by its elements. It also holds partition and
  composition lemmas.
- `fixture.dfy` (`TestVectorLogicalExpressions`): the nine-row batch built by
  `getBatchThreeBooleanCols`, and lemmas proving what each scenario of the tests
  asserts. Most scenarios have a lemma of their own. `NotRepeatingOnFixture` and
  `IsNullRepeatingOnFixture` each cover two repeating-input scenarios, one
  `ensures` clause per scenario.

The fixture is stated as the predicate `IsThreeBooleanCols`, which fixes only the
things the tests depend on:

- rows 0..8 of `v0` and `v1`;
- the flags;
- `size = 9` and no selection in use.

Slots from 9 up, the capacity (at least 9) and the contents of the output column
`v2` are left free. `GetBatchThreeBooleanCols` builds one such batch at any
capacity of at least 9.

The OR row 6 (`0 OR NULL`) is null, as the test asserts at line 45. Line 131 of
the test re-checks `isNull[0]` where `isNull[2]` is evidently meant.
`NotOnFixture` proves both.

The scenarios that set a column's flags or slots before an evaluation do so
through `WithColumn` and `WithColumns`. These replace whole columns of the
batch, matching the test's field assignments.

## Model

| member | source | states |
|---|---|---|
| Logic.OrIsMaximum | ql/src/test/org/apache/hadoop/hive/ql/exec/vector/expressions/TestVectorLogicalExpressions.java:38-48 | OR is the maximum in the order false < null < true, so true dominates null and null dominates false |
| Logic.NotMirrorsRank | ql/src/test/org/apache/hadoop/hive/ql/exec/vector/expressions/TestVectorLogicalExpressions.java:130-132 | NOT swaps true and false and fixes null, so it is an involution |
| Vectors.ActiveRows | ql/src/test/org/apache/hadoop/hive/ql/exec/vector/expressions/TestVectorLogicalExpressions.java:117 | the active rows number `size`, ascend and lie below the capacity; without a selection they are exactly 0..size-1 |
| Expressions.ColOrCol | ql/src/test/org/apache/hadoop/hive/ql/exec/vector/expressions/TestVectorLogicalExpressions.java:32-82 | every active row of the output holds the SQL OR of the inputs' rows (each read through its own flags) as a canonical 0/1 or a null mark; output noNulls is both inputs' noNulls, output isRepeating is both inputs' isRepeating, overriding the output's stale flags; size, selection and other columns are unchanged |
| Expressions.OrColumns | ql/src/test/org/apache/hadoop/hive/ql/exec/vector/expressions/TestVectorLogicalExpressions.java:53-81 | the same at column level, and every slot OR does not write (all but slot 0 when repeating, inactive rows otherwise) keeps its old value and null mark |
| Expressions.NotCol | ql/src/test/org/apache/hadoop/hive/ql/exec/vector/expressions/TestVectorLogicalExpressions.java:122-160 | every active row of the output holds the SQL NOT of the input row: non-null values negated to canonical 0/1, null rows null; noNulls and isRepeating are carried over from the input |
| Expressions.IsNull | ql/src/test/org/apache/hadoop/hive/ql/exec/vector/expressions/TestVectorLogicalExpressions.java:163-201 | the output never holds nulls, repeats exactly when the input does, and holds 1 at exactly the active rows whose input row is null, 0 elsewhere |
| Expressions.NotColumn | ql/src/test/org/apache/hadoop/hive/ql/exec/vector/expressions/TestVectorLogicalExpressions.java:122-160 | NOT at column level: every listed row holds the SQL NOT of the input row, the flags are carried over from the input, and every slot NOT does not write (all but slot 0 when repeating, the unlisted rows otherwise) keeps its old value and null mark |
| Expressions.IsNullColumn | ql/src/test/org/apache/hadoop/hive/ql/exec/vector/expressions/TestVectorLogicalExpressions.java:163-201 | IS NULL at column level: the output is flagged noNulls, repeats exactly when the input does, holds 1 at the listed rows whose input row is null and 0 at the others, and every slot it does not write keeps its old value and null mark |
| Expressions.Expand | ql/src/test/org/apache/hadoop/hive/ql/exec/vector/expressions/TestVectorLogicalExpressions.java:68-81 | a repeating or no-nulls column is equivalent, at every active row, to a non-repeating, null-aware column holding each row in its own slot |
| Expressions.OrFastPathsAgree | ql/src/test/org/apache/hadoop/hive/ql/exec/vector/expressions/TestVectorLogicalExpressions.java:53-81 | OR's no-nulls and repeating paths give the same row contents as its general null-aware path run on the expanded inputs |
| Expressions.NotFastPathsAgree | ql/src/test/org/apache/hadoop/hive/ql/exec/vector/expressions/TestVectorLogicalExpressions.java:134-159 | NOT's no-nulls and repeating paths agree with its general path on the expanded input |
| Expressions.IsNullFastPathsAgree | ql/src/test/org/apache/hadoop/hive/ql/exec/vector/expressions/TestVectorLogicalExpressions.java:174-200 | IS NULL's no-nulls and repeating paths agree with its general path on the expanded input |
| Expressions.OrIgnoresStaleNulls | ql/src/test/org/apache/hadoop/hive/ql/exec/vector/expressions/TestVectorLogicalExpressions.java:54-66 | an OR input flagged noNulls may carry any isNull buffer: the output column is identical |
| Expressions.UnaryIgnoresStaleNulls | ql/src/test/org/apache/hadoop/hive/ql/exec/vector/expressions/TestVectorLogicalExpressions.java:174-180 | NOT and IS NULL produce identical output columns whatever isNull buffer a noNulls input carries |
| Expressions.NotNotRestores | ql/src/test/org/apache/hadoop/hive/ql/exec/vector/expressions/TestVectorLogicalExpressions.java:128-140 | negating a column twice gives back every active row's three-valued content |
| Filters.Select | ql/src/test/org/apache/hadoop/hive/ql/exec/vector/expressions/TestVectorLogicalExpressions.java:203-240 | the new active rows are exactly the old active rows whose cell passes the filter (IS TRUE: non-null true; IS FALSE: non-null false; IS NULL; IS NOT NULL), ascending, no more than before, with the selection in use and the columns untouched |
| Filters.KeepRows | ql/src/test/org/apache/hadoop/hive/ql/exec/vector/expressions/TestVectorLogicalExpressions.java:203-240 | the filter loop keeps exactly the listed rows whose own slot passes the test (the null mark consulted only when nulls are checked), no more rows than were listed, and an ascending input gives an ascending result |
| Filters.Survivors | ql/src/test/org/apache/hadoop/hive/ql/exec/vector/expressions/TestVectorLogicalExpressions.java:203-240 | the survivors are exactly the active rows whose cell passes the filter, ascending and below the capacity, whichever path the column's flags select (repeating: slot 0 tested once; no nulls: isNull never read) |
| Filters.KeepRowsCounts | ql/src/test/org/apache/hadoop/hive/ql/exec/vector/expressions/TestVectorLogicalExpressions.java:203-240 | on the same listed rows, the IS NULL and IS NOT NULL loops keep counts adding up to the number of rows, as do the IS TRUE, IS FALSE and IS NULL loops |
| Filters.AscendingUnique | ql/src/test/org/apache/hadoop/hive/ql/exec/vector/expressions/TestVectorLogicalExpressions.java:209-239 | two ascending row lists with the same elements are equal, so a filter's selection is fully determined by its contract |
| Filters.SelectPartitionsActiveRows | ql/src/test/org/apache/hadoop/hive/ql/exec/vector/expressions/TestVectorLogicalExpressions.java:203-240 | on copies of one batch, the IS NULL and IS NOT NULL survivors add up to the batch size, as do those of IS TRUE, IS FALSE and IS NULL, and every active row survives IS NULL or IS NOT NULL |
| Filters.SelectComposes | ql/src/test/org/apache/hadoop/hive/ql/exec/vector/expressions/TestVectorLogicalExpressions.java:203-240 | filtering a batch whose selection is already in use keeps exactly the rows that pass both filters |
| TestVectorLogicalExpressions.GetBatchThreeBooleanCols | ql/src/test/org/apache/hadoop/hive/ql/exec/vector/expressions/TestVectorLogicalExpressions.java:87-119 | the fixture exists at every capacity of at least 9 |
| TestVectorLogicalExpressions.FixtureCells | ql/src/test/org/apache/hadoop/hive/ql/exec/vector/expressions/TestVectorLogicalExpressions.java:99-107 | rows 0..8 of v0 and v1 read as the pairs (0,0) (0,1) (1,0) (1,1) (NULL,0) (NULL,1) (0,NULL) (1,NULL) (NULL,NULL), all of them active |
| TestVectorLogicalExpressions.OrRowOnFixture | ql/src/test/org/apache/hadoop/hive/ql/exec/vector/expressions/TestVectorLogicalExpressions.java:38-47 | each fixture row of OR(v0, v1) is null exactly when the truth table says so, and otherwise holds its 0/1 result |
| TestVectorLogicalExpressions.OrOnFixture | ql/src/test/org/apache/hadoop/hive/ql/exec/vector/expressions/TestVectorLogicalExpressions.java:33-51 | OR gives 0, 1, 1, 1 at rows 0..3, null at 4, 6 and 8, and 1 at 5 and 7; size stays 9; the output's stale flags become noNulls false, isRepeating false |
| TestVectorLogicalExpressions.OrNoNullsOnFixture | ql/src/test/org/apache/hadoop/hive/ql/exec/vector/expressions/TestVectorLogicalExpressions.java:54-66 | with both inputs flagged noNulls despite stale isNull marks, the output is flagged noNulls and holds 0, 1, 1, 1 |
| TestVectorLogicalExpressions.OrLeftRepeatingOnFixture | ql/src/test/org/apache/hadoop/hive/ql/exec/vector/expressions/TestVectorLogicalExpressions.java:69-81 | with only the left input repeating (slot 0 = 0), the output does not repeat and holds v1's 0, 1, 0, 1 |
| TestVectorLogicalExpressions.NotOnFixture | ql/src/test/org/apache/hadoop/hive/ql/exec/vector/expressions/TestVectorLogicalExpressions.java:123-132 | NOT(v0) does not repeat, gives non-null 1 at row 0 and non-null 0 at row 2, and is null at row 4 |
| TestVectorLogicalExpressions.NotNoNullsOnFixture | ql/src/test/org/apache/hadoop/hive/ql/exec/vector/expressions/TestVectorLogicalExpressions.java:134-140 | rerun on the same batch with v0 flagged noNulls, NOT(v0) does not repeat, is flagged noNulls and holds 1 at row 0 and 0 at row 2 |
| TestVectorLogicalExpressions.NotRepeatingOnFixture | ql/src/test/org/apache/hadoop/hive/ql/exec/vector/expressions/TestVectorLogicalExpressions.java:143-159 | NOT of a repeating null slot 0 repeats and is null; NOT of a repeating non-null 0 repeats, is flagged noNulls and holds 1 |
| TestVectorLogicalExpressions.IsNullOnFixture | ql/src/test/org/apache/hadoop/hive/ql/exec/vector/expressions/TestVectorLogicalExpressions.java:165-172 | IS NULL(v0) holds 0 at row 0 and 1 at the null row 4, is flagged noNulls and does not repeat |
| TestVectorLogicalExpressions.IsNullNoNullsOnFixture | ql/src/test/org/apache/hadoop/hive/ql/exec/vector/expressions/TestVectorLogicalExpressions.java:175-180 | rerun with v0 flagged noNulls, the stale isNull[4] is ignored: 0 at rows 0 and 4, noNulls, not repeating |
| TestVectorLogicalExpressions.IsNullRepeatingOnFixture | ql/src/test/org/apache/hadoop/hive/ql/exec/vector/expressions/TestVectorLogicalExpressions.java:183-200 | IS NULL of a repeating null slot 0 is a repeating, null-free 1; of a repeating non-null slot 0 a repeating, null-free 0 |
| TestVectorLogicalExpressions.SelectOnFixture | ql/src/test/org/apache/hadoop/hive/ql/exec/vector/expressions/TestVectorLogicalExpressions.java:203-240 | a filter on v0 or v1 of the fixture leaves selected, in order, exactly the fixture rows whose cell passes it |
| TestVectorLogicalExpressions.IsTrueOnFixture | ql/src/test/org/apache/hadoop/hive/ql/exec/vector/expressions/TestVectorLogicalExpressions.java:207-212 | IS TRUE on v0 selects rows 2, 3, 7 and sets size 3; the null row 8 holding 1 is excluded |
| TestVectorLogicalExpressions.IsFalseOnFixture | ql/src/test/org/apache/hadoop/hive/ql/exec/vector/expressions/TestVectorLogicalExpressions.java:214-220 | IS FALSE on v1 selects rows 0, 2, 4 and sets size 3; the null row 6 holding 0 is excluded |
| TestVectorLogicalExpressions.IsNullFilterOnFixture | ql/src/test/org/apache/hadoop/hive/ql/exec/vector/expressions/TestVectorLogicalExpressions.java:222-228 | IS NULL on v0 selects rows 4, 5, 8 and sets size 3 |
| TestVectorLogicalExpressions.IsNotNullOnFixture | ql/src/test/org/apache/hadoop/hive/ql/exec/vector/expressions/TestVectorLogicalExpressions.java:230-239 | IS NOT NULL on v1 selects rows 0..5 and sets size 6 |

## Left out

- The Java classes `ColOrCol`, `NotCol`, `IsNull`, `SelectColumnIs*`, `LongColumnVector` and `VectorizedRowBatch` are not part of this model. Their behaviour is modelled from what the tests assert, and their loop structure is not reproduced.
- `VectorizedRowBatch.DEFAULT_SIZE`: the capacity is abstract. It is positive, and it is at least 9 in the fixture. It is taken to be the length of the batch's selection buffer.
- AND, IS NOT NULL as a value-producing operator, and other column types (double, string, decimal) are left out. The tests do not exercise them.
- Output aliasing an input column is left out. The model computes each operator from the batch as it was before the call. An in-place implementation must match that, but the tests never alias.
- Empty batches: on `size = 0` the model still recomputes the output flags. Whether the Java code returns early there is not visible in the tests.
- Encodings other than 0/1: a non-zero value reads as true, and the operators write canonical 0/1. The tests use only 0 and 1.
- Values stored at null rows are left unconstrained by the contracts. The model writes the raw OR (or negation) there, and the tests never read them.
- Expressions.ColOrCol, Expressions.NotCol, Expressions.IsNull and Filters.Select: invalid column indices and capacity mismatches are preconditions, not error results, because the code faults on them rather than reporting an error.
- Child-expression evaluation, buffer allocation and reuse, batch pooling, the pipeline around the operators and the JUnit harness are left out. None of them is part of the per-batch logic.
