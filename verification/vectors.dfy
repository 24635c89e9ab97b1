/**
  The columnar containers: a long column vector holding 0/1-encoded
  booleans with its `noNulls` and `isRepeating` flags, and a row batch
  with its active-row view (`size`, `selected`, `selectedInUse`).
 */
module Vectors {
  import opened Logic

  /** A long column vector. `isNull` is meaningful only when `noNulls` is false;
      when `isRepeating` holds, slot 0 stands for every row. */
  datatype Column = Column(values: seq<int>, isNull: seq<bool>, noNulls: bool, isRepeating: bool)

  /** Both buffers of c have the given capacity. */
  predicate Fits(c: Column, capacity: nat) {
    |c.values| == capacity && |c.isNull| == capacity
  }

  /** The buffer slot that holds row i: slot 0 for every row of a repeating column. */
  function Slot(c: Column, i: nat): nat {
    if c.isRepeating then 0 else i
  }

  /** Row i of c is null; the isNull buffer is not consulted when the column has no nulls. */
  predicate NullAt(c: Column, i: nat)
    requires i < |c.isNull|
  {
    !c.noNulls && c.isNull[Slot(c, i)]
  }

  /** The three-valued content of row i of c, honouring both flags; a non-zero value reads as true. */
  function Cell(c: Column, i: nat): Truth
    requires i < |c.values| && i < |c.isNull|
  {
    if NullAt(c, i) then Null
    else if c.values[Slot(c, i)] != 0 then True
    else False
  }

  /** The canonical encoding of a non-null boolean. */
  function Bit(t: Truth): int {
    if t == True then 1 else 0
  }

  /** c holds t at row i in canonical form: marked null when t is Null, else holding 1 or 0. */
  predicate Holds(c: Column, i: nat, t: Truth)
    requires i < |c.values| && i < |c.isNull|
  {
    Cell(c, i) == t && (t != Null ==> c.values[Slot(c, i)] == Bit(t))
  }

  /** A row batch. The selection buffer `selected` is allocated at the batch's capacity. */
  datatype Batch = Batch(cols: seq<Column>, size: nat, selected: seq<nat>, selectedInUse: bool)

  function Capacity(b: Batch): nat {
    |b.selected|
  }

  predicate Ascending(s: seq<nat>) {
    forall j, k :: 0 <= j < k < |s| ==> s[j] < s[k]
  }

  /** Every entry of s is a slot index below n. */
  predicate Below(s: seq<nat>, n: nat) {
    forall k :: 0 <= k < |s| ==> s[k] < n
  }

  /** Columns share the batch capacity (which is positive), and a selection in use lists
      `size` ascending slots. */
  predicate WellFormed(b: Batch) {
    && 0 < |b.selected|
    && b.size <= |b.selected|
    && (forall k :: 0 <= k < |b.cols| ==> Fits(b.cols[k], |b.selected|))
    && (b.selectedInUse ==> Ascending(b.selected[..b.size]) && Below(b.selected[..b.size], |b.selected|))
  }

  /** The rows 0, 1, ..., n-1. */
  function Iota(n: nat): (r: seq<nat>)
    ensures |r| == n
    ensures forall k :: 0 <= k < n ==> r[k] == k
    ensures forall i: nat :: i in r <==> i < n
  {
    if n == 0 then [] else Iota(n - 1) + [n - 1]
  }

  /** The rows an operator must process: `0..size-1` when no selection is in use,
      otherwise the first `size` entries of `selected`. */
  function ActiveRows(b: Batch): (rows: seq<nat>)
    requires WellFormed(b)
    ensures |rows| == b.size
    ensures Ascending(rows) && Below(rows, Capacity(b))
    ensures !b.selectedInUse ==> forall i: nat :: i in rows <==> i < b.size
  {
    if b.selectedInUse then b.selected[..b.size] else Iota(b.size)
  }

  /** buf with slot i taken from src for every row i in rows, every other slot untouched:
      the in-place write of an operator's per-row results into a reused buffer. */
  function Scatter<T>(buf: seq<T>, rows: seq<nat>, src: seq<T>): (r: seq<T>)
    requires |src| == |buf| && Below(rows, |buf|)
    ensures |r| == |buf|
    ensures forall i :: 0 <= i < |buf| ==> r[i] == if i in rows then src[i] else buf[i]
    decreases |rows|
  {
    if rows == [] then buf
    else
      assert rows == [rows[0]] + rows[1..];
      Scatter(buf[rows[0] := src[rows[0]]], rows[1..], src)
  }
}
