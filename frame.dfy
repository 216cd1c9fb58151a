/** The DataFrame operations the signal, scoring and selection steps share: a
    frame is a list of column names and a list of rows, each row mapping every
    column name to a float (`None` for NaN). Frames are values, so the
    `df.copy()` calls of the program are implicit and an input frame is never
    changed. */
module Frames {
  import opened Common

  type Row = map<string, Option<real>>

  datatype Frame = Frame(columns: seq<string>, rows: seq<Row>)

  /** Column names are distinct and every row has exactly the frame's columns. */
  ghost predicate WellFormed(f: Frame) {
    Distinct(f.columns)
    && forall i, c :: 0 <= i < |f.rows| ==> (c in f.rows[i] <==> c in f.columns)
  }

  /** Every row has column `col`. */
  predicate AllHave(rows: seq<Row>, col: string) {
    forall i :: 0 <= i < |rows| ==> col in rows[i]
  }

  /** `df[c]`. */
  function Column(f: Frame, c: string): (s: Series)
    requires WellFormed(f) && c in f.columns
    ensures |s| == |f.rows|
    ensures forall i :: 0 <= i < |s| ==> s[i] == f.rows[i][c]
  {
    seq(|f.rows|, i requires 0 <= i < |f.rows| => f.rows[i][c])
  }

  /** `df[c] = s`: replaces an existing column in place, or appends a new one. */
  function Assign(f: Frame, c: string, s: Series): (r: Frame)
    requires WellFormed(f) && |s| == |f.rows|
    ensures WellFormed(r) && |r.rows| == |f.rows|
  {
    var cols := if c in f.columns then f.columns else f.columns + [c];
    var rows := seq(|f.rows|, i requires 0 <= i < |f.rows| => f.rows[i][c := s[i]]);
    assert forall x :: x in cols <==> x in f.columns || x == c;
    Frame(cols, rows)
  }

  /** After `df[c] = s` column `c` holds `s`, every other column is as it was,
      and the columns keep their order with `c` added at the end when new. */
  lemma {:induction false} AssignSpec(f: Frame, c: string, s: Series)
    requires WellFormed(f) && |s| == |f.rows|
    ensures var r := Assign(f, c, s);
      c in r.columns && Column(r, c) == s
      && (c in f.columns ==> r.columns == f.columns)
      && (c !in f.columns ==> r.columns == f.columns + [c])
      && forall d :: d in f.columns && d != c ==> d in r.columns && Column(r, d) == Column(f, d)
  {
  }

  // ------------------------------------------------------------------
  // Row filters: `df[df[col] <op> thr]`
  // ------------------------------------------------------------------

  datatype Op = Gt | Ge | Lt | Le | Eq

  /** The operators the selectors accept. */
  function ParseOp(op: string): (r: Option<Op>)
    ensures r.Some? <==> op in [">", ">=", "<", "<=", "=="]
  {
    if op == ">" then Some(Gt)
    else if op == ">=" then Some(Ge)
    else if op == "<" then Some(Lt)
    else if op == "<=" then Some(Le)
    else if op == "==" then Some(Eq)
    else None
  }

  /** A comparison with NaN is false. */
  predicate Holds(v: Option<real>, op: Op, thr: real) {
    v.Some? &&
    match op
    case Gt => v.value > thr
    case Ge => v.value >= thr
    case Lt => v.value < thr
    case Le => v.value <= thr
    case Eq => v.value == thr
  }

  /** The rows satisfying the comparison, in their original order. */
  function Where(rows: seq<Row>, col: string, op: Op, thr: real): (r: seq<Row>)
    requires AllHave(rows, col)
    ensures |r| <= |rows|
  {
    if rows == [] then []
    else if Holds(rows[0][col], op, thr) then [rows[0]] + Where(rows[1..], col, op, thr)
    else Where(rows[1..], col, op, thr)
  }

  /** The kept rows are exactly the rows satisfying the comparison, with the
      multiplicity they had and in their original order. */
  lemma {:induction false} WhereSpec(rows: seq<Row>, col: string, op: Op, thr: real)
    requires AllHave(rows, col)
    ensures var r := Where(rows, col, op, thr);
      multiset(r) <= multiset(rows)
      && (forall k :: 0 <= k < |r| ==> col in r[k] && Holds(r[k][col], op, thr))
      && (forall i :: 0 <= i < |rows| && Holds(rows[i][col], op, thr) ==> rows[i] in r)
      && IsSubsequence(r, rows)
  {
    WhereSubset(rows, col, op, thr);
    WhereHolds(rows, col, op, thr);
    WhereKeeps(rows, col, op, thr);
    WhereOrder(rows, col, op, thr);
  }

  /** A boolean mask keeps the rows in their original order. */
  lemma {:induction false} WhereOrder(rows: seq<Row>, col: string, op: Op, thr: real)
    requires AllHave(rows, col)
    ensures IsSubsequence(Where(rows, col, op, thr), rows)
  {
    if rows != [] {
      var t := Where(rows[1..], col, op, thr);
      WhereOrder(rows[1..], col, op, thr);
      if Holds(rows[0][col], op, thr) {
        var r := Where(rows, col, op, thr);
        assert r[0] == rows[0] && r[1..] == t;
      }
    }
  }

  lemma {:induction false} WhereSubset(rows: seq<Row>, col: string, op: Op, thr: real)
    requires AllHave(rows, col)
    ensures multiset(Where(rows, col, op, thr)) <= multiset(rows)
  {
    if rows != [] {
      WhereSubset(rows[1..], col, op, thr);
      assert rows == [rows[0]] + rows[1..];
      assert multiset(rows) == multiset{rows[0]} + multiset(rows[1..]);
    }
  }

  lemma {:induction false} WhereHolds(rows: seq<Row>, col: string, op: Op, thr: real)
    requires AllHave(rows, col)
    ensures forall k :: 0 <= k < |Where(rows, col, op, thr)| ==>
      col in Where(rows, col, op, thr)[k] && Holds(Where(rows, col, op, thr)[k][col], op, thr)
  {
    if rows != [] {
      WhereHolds(rows[1..], col, op, thr);
      var t := Where(rows[1..], col, op, thr);
      if Holds(rows[0][col], op, thr) {
        var r := Where(rows, col, op, thr);
        assert r == [rows[0]] + t;
        forall k | 0 <= k < |r| ensures col in r[k] && Holds(r[k][col], op, thr) {
          if k > 0 {
            assert r[k] == t[k - 1];
          }
        }
      }
    }
  }

  lemma {:induction false} WhereKeeps(rows: seq<Row>, col: string, op: Op, thr: real)
    requires AllHave(rows, col)
    ensures forall i :: 0 <= i < |rows| && Holds(rows[i][col], op, thr) ==> rows[i] in Where(rows, col, op, thr)
  {
    if rows != [] {
      var t := Where(rows[1..], col, op, thr);
      WhereKeeps(rows[1..], col, op, thr);
      forall i | 0 <= i < |rows| && Holds(rows[i][col], op, thr) ensures rows[i] in Where(rows, col, op, thr) {
        if i > 0 {
          assert rows[i] == rows[1..][i - 1];
        }
      }
    }
  }

  /** `df[df[col] <op> thr]` on a frame: same columns, fewer rows. */
  function Filtered(f: Frame, col: string, op: Op, thr: real): (r: Frame)
    requires WellFormed(f) && col in f.columns
    ensures WellFormed(r) && r.columns == f.columns
  {
    var rows := Where(f.rows, col, op, thr);
    WhereSpec(f.rows, col, op, thr);
    assert forall k :: 0 <= k < |rows| ==> rows[k] in multiset(f.rows);
    Frame(f.columns, rows)
  }

  // ------------------------------------------------------------------
  // `sort_values(col, ascending=...)` (NaN last) and `head(k)`
  // ------------------------------------------------------------------

  /** `a` may come before `b`: present values in the requested direction,
      NaN after every present value. */
  predicate Precedes(a: Option<real>, b: Option<real>, ascending: bool) {
    if a.None? then b.None?
    else b.None? || (if ascending then a.value <= b.value else a.value >= b.value)
  }

  predicate SortedBy(rows: seq<Row>, col: string, ascending: bool)
    requires AllHave(rows, col)
  {
    forall i, j :: 0 <= i < j < |rows| ==> Precedes(rows[i][col], rows[j][col], ascending)
  }

  /** Inserts `x` before the first row it may precede. */
  function InsertRow(x: Row, s: seq<Row>, col: string, ascending: bool): (r: seq<Row>)
    requires col in x && AllHave(s, col) && SortedBy(s, col, ascending)
    ensures |r| == |s| + 1 && AllHave(r, col) && SortedBy(r, col, ascending)
    ensures forall k :: 0 <= k < |r| ==> r[k] == x || r[k] in s
  {
    if s == [] then [x]
    else if Precedes(x[col], s[0][col], ascending) then [x] + s
    else
      var t := InsertRow(x, s[1..], col, ascending);
      assert forall k :: 0 <= k < |t| ==> Precedes(s[0][col], t[k][col], ascending) by {
        forall k | 0 <= k < |t| ensures Precedes(s[0][col], t[k][col], ascending) {
          if t[k] != x {
            var j :| 1 <= j < |s| && s[j] == t[k];
          }
        }
      }
      [s[0]] + t
  }

  /** The rows ordered by `col`; rows that compare equal keep their order. */
  function SortRows(rows: seq<Row>, col: string, ascending: bool): (r: seq<Row>)
    requires AllHave(rows, col)
    ensures |r| == |rows| && AllHave(r, col) && SortedBy(r, col, ascending)
    ensures forall k :: 0 <= k < |r| ==> r[k] in rows
  {
    if rows == [] then []
    else InsertRow(rows[0], SortRows(rows[1..], col, ascending), col, ascending)
  }

  lemma {:induction false} InsertRowPermutes(x: Row, s: seq<Row>, col: string, ascending: bool)
    requires col in x && AllHave(s, col) && SortedBy(s, col, ascending)
    ensures multiset(InsertRow(x, s, col, ascending)) == multiset(s) + multiset{x}
  {
    if s != [] && !Precedes(x[col], s[0][col], ascending) {
      InsertRowPermutes(x, s[1..], col, ascending);
      assert s == [s[0]] + s[1..];
    }
  }

  /** Sorting permutes the rows. */
  lemma {:induction false} SortRowsPermutes(rows: seq<Row>, col: string, ascending: bool)
    requires AllHave(rows, col)
    ensures multiset(SortRows(rows, col, ascending)) == multiset(rows)
  {
    if rows != [] {
      var t := SortRows(rows[1..], col, ascending);
      SortRowsPermutes(rows[1..], col, ascending);
      InsertRowPermutes(rows[0], t, col, ascending);
      PermutesCons(rows, t, SortRows(rows, col, ascending));
    }
  }

  /** `df.sort_values(col, ascending=...).head(k)`. */
  function TopRows(f: Frame, col: string, ascending: bool, k: nat): (r: Frame)
    requires WellFormed(f) && col in f.columns
    ensures WellFormed(r) && r.columns == f.columns
  {
    var sorted := SortRows(f.rows, col, ascending);
    var n := MinInt(k, |sorted|);
    assert forall j :: 0 <= j < n ==> sorted[..n][j] in f.rows;
    Frame(f.columns, sorted[..n])
  }

  /** The head holds min(k, n) rows, in order, all taken from the frame (with
      no row more often than it occurs): the first rows of the sorted frame. */
  lemma {:induction false} TopRowsSpec(f: Frame, col: string, ascending: bool, k: nat)
    requires WellFormed(f) && col in f.columns
    ensures var r := TopRows(f, col, ascending, k);
      |r.rows| == MinInt(k, |f.rows|)
      && SortedBy(r.rows, col, ascending)
      && multiset(r.rows) <= multiset(f.rows)
      && r.rows == SortRows(f.rows, col, ascending)[..|r.rows|]
  {
    var sorted := SortRows(f.rows, col, ascending);
    var n := MinInt(k, |sorted|);
    SortRowsPermutes(f.rows, col, ascending);
    PrefixMultiset(sorted, n);
  }
}
