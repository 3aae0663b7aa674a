/**
 * The pandas DataFrame operations the extractors rely on, over tables held
 * as values: an ordered list of column names and rows that map every column
 * to a cell.
 */
module Frames {
  import opened Wrappers
  import opened Text
  import opened Numbers
  import opened Dates

  /** A cell: missing (None, NaN or NaT), text, an amount in cents, or a date. */
  datatype Value = Null | Str(s: string) | Num(cents: int) | Day(d: Date)

  type Row = map<string, Value>

  /** A Python dict in insertion order, as the extractors build them. */
  type Record = seq<(string, Value)>

  datatype Frame = Frame(columns: seq<string>, rows: seq<Row>)

  predicate Distinct(cs: seq<string>)
  {
    forall i, j | 0 <= i < j < |cs| :: cs[i] != cs[j]
  }

  /** Two lists of distinct names with no name in common join into one. */
  lemma DistinctJoin(a: seq<string>, b: seq<string>)
    requires Distinct(a) && Distinct(b) && forall x | x in b :: x !in a
    ensures Distinct(a + b)
  {
    forall i, j | 0 <= i < j < |a + b| ensures (a + b)[i] != (a + b)[j] {
      if j >= |a| && i < |a| {
        assert (a + b)[j] == b[j - |a|] && b[j - |a|] in b;
      }
    }
  }

  /** Column names are distinct and every row has exactly the frame's columns. */
  ghost predicate WellFormed(f: Frame)
  {
    Distinct(f.columns) && forall i | 0 <= i < |f.rows| :: Shaped(f.rows[i], f.columns)
  }

  /** The row has a cell for exactly the columns `cs`. */
  ghost predicate Shaped(r: Row, cs: seq<string>)
  {
    forall c :: c in r <==> c in cs
  }

  /** `df.empty` */
  predicate IsEmpty(f: Frame)
  {
    |f.rows| == 0 || |f.columns| == 0
  }

  /** An optional amount as a cell: `None` is missing. */
  function OptNum(v: Option<int>): Value
  {
    match v
    case None => Null
    case Some(c) => Num(c)
  }

  /** An optional text as a cell: `None` is missing. */
  function OptStr(v: Option<string>): Value
  {
    match v
    case None => Null
    case Some(s) => Str(s)
  }

  /** `pd.DataFrame()` */
  const EmptyFrame: Frame := Frame([], [])

  function Get(r: Row, c: string): Value
  {
    if c in r then r[c] else Null
  }

  /** The value of key `k` in a record, `Null` when absent. */
  function Lookup(rec: Record, k: string): Value
  {
    if |rec| == 0 then Null else if rec[0].0 == k then rec[0].1 else Lookup(rec[1..], k)
  }

  predicate HasKey(rec: Record, k: string)
  {
    exists i | 0 <= i < |rec| :: rec[i].0 == k
  }

  /** `cs` followed by the names of `more` not already present, in order of first appearance. */
  function AddNames(cs: seq<string>, more: seq<string>): (r: seq<string>)
    requires Distinct(cs)
    ensures Distinct(r)
    ensures |cs| <= |r| && r[..|cs|] == cs
    ensures forall c :: c in r <==> c in cs || c in more
    decreases |more|
  {
    if |more| == 0 then cs
    else if more[0] in cs then AddNames(cs, more[1..])
    else AddNames(cs + [more[0]], more[1..])
  }

  function KeysOf(rec: Record): (ks: seq<string>)
    ensures |ks| == |rec| && forall i | 0 <= i < |rec| :: ks[i] == rec[i].0
  {
    seq(|rec|, i requires 0 <= i < |rec| => rec[i].0)
  }

  /** The columns of `pd.DataFrame(records)`: every key, in order of first appearance. */
  function RecordColumns(recs: seq<Record>): (cs: seq<string>)
    ensures Distinct(cs)
    ensures forall c :: c in cs <==> exists i | 0 <= i < |recs| :: HasKey(recs[i], c)
  {
    if |recs| == 0 then []
    else
      var last := recs[|recs| - 1];
      var cs := AddNames(RecordColumns(recs[..|recs| - 1]), KeysOf(last));
      assert forall c | HasKey(last, c) :: c in KeysOf(last);
      assert forall i | 0 <= i < |recs| - 1 :: recs[..|recs| - 1][i] == recs[i];
      cs
  }

  function RowOf(rec: Record, cs: seq<string>): (r: Row)
    ensures Shaped(r, cs)
  {
    map c | c in cs :: Lookup(rec, c)
  }

  /** `pd.DataFrame(records)`: one row per record, a missing key reads as `Null`. */
  function FromRecords(recs: seq<Record>): (f: Frame)
    ensures WellFormed(f)
    ensures |f.rows| == |recs|
    ensures f.columns == RecordColumns(recs)
    ensures forall i, c | 0 <= i < |recs| && c in f.columns :: f.rows[i][c] == Lookup(recs[i], c)
  {
    var cs := RecordColumns(recs);
    Frame(cs, seq(|recs|, i requires 0 <= i < |recs| => RowOf(recs[i], cs)))
  }

  /** `df[c] = v`: overwrite column `c`, or append it, with the same value on every row. */
  function SetColumn(f: Frame, c: string, v: Value): (g: Frame)
    requires WellFormed(f)
    ensures WellFormed(g)
    ensures |g.rows| == |f.rows|
    ensures g.columns == if c in f.columns then f.columns else f.columns + [c]
    ensures forall i | 0 <= i < |f.rows| :: g.rows[i] == f.rows[i][c := v]
  {
    var cs := if c in f.columns then f.columns else f.columns + [c];
    Frame(cs, seq(|f.rows|, i requires 0 <= i < |f.rows| => f.rows[i][c := v]))
  }

  /** `df[c] = fn(df[c])` for a column that exists. */
  function MapColumn(f: Frame, c: string, fn: Value -> Value): (g: Frame)
    requires WellFormed(f) && c in f.columns
    ensures WellFormed(g) && g.columns == f.columns && |g.rows| == |f.rows|
    ensures forall i | 0 <= i < |f.rows| :: g.rows[i] == f.rows[i][c := fn(f.rows[i][c])]
  {
    Frame(f.columns, seq(|f.rows|, i requires 0 <= i < |f.rows| => f.rows[i][c := fn(f.rows[i][c])]))
  }

  /** `df[cs]`: the named columns, in that order. */
  function Select(f: Frame, cs: seq<string>): (g: Frame)
    requires WellFormed(f) && Distinct(cs) && forall c | c in cs :: c in f.columns
    ensures WellFormed(g) && g.columns == cs && |g.rows| == |f.rows|
    ensures forall i, c | 0 <= i < |f.rows| && c in cs :: g.rows[i][c] == f.rows[i][c]
  {
    Frame(cs, seq(|f.rows|, i requires 0 <= i < |f.rows| => map c | c in cs :: f.rows[i][c]))
  }

  /** Keeps the rows satisfying `keep`, in order. */
  function Filter(f: Frame, keep: Row -> bool): (g: Frame)
    requires WellFormed(f)
    ensures WellFormed(g) && g.columns == f.columns && |g.rows| <= |f.rows|
    ensures forall r | r in g.rows :: r in f.rows && keep(r)
    ensures forall r | r in f.rows && keep(r) :: r in g.rows
  {
    var rs := FilterRows(f.rows, keep);
    forall i | 0 <= i < |rs| ensures Shaped(rs[i], f.columns) {
      assert rs[i] in rs;
      var j :| 0 <= j < |f.rows| && f.rows[j] == rs[i];
    }
    Frame(f.columns, rs)
  }

  function FilterRows(rs: seq<Row>, keep: Row -> bool): (out: seq<Row>)
    ensures |out| <= |rs|
    ensures forall r | r in out :: r in rs && keep(r)
    ensures forall r | r in rs && keep(r) :: r in out
  {
    if |rs| == 0 then [] else FilterRows(rs[..|rs| - 1], keep) + (if keep(rs[|rs| - 1]) then [rs[|rs| - 1]] else [])
  }

  function Replace1(cs: seq<string>, a: string, b: string): (r: seq<string>)
    ensures |r| == |cs|
    ensures forall i | 0 <= i < |cs| :: r[i] == if cs[i] == a then b else cs[i]
  {
    if |cs| == 0 then [] else [if cs[0] == a then b else cs[0]] + Replace1(cs[1..], a, b)
  }

  /**
   * `df.rename(columns={a: b})`: column `a`, when present, is called `b` in
   * the same place. `b` must not name another column, or the names would repeat.
   */
  function Rename(f: Frame, a: string, b: string): (g: Frame)
    requires WellFormed(f) && (b in f.columns ==> b == a)
    ensures WellFormed(g) && |g.rows| == |f.rows|
    ensures g.columns == Replace1(f.columns, a, b)
    ensures forall i | 0 <= i < |f.rows| && a in f.columns ::
      g.rows[i] == (f.rows[i] - {a})[b := f.rows[i][a]]
    ensures a !in f.columns ==> g == f
  {
    if a !in f.columns then f
    else
      var cs := Replace1(f.columns, a, b);
      RenameColumns(f.columns, a, b);
      var rs := seq(|f.rows|, i requires 0 <= i < |f.rows| => (f.rows[i] - {a})[b := f.rows[i][a]]);
      Frame(cs, rs)
  }

  /** A cell after `df.rename(columns={a: b})`: column `b` holds what `a` held, `a` is gone, the others stay. */
  lemma RenameGet(f: Frame, a: string, b: string, i: nat, c: string)
    requires WellFormed(f) && (b in f.columns ==> b == a) && i < |f.rows|
    ensures Get(Rename(f, a, b).rows[i], c) == if c == b then Get(f.rows[i], a) else if c == a then Null else Get(f.rows[i], c)
  {
    assert Shaped(f.rows[i], f.columns);
  }

  lemma RenameColumns(cs: seq<string>, a: string, b: string)
    requires Distinct(cs) && a in cs && (b in cs ==> b == a)
    ensures Distinct(Replace1(cs, a, b))
    ensures forall c :: c in Replace1(cs, a, b) <==> (c in cs && c != a) || c == b
  {
    var r := Replace1(cs, a, b);
    forall c | c in r ensures (c in cs && c != a) || c == b {
      var i :| 0 <= i < |r| && r[i] == c;
    }
    forall c | (c in cs && c != a) || c == b ensures c in r {
      if c == b {
        var i :| 0 <= i < |cs| && cs[i] == a;
        assert r[i] == b;
      } else {
        var i :| 0 <= i < |cs| && cs[i] == c;
        assert r[i] == c;
      }
    }
  }

  function Without(cs: seq<string>, gone: seq<string>): (r: seq<string>)
    ensures forall c :: c in r <==> c in cs && c !in gone
    ensures Distinct(cs) ==> Distinct(r)
  {
    if |cs| == 0 then []
    else (if cs[0] in gone then [] else [cs[0]]) + Without(cs[1..], gone)
  }

  /** `df.drop(gone, axis=1)`: raises `KeyError` when one of them is not a column. */
  function DropColumns(f: Frame, gone: seq<string>): (g: Result<Frame>)
    requires WellFormed(f)
    ensures g.Ok? <==> forall c | c in gone :: c in f.columns
    ensures g.Ok? ==> WellFormed(g.value) && g.value.columns == Without(f.columns, gone) && |g.value.rows| == |f.rows|
    ensures g.Ok? ==> forall i, c | 0 <= i < |f.rows| :: Get(g.value.rows[i], c) == if c in gone then Null else Get(f.rows[i], c)
  {
    if exists c | c in gone :: c !in f.columns then Err("KeyError: column not found")
    else Ok(DropPresent(f, gone))
  }

  /** `df.drop(gone, axis=1, errors='ignore')`: the named columns that exist are removed, the others ignored. */
  function DropPresent(f: Frame, gone: seq<string>): (g: Frame)
    requires WellFormed(f)
    ensures WellFormed(g) && g.columns == Without(f.columns, gone) && |g.rows| == |f.rows|
    ensures forall i, c | 0 <= i < |f.rows| :: Get(g.rows[i], c) == if c in gone then Null else Get(f.rows[i], c)
  {
    var cs := Without(f.columns, gone);
    Frame(cs, seq(|f.rows|, i requires 0 <= i < |f.rows| => map c | c in cs :: f.rows[i][c]))
  }

  /** The rows of `f` extended to the columns `cs`, absent cells reading as `Null`. */
  function Widen(rs: seq<Row>, cs: seq<string>): (out: seq<Row>)
    ensures |out| == |rs|
    ensures forall i | 0 <= i < |rs| :: Shaped(out[i], cs)
    ensures forall i, c | 0 <= i < |rs| && c in cs :: c in out[i] && out[i][c] == Get(rs[i], c)
  {
    seq(|rs|, i requires 0 <= i < |rs| => map c | c in cs :: Get(rs[i], c))
  }

  function ConcatColumns(fs: seq<Frame>): (cs: seq<string>)
    ensures Distinct(cs)
    ensures forall c :: c in cs <==> exists k | 0 <= k < |fs| :: c in fs[k].columns
  {
    if |fs| == 0 then []
    else
      var cs := AddNames(ConcatColumns(fs[..|fs| - 1]), fs[|fs| - 1].columns);
      assert forall k | 0 <= k < |fs| - 1 :: fs[..|fs| - 1][k] == fs[k];
      cs
  }

  function ConcatRows(fs: seq<Frame>): (rs: seq<Row>)
    ensures |rs| == TotalRows(fs)
  {
    if |fs| == 0 then [] else ConcatRows(fs[..|fs| - 1]) + fs[|fs| - 1].rows
  }

  function TotalRows(fs: seq<Frame>): nat
  {
    if |fs| == 0 then 0 else TotalRows(fs[..|fs| - 1]) + |fs[|fs| - 1].rows|
  }

  /** `pd.concat(fs, ignore_index=True)`: rows in order, columns unioned in order of first appearance. */
  function Concat(fs: seq<Frame>): (g: Frame)
    ensures WellFormed(g)
    ensures |g.rows| == TotalRows(fs)
    ensures forall c :: c in g.columns <==> exists k | 0 <= k < |fs| :: c in fs[k].columns
  {
    var cs := ConcatColumns(fs);
    Frame(cs, Widen(ConcatRows(fs), cs))
  }

  // ---------------------------------------------------------------------
  // Ordering for `sort_values`: missing cells last, then text, numbers and
  // dates each in their own order.

  function Rank(v: Value): nat
  {
    match v
    case Str(_) => 0
    case Num(_) => 1
    case Day(_) => 2
    case Null => 3
  }

  /** Code-point order on strings, as Python compares them. */
  predicate StrLe(a: string, b: string)
  {
    if |a| == 0 then true
    else if |b| == 0 then false
    else if a[0] != b[0] then a[0] < b[0]
    else StrLe(a[1..], b[1..])
  }

  predicate ValueLe(a: Value, b: Value)
  {
    if Rank(a) != Rank(b) then Rank(a) < Rank(b)
    else match (a, b)
      case (Str(x), Str(y)) => StrLe(x, y)
      case (Num(x), Num(y)) => x <= y
      case (Day(x), Day(y)) => NotAfter(x, y)
      case _ => true
  }

  /** Lexicographic on the listed columns. */
  predicate RowLe(a: Row, b: Row, keys: seq<string>)
  {
    if |keys| == 0 then true
    else
      var x, y := Get(a, keys[0]), Get(b, keys[0]);
      if x == y then RowLe(a, b, keys[1..])
      else ValueLe(x, y)
  }

  lemma {:induction false} StrLeTotal(a: string, b: string)
    ensures StrLe(a, b) || StrLe(b, a)
    decreases |a|
  {
    if |a| > 0 && |b| > 0 && a[0] == b[0] {
      StrLeTotal(a[1..], b[1..]);
    }
  }

  lemma ValueLeTotal(a: Value, b: Value)
    ensures ValueLe(a, b) || ValueLe(b, a)
  {
    match (a, b)
    case (Str(x), Str(y)) => StrLeTotal(x, y);
    case _ =>
  }

  lemma {:induction false} RowLeTotal(a: Row, b: Row, keys: seq<string>)
    ensures RowLe(a, b, keys) || RowLe(b, a, keys)
    decreases |keys|
  {
    if |keys| > 0 {
      if Get(a, keys[0]) == Get(b, keys[0]) {
        RowLeTotal(a, b, keys[1..]);
      } else {
        ValueLeTotal(Get(a, keys[0]), Get(b, keys[0]));
      }
    }
  }

  predicate SortedBy(rs: seq<Row>, keys: seq<string>)
  {
    forall i | 0 <= i < |rs| - 1 :: RowLe(rs[i], rs[i + 1], keys)
  }

  /** Places `x` after the last row of `rs` that does not exceed it, so equal rows keep their order. */
  function Insert(x: Row, rs: seq<Row>, keys: seq<string>): (out: seq<Row>)
    requires SortedBy(rs, keys)
    ensures SortedBy(out, keys)
    ensures multiset(out) == multiset(rs) + multiset{x}
    ensures |out| == |rs| + 1
    ensures |rs| > 0 ==> out[|out| - 1] == x || out[|out| - 1] == rs[|rs| - 1]
  {
    if |rs| == 0 then [x]
    else if RowLe(rs[|rs| - 1], x, keys) then rs + [x]
    else
      RowLeTotal(rs[|rs| - 1], x, keys);
      var front := Insert(x, rs[..|rs| - 1], keys);
      assert rs == rs[..|rs| - 1] + [rs[|rs| - 1]];
      front + [rs[|rs| - 1]]
  }

  /** `df.sort_values(keys)`: a stable sort, missing cells last. */
  function SortRows(rs: seq<Row>, keys: seq<string>): (out: seq<Row>)
    ensures SortedBy(out, keys)
    ensures multiset(out) == multiset(rs)
    ensures |out| == |rs|
  {
    if |rs| == 0 then []
    else
      assert rs == rs[..|rs| - 1] + [rs[|rs| - 1]];
      Insert(rs[|rs| - 1], SortRows(rs[..|rs| - 1], keys), keys)
  }

  function SortBy(f: Frame, keys: seq<string>): (g: Frame)
    requires WellFormed(f)
    ensures WellFormed(g) && g.columns == f.columns
    ensures SortedBy(g.rows, keys) && multiset(g.rows) == multiset(f.rows)
  {
    var rs := SortRows(f.rows, keys);
    forall i | 0 <= i < |rs| ensures Shaped(rs[i], f.columns) {
      assert rs[i] in multiset(f.rows);
      var j :| 0 <= j < |f.rows| && f.rows[j] == rs[i];
    }
    Frame(f.columns, rs)
  }

  /** `drop_duplicates()`: the first occurrence of each distinct row, in order. */
  function Dedup(rs: seq<Row>): (out: seq<Row>)
    ensures forall r :: r in out <==> r in rs
    ensures forall i, j | 0 <= i < j < |out| :: out[i] != out[j]
    ensures |out| <= |rs|
  {
    if |rs| == 0 then []
    else
      var front := Dedup(rs[..|rs| - 1]);
      assert forall r | r in rs :: r in rs[..|rs| - 1] || r == rs[|rs| - 1];
      if rs[|rs| - 1] in front then front else front + [rs[|rs| - 1]]
  }

  function DropDuplicates(f: Frame): (g: Frame)
    requires WellFormed(f)
    ensures WellFormed(g) && g.columns == f.columns && g.rows == Dedup(f.rows)
  {
    var rs := Dedup(f.rows);
    forall i | 0 <= i < |rs| ensures Shaped(rs[i], f.columns) {
      assert rs[i] in rs;
      var j :| 0 <= j < |f.rows| && f.rows[j] == rs[i];
    }
    Frame(f.columns, rs)
  }

  // ---------------------------------------------------------------------
  // Column conversions with `errors='coerce'`.

  /** `pd.to_numeric(v, errors='coerce')` */
  function ToNumeric(v: Value): (r: Value)
    ensures r.Null? || r.Num?
    ensures v.Num? ==> r == v
  {
    match v
    case Num(_) => v
    case Str(s) => (match Float(s) case Some(c) => Num(c) case None => Null)
    case _ => Null
  }

  /** `pd.to_datetime(v, format='%d/%m/%Y', errors='coerce')` */
  function ToDate(v: Value): (r: Value)
    ensures r.Null? || r.Day?
    ensures v.Day? ==> r == v
  {
    match v
    case Day(_) => v
    case Str(s) => (match Strptime(s) case Some(d) => Day(d) case None => Null)
    case _ => Null
  }
}
