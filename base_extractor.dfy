/**
 * What every bank extractor shares: bringing a result table to the common
 * column layout, and summarising it.
 */
module BaseExtractor {
  import opened Wrappers
  import opened Dates
  import opened Frames
  import opened Numbers

  /** The columns every standardised table starts with, in this order. */
  const StandardColumns: seq<string> :=
    ["arquivo", "data_movimento", "historico", "documento", "valor", "saldo", "tipo", "conta", "agencia", "banco"]

  lemma StandardHas()
    ensures "data_movimento" in StandardColumns && "valor" in StandardColumns && "saldo" in StandardColumns
    ensures "arquivo" in StandardColumns && "tipo" in StandardColumns
  {
    assert StandardColumns[0] == "arquivo";
    assert StandardColumns[1] == "data_movimento";
    assert StandardColumns[4] == "valor";
    assert StandardColumns[5] == "saldo";
    assert StandardColumns[6] == "tipo";
  }

  lemma StandardDistinct()
    ensures Distinct(StandardColumns)
  {
  }

  /** The column order after standardisation: the standard ones, then the others as they were. */
  function Layout(cs: seq<string>): seq<string>
  {
    StandardColumns + Without(cs, StandardColumns)
  }

  /** The columns of `cols` that the widening appends to `cs`: each one not yet present, in order. */
  function Added(cs: seq<string>, cols: seq<string>): (a: seq<string>)
    ensures forall x | x in a :: x in cols && x !in cs
    ensures forall x | x in cols :: x in cs || x in a
    ensures Distinct(cs) ==> Distinct(cs + a)
  {
    if |cols| == 0 then []
    else
      var front := Added(cs, cols[..|cols| - 1]);
      var c := cols[|cols| - 1];
      assert forall x | x in cols :: x in cols[..|cols| - 1] || x == c;
      if c in cs || c in front then front
      else
        assert (cs + front) + [c] == cs + (front + [c]);
        front + [c]
  }

  /** `for col in standard_columns: if col not in df.columns: df[col] = None`, over the first columns of `cols`. */
  function AddMissing(f: Frame, cols: seq<string>): (g: Frame)
    requires WellFormed(f)
    ensures WellFormed(g) && |g.rows| == |f.rows|
    ensures g.columns == f.columns + Added(f.columns, cols)
    ensures forall i, c | 0 <= i < |f.rows| :: Get(g.rows[i], c) == Get(f.rows[i], c)
  {
    if |cols| == 0 then
      assert f.columns + [] == f.columns;
      f
    else
      var h := AddMissing(f, cols[..|cols| - 1]);
      var c := cols[|cols| - 1];
      var g := AddColumn(h, c);
      assert (f.columns + Added(f.columns, cols[..|cols| - 1])) + [c] == f.columns + (Added(f.columns, cols[..|cols| - 1]) + [c]);
      g
  }

  lemma AddMissingSnoc(f: Frame, cols: seq<string>, k: nat)
    requires WellFormed(f) && k < |cols|
    ensures AddMissing(f, cols[..k + 1]) == AddColumn(AddMissing(f, cols[..k]), cols[k])
  {
    assert cols[..k + 1][..k] == cols[..k];
  }

  /** `if c not in df.columns: df[c] = None` */
  function AddColumn(h: Frame, c: string): (g: Frame)
    requires WellFormed(h)
    ensures WellFormed(g) && |g.rows| == |h.rows|
    ensures g.columns == if c in h.columns then h.columns else h.columns + [c]
    ensures forall i, x | 0 <= i < |h.rows| :: Get(g.rows[i], x) == Get(h.rows[i], x)
  {
    if c in h.columns then h
    else
      assert forall i | 0 <= i < |h.rows| :: c !in h.rows[i];
      SetColumn(h, c, Null)
  }

  /** The coercion `standardize_output` applies to a cell of column `c`. */
  function Coerced(c: string, v: Value): Value
  {
    if c == "data_movimento" then ToDate(v)
    else if c == "valor" || c == "saldo" then ToNumeric(v)
    else v
  }

  /** `pd.to_datetime` on `data_movimento`, then `pd.to_numeric` on `valor` and `saldo`. */
  function CoerceColumns(h: Frame): (g: Frame)
    requires WellFormed(h) && "data_movimento" in h.columns && "valor" in h.columns && "saldo" in h.columns
    ensures WellFormed(g) && g.columns == h.columns && |g.rows| == |h.rows|
    ensures forall i, c | 0 <= i < |h.rows| :: Get(g.rows[i], c) == Coerced(c, Get(h.rows[i], c))
  {
    var h1 := MapColumn(h, "data_movimento", ToDate);
    var h2 := MapColumn(h1, "valor", ToNumeric);
    MapColumn(h2, "saldo", ToNumeric)
  }

  /** A row of the standardised table: the cells of `cs`, coerced, missing ones `Null`. */
  function StdRow(r: Row, cs: seq<string>): (out: Row)
    ensures Shaped(out, cs)
    ensures forall c | c in cs :: out[c] == Coerced(c, Get(r, c))
  {
    map c | c in cs :: Coerced(c, Get(r, c))
  }

  function StdRows(rs: seq<Row>, cs: seq<string>): (out: seq<Row>)
    ensures |out| == |rs|
    ensures forall i | 0 <= i < |rs| :: out[i] == StdRow(rs[i], cs)
  {
    if |rs| == 0 then [] else StdRows(rs[..|rs| - 1], cs) + [StdRow(rs[|rs| - 1], cs)]
  }

  /** `standardize_output`, as a table-to-table function: the same rows, the standard layout, cells coerced. */
  function Standardize(f: Frame): (g: Frame)
    requires WellFormed(f)
    ensures WellFormed(g)
    ensures g.columns == Layout(f.columns)
    ensures |g.rows| == |f.rows|
    ensures forall c | c in f.columns :: c in g.columns
    ensures forall i, c | 0 <= i < |f.rows| ::
      Get(g.rows[i], c) == if c in g.columns then Coerced(c, Get(f.rows[i], c)) else Null
  {
    var cs := Layout(f.columns);
    LayoutDistinct(f.columns);
    assert forall c | c in f.columns :: c in cs by {
      forall c | c in f.columns ensures c in cs {
        if c !in StandardColumns {
          assert c in Without(f.columns, StandardColumns);
        }
      }
    }
    Frame(cs, StdRows(f.rows, cs))
  }

  lemma LayoutDistinct(cs: seq<string>)
    requires Distinct(cs)
    ensures Distinct(Layout(cs))
  {
    StandardDistinct();
    LayoutOf(cs, [], StandardColumns);
  }

  /**
   * The columns of the widened table, stripped of the leading ones, are the
   * original other columns, and the final layout is duplicate-free.
   */
  lemma LayoutOf(cs: seq<string>, more: seq<string>, std: seq<string>)
    requires Distinct(cs) && Distinct(std)
    requires forall x | x in more :: x in std
    ensures Without(cs + more, std) == Without(cs, std)
    ensures Distinct(std + Without(cs, std))
  {
    WithoutAppend(cs, more, std);
    var rest := Without(cs, std);
    var l := std + rest;
    forall i, j | 0 <= i < j < |l| ensures l[i] != l[j] {
      if j >= |std| && i < |std| {
        assert l[j] in rest;
        assert l[i] == std[i];
      } else if i >= |std| {
        assert l[i] == rest[i - |std|] && l[j] == rest[j - |std|];
      } else {
        assert l[i] == std[i] && l[j] == std[j];
      }
    }
  }

  lemma {:induction false} WithoutAppend(a: seq<string>, b: seq<string>, gone: seq<string>)
    requires forall x | x in b :: x in gone
    ensures Without(a + b, gone) == Without(a, gone)
    decreases |a|
  {
    if |a| == 0 {
      WithoutNone(b, gone);
      assert a + b == b;
    } else {
      assert (a + b)[1..] == a[1..] + b;
      WithoutAppend(a[1..], b, gone);
    }
  }

  lemma {:induction false} WithoutNone(b: seq<string>, gone: seq<string>)
    requires forall x | x in b :: x in gone
    ensures Without(b, gone) == []
    decreases |b|
  {
    if |b| > 0 {
      WithoutNone(b[1..], gone);
    }
  }

  /** `standardize_output`: adds the missing standard columns one at a time, coerces, reorders. */
  method StandardizeOutput(f: Frame) returns (g: Frame)
    requires WellFormed(f)
    ensures g == Standardize(f)
  {
    var h := AddColumns(f, StandardColumns);
    StandardHas();
    StandardDistinct();
    StandardizeVia(f, StandardColumns);
    var h3 := CoerceColumns(h);
    g := Select(h3, StandardColumns + Without(h.columns, StandardColumns));
  }

  /** Widening by `std`, coercing and selecting `std` first gives the standard rows of `f`. */
  /** Every standard column is in the layout, whatever the frame had. */
  lemma LayoutHasStandard(cs: seq<string>)
    ensures forall c | c in StandardColumns :: c in Layout(cs)
  {
    forall c | c in StandardColumns ensures c in Layout(cs) {
      var i :| 0 <= i < |StandardColumns| && StandardColumns[i] == c;
      assert Layout(cs)[i] == c;
    }
  }

  /** One cell after standardisation, for a column the frame already had. */
  lemma StandardizeCell(f: Frame, i: nat, c: string)
    requires WellFormed(f) && i < |f.rows| && c in f.columns
    ensures Get(Standardize(f).rows[i], c) == Coerced(c, Get(f.rows[i], c))
  {
  }

  /** One standard column's cell after standardisation, whether or not the frame had that column. */
  lemma StandardColumnCell(f: Frame, i: nat, c: string)
    requires WellFormed(f) && i < |f.rows| && c in StandardColumns
    ensures Get(Standardize(f).rows[i], c) == Coerced(c, Get(f.rows[i], c))
  {
    LayoutHasStandard(f.columns);
  }

  lemma StandardizeVia(f: Frame, std: seq<string>)
    requires WellFormed(f) && Distinct(std)
    requires "data_movimento" in std && "valor" in std && "saldo" in std
    ensures var h := AddMissing(f, std);
      && "data_movimento" in h.columns && "valor" in h.columns && "saldo" in h.columns
      && Distinct(std + Without(h.columns, std))
      && (forall c | c in std + Without(h.columns, std) :: c in h.columns)
      && Select(CoerceColumns(h), std + Without(h.columns, std)) == Frame(std + Without(f.columns, std), StdRows(f.rows, std + Without(f.columns, std)))
  {
    var h := AddMissing(f, std);
    LayoutOf(f.columns, Added(f.columns, std), std);
    var cs := std + Without(h.columns, std);
    assert forall c | c in cs :: c in h.columns by {
      forall c | c in cs ensures c in h.columns {
        if c !in std {
          assert c in Without(h.columns, std);
        }
      }
    }
    var h3 := CoerceColumns(h);
    SelectCoerced(f, h3, cs);
  }

  /** The loop of `standardize_output` that adds the missing standard columns one at a time. */
  method AddColumns(f: Frame, cols: seq<string>) returns (h: Frame)
    requires WellFormed(f)
    ensures h == AddMissing(f, cols)
  {
    h := f;
    var k := 0;
    while k < |cols|
      invariant 0 <= k <= |cols|
      invariant WellFormed(h) && h == AddMissing(f, cols[..k])
    {
      var col := cols[k];
      ghost var prev := h;
      if col !in h.columns {
        h := SetColumn(h, col, Null);
      }
      assert h == AddColumn(prev, col);
      AddMissingSnoc(f, cols, k);
      k := k + 1;
    }
    assert cols[..k] == cols;
  }

  /** Picking the standard layout out of the widened, coerced table gives the standardised rows. */
  lemma SelectCoerced(f: Frame, h: Frame, cs: seq<string>)
    requires WellFormed(h) && Distinct(cs) && forall c | c in cs :: c in h.columns
    requires |h.rows| == |f.rows|
    requires forall i, c | 0 <= i < |f.rows| :: Get(h.rows[i], c) == Coerced(c, Get(f.rows[i], c))
    ensures Select(h, cs).rows == StdRows(f.rows, cs)
  {
    var g := Select(h, cs);
    var want := StdRows(f.rows, cs);
    forall i | 0 <= i < |f.rows| ensures g.rows[i] == want[i] {
      assert Shaped(h.rows[i], h.columns);
      forall c | c in cs ensures g.rows[i][c] == want[i][c] {
        assert Get(h.rows[i], c) == h.rows[i][c];
      }
      assert Shaped(g.rows[i], cs) && Shaped(want[i], cs);
    }
  }

  /** The result of `get_summary`: `{}` for an empty table, otherwise the six figures. */
  datatype Summary =
    | NoSummary
    | Totals(transacoes: nat, inicio: Value, fim: Value, creditos: int, debitos: nat, saldoFinal: Value)

  /** The sum of the numeric `valor` cells of the rows whose `tipo` is `tipo`; missing cells are skipped. */
  function SumOf(rs: seq<Row>, tipo: string): int
  {
    if |rs| == 0 then 0
    else
      var r := rs[|rs| - 1];
      SumOf(rs[..|rs| - 1], tipo) + (if Get(r, "tipo") == Str(tipo) && Get(r, "valor").Num? then Get(r, "valor").cents else 0)
  }

  /** The earliest (`later == false`) or latest date of the column, missing when there is none. */
  function Extreme(rs: seq<Row>, c: string, later: bool): (v: Value)
    ensures v.Null? || v.Day?
    ensures v.Day? ==> exists i | 0 <= i < |rs| :: Get(rs[i], c) == v
    ensures v.Day? ==> forall i | 0 <= i < |rs| && Get(rs[i], c).Day? ::
      if later then NotAfter(Get(rs[i], c).d, v.d) else NotAfter(v.d, Get(rs[i], c).d)
    ensures v.Null? ==> forall i | 0 <= i < |rs| :: !Get(rs[i], c).Day?
  {
    if |rs| == 0 then Null
    else
      var front := Extreme(rs[..|rs| - 1], c, later);
      var x := Get(rs[|rs| - 1], c);
      assert forall i | 0 <= i < |rs| - 1 :: rs[..|rs| - 1][i] == rs[i];
      if !x.Day? then front
      else if front.Null? then x
      else if later && NotAfter(front.d, x.d) then NotAfterTrans(rs, c, front.d, x.d, true); x
      else if !later && NotAfter(x.d, front.d) then NotAfterTrans(rs, c, x.d, front.d, false); x
      else NotAfterTotal(front.d, x.d); front
  }

  lemma NotAfterTrans(rs: seq<Row>, c: string, a: Date, b: Date, later: bool)
    requires NotAfter(a, b)
    ensures forall d: Date | NotAfter(d, a) :: NotAfter(d, b)
    ensures forall d: Date | NotAfter(b, d) :: NotAfter(a, d)
  {
  }

  lemma NotAfterTotal(a: Date, b: Date)
    ensures NotAfter(a, b) || NotAfter(b, a)
  {
  }

  /** The earliest and latest dates of a column, as `Extreme` finds them. */
  predicate Earliest(rs: seq<Row>, c: string, v: Value)
  {
    (v.Null? && forall i | 0 <= i < |rs| :: !Get(rs[i], c).Day?) ||
    (v.Day? && (exists i | 0 <= i < |rs| :: Get(rs[i], c) == v) &&
     forall i | 0 <= i < |rs| && Get(rs[i], c).Day? :: NotAfter(v.d, Get(rs[i], c).d))
  }

  predicate Latest(rs: seq<Row>, c: string, v: Value)
  {
    (v.Null? && forall i | 0 <= i < |rs| :: !Get(rs[i], c).Day?) ||
    (v.Day? && (exists i | 0 <= i < |rs| :: Get(rs[i], c) == v) &&
     forall i | 0 <= i < |rs| && Get(rs[i], c).Day? :: NotAfter(Get(rs[i], c).d, v.d))
  }

  /**
   * `get_summary`: `{}` for an empty table; otherwise the row count, the
   * first and last movement dates, the credit total, the absolute debit
   * total and the last balance. Filtering on `tipo` raises `KeyError` when
   * the table has a `valor` column but no `tipo` column.
   */
  function GetSummary(f: Frame): (r: Result<Summary>)
    requires WellFormed(f)
    ensures r.Err? <==> !IsEmpty(f) && "valor" in f.columns && "tipo" !in f.columns
    ensures r.Ok? ==> (r.value.NoSummary? <==> IsEmpty(f))
    ensures r.Ok? && r.value.Totals? ==>
      && r.value.transacoes == |f.rows| > 0
      && Earliest(f.rows, "data_movimento", r.value.inicio)
      && Latest(f.rows, "data_movimento", r.value.fim)
      && r.value.creditos == (if "valor" in f.columns then SumOf(f.rows, "credit") else 0)
      && r.value.debitos == (if "valor" in f.columns then Abs(SumOf(f.rows, "debit")) else 0)
      && r.value.saldoFinal == (if "saldo" in f.columns then Get(f.rows[|f.rows| - 1], "saldo") else Num(0))
  {
    if IsEmpty(f) then Ok(NoSummary)
    else if "valor" in f.columns && "tipo" !in f.columns then Err("KeyError: 'tipo'")
    else
      var hasValor := "valor" in f.columns;
      assert "data_movimento" !in f.columns ==> forall i | 0 <= i < |f.rows| :: "data_movimento" !in f.rows[i];
      Ok(Totals(
        |f.rows|,
        if "data_movimento" in f.columns then Extreme(f.rows, "data_movimento", false) else Null,
        if "data_movimento" in f.columns then Extreme(f.rows, "data_movimento", true) else Null,
        if hasValor then SumOf(f.rows, "credit") else 0,
        if hasValor then Abs(SumOf(f.rows, "debit")) else 0,
        if "saldo" in f.columns then Get(f.rows[|f.rows| - 1], "saldo") else Num(0)))
  }

  /** The period of a summary is ordered: a start date exists exactly when an end date does, and comes no later. */
  lemma SummaryPeriod(f: Frame)
    requires WellFormed(f) && GetSummary(f).Ok? && GetSummary(f).value.Totals?
    ensures GetSummary(f).value.inicio.Day? <==> GetSummary(f).value.fim.Day?
    ensures GetSummary(f).value.inicio.Day? ==> NotAfter(GetSummary(f).value.inicio.d, GetSummary(f).value.fim.d)
  {
    var s := GetSummary(f).value;
    if s.inicio.Day? {
      var i :| 0 <= i < |f.rows| && Get(f.rows[i], "data_movimento") == s.inicio;
      assert Get(f.rows[i], "data_movimento").Day?;
    }
  }

  /** The totals of two row sequences add up: summing is done row by row. */
  lemma {:induction false} SumOfAppend(a: seq<Row>, b: seq<Row>, tipo: string)
    ensures SumOf(a + b, tipo) == SumOf(a, tipo) + SumOf(b, tipo)
    decreases |b|
  {
    if |b| == 0 {
      assert a + b == a;
    } else {
      var b0 := b[..|b| - 1];
      assert (a + b)[..|a + b| - 1] == a + b0;
      SumOfAppend(a, b0, tipo);
    }
  }
}
