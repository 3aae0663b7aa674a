/**
 * The table reader the Bradesco and Caixa extractors both carry: the first
 * row mentioning DATA, HISTÓRICO, VALOR or SALDO is the header, its cells
 * name the columns, and every later row of at least three cells with a full
 * date is a transaction. The amount's direction comes from a minus sign or
 * a D in the cell, and a debit is stored negated.
 */
module MappedTables {
  import opened Wrappers
  import opened Text
  import opened Numbers
  import opened Dates
  import opened Regex
  import opened Pdf
  import opened Patterns
  import GenericRows
  import Scan

  /** The words whose presence in a cell marks the header row. */
  const HeaderWords: seq<string> := ["DATA", "HISTÓRICO", "VALOR", "SALDO"]

  /** The column an upper-cased header cell names, tested in this order. */
  function Classify(u: string): Option<string>
  {
    if Contains(u, "DATA") then Some("data")
    else if ContainsAny(u, ["HISTÓRICO", "HISTORICO", "DESCRIÇÃO"]) then Some("historico")
    else if Contains(u, "DOCUMENTO") || Contains(u, "DOC") then Some("documento")
    else if Contains(u, "VALOR") then Some("valor")
    else if Contains(u, "SALDO") then Some("saldo")
    else None
  }

  /** The descriptions of the balance lines, which are not transactions. */
  const SaldoMarks: seq<string> := ["SALDO ANTERIOR", "SALDO ATUAL"]

  /** A transaction read from a table row, before the extractor adds its header fields. */
  datatype CellTxn = CellTxn(
    date: CalendarDate,
    historico: string,
    documento: string,
    valor: int,
    saldo: Option<int>,
    credit: bool)

  /** `str(row[cols[key]] or '').strip()`, '' for an unmapped key; `None` where the index raises. */
  function Field(row: TableRow, cols: GenericRows.ColMap, key: string): (r: Option<string>)
    ensures key !in cols ==> r == Some("")
    ensures r.None? <==> key in cols && cols[key] >= |row|
  {
    if key !in cols then Some("")
    else if cols[key] < |row| then Some(Strip(CellText(row[cols[key]])))
    else None
  }

  /**
   * `float(...)` of a cell after `re.sub(r'[^\d.,-]', '', s)`, the three-way
   * separator reading and `.replace('-', '')`: never negative, and `None`
   * where `float` raises.
   */
  function Magnitude(s: string): (r: Option<int>)
    ensures r.Some? ==> r.value >= 0
  {
    Float(Drop(MixedText(KeepIf(s, GenericRows.AmountChar)), '-'))
  }

  /** `'-' in valor_str or 'D' in valor_str.upper()` */
  predicate DebitText(s: string)
  {
    '-' in s || 'D' in Upper(s)
  }

  /** A filled amount cell: its magnitude, negated when the text marks a debit; `None` when it does not convert. */
  function Amount(raw: string): (r: Option<(int, bool)>)
    ensures r.Some? <==> Magnitude(Strip(raw)).Some?
    ensures r.Some? ==> (r.value.1 <==> !DebitText(Strip(raw)))
    ensures r.Some? ==> Abs(r.value.0) == Magnitude(Strip(raw)).value
    ensures r.Some? ==> if r.value.1 then r.value.0 >= 0 else r.value.0 <= 0
  {
    var s := Strip(raw);
    var m := Magnitude(s);
    if m.None? then None
    else if DebitText(s) then Some((-m.value, false))
    else Some((m.value, true))
  }

  /**
   * The amount of a row: `(0.0, 'debit')` when the column is unmapped or its
   * cell is empty, the cell's reading otherwise; `None` when the row is
   * skipped, because the index raises or `float` does.
   */
  function AmountOf(row: TableRow, cols: GenericRows.ColMap): (r: Option<(int, bool)>)
    ensures "valor" !in cols ==> r == Some((0, false))
    ensures "valor" in cols && cols["valor"] < |row| && !Filled(row[cols["valor"]]) ==> r == Some((0, false))
    ensures "valor" in cols && cols["valor"] < |row| && Filled(row[cols["valor"]]) ==> r == Amount(row[cols["valor"]].value)
    ensures "valor" in cols && cols["valor"] >= |row| ==> r.None?
    ensures r.None? ==> "valor" in cols
  {
    if "valor" !in cols then Some((0, false))
    else if cols["valor"] >= |row| then None
    else if !Filled(row[cols["valor"]]) then Some((0, false))
    else Amount(row[cols["valor"]].value)
  }

  /** The balance of a row, a magnitude or absent; the outer `None` when the index raises. */
  function SaldoOf(row: TableRow, cols: GenericRows.ColMap): (r: Option<Option<int>>)
    ensures r.Some? && r.value.Some? ==> r.value.value >= 0
    ensures r.None? <==> "saldo" in cols && cols["saldo"] >= |row|
  {
    if "saldo" !in cols then Some(None)
    else if cols["saldo"] >= |row| then None
    else if !Filled(row[cols["saldo"]]) then Some(None)
    else Some(Magnitude(Strip(row[cols["saldo"]].value)))
  }

  /** The text of the date cell, once the date column is mapped and inside the row. */
  function DateText(row: TableRow, cols: GenericRows.ColMap): string
    requires "data" in cols && cols["data"] < |row|
  {
    Strip(CellText(row[cols["data"]]))
  }

  /**
   * One row after the header row, with the checks in the order the source
   * makes them; every exception skips the row, as does every `continue`.
   */
  function RowTxn(cols: GenericRows.ColMap, row: TableRow): (r: Option<CellTxn>)
    ensures r.Some? ==> |row| >= 3 && "data" in cols && cols["data"] < |row|
    ensures r.Some? ==> ReMatch(FullDate, DateText(row, cols)).Some? && Strptime(DateText(row, cols)).Some? && Strptime(DateText(row, cols)).value == r.value.date
    ensures r.Some? ==> Field(row, cols, "historico") == Some(r.value.historico) && !ContainsAny(Upper(r.value.historico), SaldoMarks)
    ensures r.Some? ==> Field(row, cols, "documento") == Some(r.value.documento)
    ensures r.Some? ==> AmountOf(row, cols) == Some((r.value.valor, r.value.credit))
    ensures r.Some? ==> SaldoOf(row, cols) == Some(r.value.saldo)
  {
    if |row| < 3 || "data" !in cols || cols["data"] >= |row| then None
    else
      var ds := DateText(row, cols);
      if ReMatch(FullDate, ds).None? then None
      else
        match Strptime(ds)
        case None => None
        case Some(d) => RowFields(cols, row, d)
  }

  /** The cells after the date, once the date has converted to `d`. */
  function RowFields(cols: GenericRows.ColMap, row: TableRow, d: CalendarDate): (r: Option<CellTxn>)
    ensures r.Some? ==> r.value.date == d
    ensures r.Some? ==> Field(row, cols, "historico") == Some(r.value.historico) && !ContainsAny(Upper(r.value.historico), SaldoMarks)
    ensures r.Some? ==> Field(row, cols, "documento") == Some(r.value.documento)
    ensures r.Some? ==> AmountOf(row, cols) == Some((r.value.valor, r.value.credit))
    ensures r.Some? ==> SaldoOf(row, cols) == Some(r.value.saldo)
  {
    match Field(row, cols, "historico")
    case None => None
    case Some(hist) =>
      if ContainsAny(Upper(hist), SaldoMarks) then None
      else
        match Field(row, cols, "documento")
        case None => None
        case Some(doc) =>
          match AmountOf(row, cols)
          case None => None
          case Some(vc) =>
            match SaldoOf(row, cols)
            case None => None
            case Some(saldo) => Some(CellTxn(d, hist, doc, vc.0, saldo, vc.1))
  }

  /** A credit is never negative, a debit never positive, and a balance is a magnitude. */
  predicate Agrees(t: CellTxn)
  {
    (if t.credit then t.valor >= 0 else t.valor <= 0) && (t.saldo.Some? ==> t.saldo.value >= 0)
  }

  /**
   * What a kept row says about its cells: the direction is debit exactly when
   * a filled amount cell has a minus sign or a D, an empty or unmapped amount
   * is a zero debit, and the sign of the amount agrees with its direction.
   */
  lemma RowTxnCells(cols: GenericRows.ColMap, row: TableRow)
    requires RowTxn(cols, row).Some?
    ensures var t := RowTxn(cols, row).value;
      && Agrees(t)
      && (("valor" !in cols || !Filled(row[cols["valor"]])) ==> t.valor == 0 && !t.credit)
      && ("valor" in cols && Filled(row[cols["valor"]]) ==> (t.credit <==> !DebitText(Strip(row[cols["valor"]].value))))
  {
  }

  /** The keys the column mapping can produce. */
  predicate MappedKey(k: string)
  {
    k == "data" || k == "historico" || k == "documento" || k == "valor" || k == "saldo"
  }

  /** A filled amount cell that does not convert drops the row, and so does any mapped column outside the row. */
  lemma RowTxnSkips(cols: GenericRows.ColMap, row: TableRow, k: string)
    ensures "valor" in cols && cols["valor"] < |row| && Filled(row[cols["valor"]]) && Magnitude(Strip(row[cols["valor"]].value)).None?
      ==> RowTxn(cols, row).None?
    ensures MappedKey(k) && k in cols && cols[k] >= |row| ==> RowTxn(cols, row).None?
  {
  }

  /** The transactions of one table: none below two rows or without a header row, otherwise the kept rows after the header row. */
  function TableTxns(table: Table): (ts: seq<CellTxn>)
    ensures |table| < 2 || GenericRows.HeaderRow(table, HeaderWords).None? ==> ts == []
    ensures |ts| < |table| || ts == []
    ensures forall t | t in ts :: Agrees(t)
  {
    if |table| < 2 then []
    else
      match GenericRows.HeaderRow(table, HeaderWords)
      case None => []
      case Some(h) =>
        var cols := GenericRows.MapColumns(table[h], Classify);
        var ts := Scan.Collect(cols, table[h + 1..], RowTxn);
        assert forall t | t in ts :: Agrees(t) by {
          forall t | t in ts ensures Agrees(t) {
            var i :| 0 <= i < |table[h + 1..]| && RowTxn(cols, table[h + 1..][i]) == Some(t);
            RowTxnCells(cols, table[h + 1..][i]);
          }
        }
        ts
  }

  /** The column mapping reads the header row: every mapped key labels its cell, and the last cell with that label wins. */
  lemma HeaderColumns(header: TableRow)
    ensures var cols := GenericRows.MapColumns(header, Classify);
      && (forall k | k in cols :: cols[k] < |header| && GenericRows.Label(header, cols[k], Classify) == Some(k))
      && (forall k | k in cols :: forall j | cols[k] < j < |header| :: GenericRows.Label(header, j, Classify) != Some(k))
      && (forall j | 0 <= j < |header| && GenericRows.Label(header, j, Classify).Some? :: GenericRows.Label(header, j, Classify).value in cols)
  {
    GenericRows.MappedLabelled(header, Classify);
    GenericRows.MappedIsLast(header, Classify);
    GenericRows.LabelledMapped(header, Classify);
  }

  /** The body of the row loop, in the order the source reads the cells. */
  method ReadRow(cols: GenericRows.ColMap, row: TableRow) returns (r: Option<CellTxn>)
    ensures r == RowTxn(cols, row)
  {
    if |row| < 3 || "data" !in cols || cols["data"] >= |row| {
      return None;
    }
    var ds := DateText(row, cols);
    if ReMatch(FullDate, ds).None? {
      return None;
    }
    var d := Strptime(ds);
    if d.None? {
      return None;
    }
    r := ReadFields(cols, row, d.value);
  }

  /** The rest of the row loop's body, once the date has converted. */
  method ReadFields(cols: GenericRows.ColMap, row: TableRow, d: CalendarDate) returns (r: Option<CellTxn>)
    ensures r == RowFields(cols, row, d)
  {
    var hist := Field(row, cols, "historico");
    if hist.None? || ContainsAny(Upper(hist.value), SaldoMarks) {
      return None;
    }
    var doc := Field(row, cols, "documento");
    if doc.None? {
      return None;
    }
    var a := AmountOf(row, cols);
    if a.None? {
      return None;
    }
    var saldo := SaldoOf(row, cols);
    if saldo.None? {
      return None;
    }
    r := Some(CellTxn(d, hist.value, doc.value, a.value.0, saldo.value, a.value.1));
  }

  /** The table loop: the header search, the column mapping and the row loop. */
  method ReadTable(table: Table) returns (ts: seq<CellTxn>)
    ensures ts == TableTxns(table)
  {
    if |table| < 2 {
      return [];
    }
    var h := GenericRows.FindHeaderRow(table, HeaderWords);
    if h.None? {
      return [];
    }
    var cols := GenericRows.MapColumnsLoop(table[h.value], Classify);
    ts := ReadRows(cols, table[h.value + 1..]);
  }

  /** The loop over the rows below the header: each row that reads adds its transaction. */
  method ReadRows(cols: GenericRows.ColMap, rows: seq<TableRow>) returns (ts: seq<CellTxn>)
    ensures ts == Scan.Collect(cols, rows, RowTxn)
  {
    ts := [];
    var i := 0;
    while i < |rows|
      invariant 0 <= i <= |rows|
      invariant ts == Scan.Collect(cols, rows[..i], RowTxn)
    {
      Scan.CollectNext(cols, rows, i, RowTxn);
      var t := ReadRow(cols, rows[i]);
      if t.Some? {
        ts := ts + [t.value];
      }
      i := i + 1;
    }
    assert rows[..i] == rows;
  }
}
