/**
 * What the two generic extractors share: the transaction dictionaries they
 * build, the header-to-column mapping of a table, the search for a table's
 * header row, and the table-row parser of their table strategies.
 */
module GenericRows {
  import opened Wrappers
  import opened Text
  import opened Numbers
  import opened Dates
  import opened Regex
  import opened Frames
  import opened Pdf
  import opened BaseExtractor
  import opened Patterns
  import opened Best
  import Scan

  /** What an extractor knows besides the pages: the file name and the current year. */
  datatype Ctx = Ctx(arquivo: string, year: nat)

  /** A transaction as the generic strategies build it, before it becomes a dictionary. */
  datatype Txn = Txn(date: CalendarDate, historico: string, valor: int, saldo: Option<int>, banco: string)

  /** `'credit' if value > 0 else 'debit'` */
  function Tipo(v: int): string
  {
    if v > 0 then "credit" else "debit"
  }

  /** The keys of the table and line strategies' dictionaries, in order. */
  const NarrowKeys: seq<string> := ["arquivo", "data_movimento", "historico", "valor", "tipo", "banco"]

  /** The keys of the bank-specific strategies' dictionaries, with `documento` and `saldo` as well. */
  const WideKeys: seq<string> := ["arquivo", "data_movimento", "historico", "documento", "valor", "saldo", "tipo", "banco"]

  function Keys(wide: bool): seq<string>
  {
    if wide then WideKeys else NarrowKeys
  }

  function KeySet(wide: bool): set<string>
  {
    if wide then {"arquivo", "data_movimento", "historico", "documento", "valor", "saldo", "tipo", "banco"}
    else {"arquivo", "data_movimento", "historico", "valor", "tipo", "banco"}
  }

  lemma KeysAgree(wide: bool)
    ensures forall k :: k in Keys(wide) <==> k in KeySet(wide)
    ensures Distinct(Keys(wide))
  {
  }

  lemma NarrowKeysIn(wide: bool)
    ensures "arquivo" in Keys(wide) && "data_movimento" in Keys(wide) && "historico" in Keys(wide)
    ensures "valor" in Keys(wide) && "tipo" in Keys(wide) && "banco" in Keys(wide)
  {
    KeysAgree(wide);
  }

  /** The value a strategy stores under key `k`. */
  function Field(c: Ctx, t: Txn, k: string): Value
  {
    if k == "arquivo" then Str(c.arquivo)
    else if k == "data_movimento" then Str(Strftime(t.date))
    else if k == "historico" then Str(t.historico)
    else if k == "documento" then Str("")
    else if k == "valor" then Num(t.valor)
    else if k == "saldo" then OptNum(t.saldo)
    else if k == "tipo" then Str(Tipo(t.valor))
    else Str(t.banco)
  }

  /**
   * The dictionary of one transaction: the file name, the date printed as
   * dd/mm/yyyy (which reads back as the same date), the amount, 'credit'
   * exactly for a positive amount.
   */
  function ToRow(c: Ctx, t: Txn, wide: bool): (r: Row)
    ensures Get(r, "arquivo") == Str(c.arquivo)
    ensures Get(r, "data_movimento") == Str(Strftime(t.date))
    ensures Get(r, "historico") == Str(t.historico) && Get(r, "valor") == Num(t.valor)
    ensures Get(r, "tipo").Str? && (Get(r, "tipo") == Str("credit") <==> t.valor > 0)
  {
    map k | k in KeySet(wide) :: Field(c, t, k)
  }

  /** The bank is always stored; only the wide form has an (empty) documento and the balance. */
  lemma RowWideFields(c: Ctx, t: Txn, wide: bool)
    ensures Get(ToRow(c, t, wide), "banco") == Str(t.banco)
    ensures Get(ToRow(c, t, wide), "documento") == (if wide then Str("") else Null)
    ensures Get(ToRow(c, t, wide), "saldo") == (if wide then OptNum(t.saldo) else Null)
  {
  }

  /** The date cell of a transaction's dictionary reads back as the transaction's date. */
  lemma RowDateReadsBack(c: Ctx, t: Txn, wide: bool)
    ensures Get(ToRow(c, t, wide), "data_movimento").Str?
    ensures Strptime(Get(ToRow(c, t, wide), "data_movimento").s).Some?
    ensures Strptime(Get(ToRow(c, t, wide), "data_movimento").s).value == t.date
  {
    StrptimeStrftime(t.date);
  }

  lemma RowShaped(c: Ctx, t: Txn, wide: bool)
    ensures Shaped(ToRow(c, t, wide), Keys(wide))
  {
    KeysAgree(wide);
    assert ToRow(c, t, wide).Keys == KeySet(wide);
  }

  /** `pd.DataFrame(transactions)`: one row per transaction, in order; no columns when there are none. */
  function TxnFrame(c: Ctx, ts: seq<Txn>, wide: bool): (f: Frame)
    ensures WellFormed(f) && |f.rows| == |ts|
    ensures f.columns == if |ts| == 0 then [] else Keys(wide)
    ensures forall i | 0 <= i < |ts| :: f.rows[i] == ToRow(c, ts[i], wide)
  {
    var rs := seq(|ts|, i requires 0 <= i < |ts| => ToRow(c, ts[i], wide));
    assert Distinct(Keys(wide)) by { KeysAgree(wide); }
    assert forall i | 0 <= i < |rs| :: Shaped(rs[i], Keys(wide)) by {
      forall i | 0 <= i < |rs| ensures Shaped(rs[i], Keys(wide)) {
        RowShaped(c, ts[i], wide);
      }
    }
    Frame(if |ts| == 0 then [] else Keys(wide), rs)
  }

  /**
   * After standardisation every row of a non-empty transaction table holds
   * its transaction's date as a date, its amount as a number and its
   * direction unchanged.
   */
  lemma StandardizedTxns(c: Ctx, ts: seq<Txn>, wide: bool, i: nat)
    requires i < |ts|
    ensures Get(Standardize(TxnFrame(c, ts, wide)).rows[i], "data_movimento") == Day(ts[i].date)
    ensures Get(Standardize(TxnFrame(c, ts, wide)).rows[i], "valor") == Num(ts[i].valor)
    ensures Get(Standardize(TxnFrame(c, ts, wide)).rows[i], "tipo") == Str(Tipo(ts[i].valor))
    ensures Get(Standardize(TxnFrame(c, ts, wide)).rows[i], "arquivo") == Str(c.arquivo)
  {
    NarrowKeysIn(wide);
    StandardizedDate(c, ts, wide, i);
    StandardizedField(c, ts, wide, i, "valor");
    StandardizedField(c, ts, wide, i, "tipo");
    StandardizedField(c, ts, wide, i, "arquivo");
  }

  lemma StandardizedDate(c: Ctx, ts: seq<Txn>, wide: bool, i: nat)
    requires i < |ts| && "data_movimento" in Keys(wide)
    ensures Get(Standardize(TxnFrame(c, ts, wide)).rows[i], "data_movimento") == Day(ts[i].date)
  {
    StandardizedField(c, ts, wide, i, "data_movimento");
    StrptimeStrftime(ts[i].date);
  }

  /** A stored key's cell after standardisation: the stored value, coerced. */
  lemma StandardizedField(c: Ctx, ts: seq<Txn>, wide: bool, i: nat, k: string)
    requires i < |ts| && k in Keys(wide)
    ensures Get(Standardize(TxnFrame(c, ts, wide)).rows[i], k) == Coerced(k, Field(c, ts[i], k))
  {
    var f := TxnFrame(c, ts, wide);
    StandardizeCell(f, i, k);
    RowField(c, ts[i], wide, k);
  }

  lemma RowField(c: Ctx, t: Txn, wide: bool, k: string)
    requires k in Keys(wide)
    ensures Get(ToRow(c, t, wide), k) == Field(c, t, k)
  {
    KeysAgree(wide);
  }

  // ---------------------------------------------------------------------
  // Header-to-column mapping.

  /** Column indices by key ('data', 'historico', 'valor', 'saldo', 'documento'). */
  type ColMap = map<string, nat>

  /** The key of header cell `j`: its upper-cased text classified, when the cell is non-empty. */
  function Label(header: TableRow, j: nat, classify: string -> Option<string>): Option<string>
    requires j < |header|
  {
    if Filled(header[j]) then classify(Upper(header[j].value)) else None
  }

  /** `_map_columns`: each non-empty header cell the classifier recognises maps its key to the cell's index. */
  function MapColumns(header: TableRow, classify: string -> Option<string>): (m: ColMap)
    ensures forall k | k in m :: m[k] < |header|
  {
    if |header| == 0 then map[]
    else
      var n := |header| - 1;
      var last := Label(header, n, classify);
      if last.Some? then MapColumns(header[..n], classify)[last.value := n]
      else MapColumns(header[..n], classify)
  }

  lemma FrontLabels(header: TableRow, classify: string -> Option<string>, n: nat)
    requires n <= |header|
    ensures forall j | 0 <= j < n :: Label(header[..n], j, classify) == Label(header, j, classify)
  {
    forall j | 0 <= j < n ensures Label(header[..n], j, classify) == Label(header, j, classify) {
      assert header[..n][j] == header[j];
    }
  }

  /** A mapped key sits at a cell labelled with it. */
  lemma {:induction false} MappedLabelled(header: TableRow, classify: string -> Option<string>)
    ensures forall k | k in MapColumns(header, classify) :: Label(header, MapColumns(header, classify)[k], classify) == Some(k)
  {
    if |header| > 0 {
      var n := |header| - 1;
      MappedLabelled(header[..n], classify);
      FrontLabels(header, classify, n);
    }
  }

  /** The last labelled cell wins: no later cell carries a mapped key's label. */
  lemma {:induction false} MappedIsLast(header: TableRow, classify: string -> Option<string>)
    ensures forall k | k in MapColumns(header, classify) ::
      forall j | MapColumns(header, classify)[k] < j < |header| :: Label(header, j, classify) != Some(k)
  {
    if |header| > 0 {
      var n := |header| - 1;
      MappedIsLast(header[..n], classify);
      FrontLabels(header, classify, n);
    }
  }

  /** Every key some non-empty header cell is classified as is mapped. */
  lemma {:induction false} LabelledMapped(header: TableRow, classify: string -> Option<string>)
    ensures forall j | 0 <= j < |header| && Label(header, j, classify).Some? ::
      Label(header, j, classify).value in MapColumns(header, classify)
  {
    if |header| > 0 {
      var n := |header| - 1;
      LabelledMapped(header[..n], classify);
      FrontLabels(header, classify, n);
    }
  }

  /** The loop of `_map_columns`. */
  method MapColumnsLoop(header: TableRow, classify: string -> Option<string>) returns (m: ColMap)
    ensures m == MapColumns(header, classify)
  {
    m := map[];
    var i := 0;
    while i < |header|
      invariant 0 <= i <= |header|
      invariant m == MapColumns(header[..i], classify)
    {
      assert header[..i + 1][..i] == header[..i];
      var col := header[i];
      if Filled(col) {
        var key := classify(Upper(col.value));
        assert key == Label(header[..i + 1], i, classify);
        if key.Some? {
          m := m[key.value := i];
        }
      }
      i := i + 1;
    }
    assert header[..i] == header;
  }

  // ---------------------------------------------------------------------
  // The header row of a table.

  /** `any(kw in str(cell).upper() for cell in row if cell for kw in keywords)` */
  predicate Mentions(row: TableRow, keywords: seq<string>)
  {
    exists j | 0 <= j < |row| :: Filled(row[j]) && ContainsAny(Upper(row[j].value), keywords)
  }

  /** The index of the first row that mentions a keyword, if any. */
  function HeaderRow(table: Table, keywords: seq<string>): (r: Option<nat>)
    ensures r.Some? ==> r.value < |table| && Mentions(table[r.value], keywords)
    ensures r.Some? ==> forall i | 0 <= i < r.value :: !Mentions(table[i], keywords)
    ensures r.None? ==> forall i | 0 <= i < |table| :: !Mentions(table[i], keywords)
  {
    HeaderFrom(table, keywords, 0)
  }

  function HeaderFrom(table: Table, keywords: seq<string>, i: nat): (r: Option<nat>)
    requires i <= |table|
    ensures r.Some? ==> i <= r.value < |table| && Mentions(table[r.value], keywords)
    ensures r.Some? ==> forall j | i <= j < r.value :: !Mentions(table[j], keywords)
    ensures r.None? ==> forall j | i <= j < |table| :: !Mentions(table[j], keywords)
    decreases |table| - i
  {
    if i == |table| then None
    else if Mentions(table[i], keywords) then Some(i)
    else HeaderFrom(table, keywords, i + 1)
  }

  /** The header search loop, which breaks at the first row that mentions a keyword. */
  method FindHeaderRow(table: Table, keywords: seq<string>) returns (r: Option<nat>)
    ensures r == HeaderRow(table, keywords)
  {
    var i := 0;
    while i < |table|
      invariant 0 <= i <= |table|
      invariant HeaderFrom(table, keywords, i) == HeaderRow(table, keywords)
    {
      if Mentions(table[i], keywords) {
        return Some(i);
      }
      i := i + 1;
    }
    return None;
  }

  // ---------------------------------------------------------------------
  // The row parser of the generic table strategies.

  /** What the table strategy hands its row parser. */
  datatype RowEnv = RowEnv(ctx: Ctx, cols: ColMap, skips: seq<string>, banco: string)

  /** The characters `re.sub(r'[^\d.,-]', '', s)` keeps. */
  predicate AmountChar(ch: char)
  {
    IsDigit(ch) || ch == '.' || ch == ',' || ch == '-'
  }

  /** `float(re.sub(r'[^\d.,-]', '', s).replace(',', '.'))` */
  function CellAmount(s: string): Option<int>
  {
    CommaFloat(KeepIf(s, AmountChar))
  }

  /** `str(row[j] or '').strip()`; `None` when `j` is outside the row (`IndexError`). */
  function CellAt(row: TableRow, j: nat): Option<string>
  {
    if j < |row| then Some(Strip(CellText(row[j]))) else None
  }

  /** A date text completed with the current year when it has at most five characters. */
  function WithYear(ds: string, year: nat): string
  {
    if |ds| <= 5 then ds + "/" + NatToString(year) else ds
  }

  /** `strptime(date_str.replace('-', '/'), '%d/%m/%Y')` after completing a short date. */
  function CellDate(ds: string, year: nat): (d: Option<Date>)
    ensures d.Some? ==> Valid(d.value)
  {
    Strptime(Swap(WithYear(ds, year), '-', '/'))
  }

  /** The cell of column `key`, when the column is mapped and the row reaches it. */
  function Column(row: TableRow, cols: ColMap, key: string): Option<string>
  {
    if key in cols then CellAt(row, cols[key]) else None
  }

  /**
   * `_extract_transaction_from_row`: `None` when 'data' or 'valor' is not
   * mapped, a mapped cell is outside the row, the date cell does not start
   * with dd/dd or dd-dd or is no date, the amount does not parse, or the
   * description names one of the balance lines in `skips`.
   */
  function RowTxn(env: RowEnv, row: TableRow): (r: Option<Txn>)
    ensures r.Some? ==> "data" in env.cols && "valor" in env.cols
    ensures r.Some? ==> Column(row, env.cols, "data").Some? && Column(row, env.cols, "valor").Some?
    ensures r.Some? ==> !ContainsAny(Upper(r.value.historico), env.skips)
    ensures r.Some? ==> r.value.banco == env.banco && r.value.saldo.None?
  {
    var ds := Column(row, env.cols, "data");
    var vs := Column(row, env.cols, "valor");
    var hs := if "historico" in env.cols then Column(row, env.cols, "historico") else Some("");
    if ds.None? || vs.None? || hs.None? || ReMatch(DayMonth, ds.value).None? then None
    else
      var d := CellDate(ds.value, env.ctx.year);
      var v := CellAmount(vs.value);
      if d.None? || v.None? || ContainsAny(Upper(hs.value), env.skips) then None
      else Some(Txn(d.value, hs.value, v.value, None, env.banco))
  }

  /**
   * A transaction read from a row comes from its cells: the date cell starts
   * with dd/dd or dd-dd and reads as the transaction's date, the amount cell
   * as its amount, and the description is the mapped cell or empty.
   */
  lemma RowTxnCells(env: RowEnv, row: TableRow)
    requires RowTxn(env, row).Some?
    ensures ReMatch(DayMonth, Column(row, env.cols, "data").value).Some?
    ensures CellDate(Column(row, env.cols, "data").value, env.ctx.year).Some?
    ensures CellDate(Column(row, env.cols, "data").value, env.ctx.year).value == RowTxn(env, row).value.date
    ensures CellAmount(Column(row, env.cols, "valor").value) == Some(RowTxn(env, row).value.valor)
    ensures RowTxn(env, row).value.historico == (if "historico" in env.cols then Column(row, env.cols, "historico").value else "")
  {
  }

  /**
   * An amount written with a thousands dot, such as "1.234,56", does not
   * parse: once the comma becomes a point the text has two points, so such
   * a row is dropped.
   */
  lemma ThousandsDotRejected(ip: string, th: string, cents: string)
    requires IsDigits(ip) && |th| == 3 && AllDigits(th) && IsDigits(cents)
    ensures CellAmount(ip + "." + th + "," + cents) == None
  {
    var s := ip + "." + th + "," + cents;
    var n := |ip|;
    BrazilianShape(ip, th, cents);
    AllKept(s);
    var u := Swap(s, ',', '.');
    assert u[0] == s[0] && u[|u| - 1] == s[|s| - 1] && u[n] == '.' && u[n + 4] == '.';
    EdgeDigitsStrip(u);
    SwapKeepsDigits(s, n);
    FirstDotAt(u, n);
    SecondDotFails(u, n + 4);
    DigitLedSigned(u);
  }

  lemma SwapKeepsDigits(s: string, n: nat)
    requires n <= |s| && forall i | 0 <= i < n :: IsDigit(s[i])
    ensures forall i | 0 <= i < n :: Swap(s, ',', '.')[i] != '.'
  {
  }

  /** Text that starts with a digit has no sign, so `float` reads it as an unsigned numeral. */
  lemma DigitLedSigned(u: string)
    requires |u| > 0 && IsDigit(u[0])
    ensures Unsigned(u).None? ==> Signed(u).None?
  {
    assert u[0] != '-' && u[0] != '+';
  }

  /** The characters of "ddd.ddd,dd": all kept by the amount filter, digits at both ends, points and the comma in place. */
  lemma BrazilianShape(ip: string, th: string, cents: string)
    requires IsDigits(ip) && |th| == 3 && AllDigits(th) && IsDigits(cents)
    ensures var s := ip + "." + th + "," + cents;
      && (forall i | 0 <= i < |s| :: AmountChar(s[i]))
      && IsDigit(s[0]) && IsDigit(s[|s| - 1])
      && (forall i | 0 <= i < |ip| :: IsDigit(s[i]))
      && s[|ip|] == '.' && s[|ip| + 4] == ','
  {
    var s := ip + "." + th + "," + cents;
    var n := |ip|;
    forall i | 0 <= i < |s| ensures AmountChar(s[i]) && (i < n ==> IsDigit(s[i])) {
      if i < n { assert s[i] == ip[i]; }
      else if n + 1 <= i < n + 4 { assert s[i] == th[i - n - 1]; }
      else if n + 5 <= i { assert s[i] == cents[i - n - 5]; }
    }
    assert s[|s| - 1] == cents[|cents| - 1];
  }

  /** The first '.' of `u` is at `n` when the text before it has none. */
  lemma FirstDotAt(u: string, n: nat)
    requires n < |u| && u[n] == '.' && forall j | 0 <= j < n :: u[j] != '.'
    ensures Find(u, ".") == n
  {
    assert OccursAt(u, ".", n) by { assert u[n..n + 1] == "."; }
    forall j: nat | j < n ensures !OccursAt(u, ".", j) {
      assert u[j..j + 1][0] == u[j];
    }
  }

  lemma {:induction false} AllKept(s: string)
    requires forall i | 0 <= i < |s| :: AmountChar(s[i])
    ensures KeepIf(s, AmountChar) == s
  {
    if |s| > 0 {
      AllKept(s[1..]);
      assert [s[0]] + s[1..] == s;
    }
  }

  /** A numeral with a second '.' after the first does not parse. */
  lemma SecondDotFails(u: string, j: nat)
    requires 0 <= Find(u, ".") < j < |u| && u[j] == '.'
    ensures Unsigned(u) == None
  {
    var k := Find(u, ".");
    assert u[k + 1..][j - k - 1] == '.';
  }

  /** Text that starts and ends with a digit is its own `strip()`. */
  lemma EdgeDigitsStrip(u: string)
    requires |u| > 0 && IsDigit(u[0]) && IsDigit(u[|u| - 1])
    ensures Strip(u) == u
  {
    assert !IsSpace(u[0]) && !IsSpace(u[|u| - 1]);
    StripKeeps(u);
  }

  /** The row parser never turns a row into a transaction whose description names a skipped balance line. */
  lemma RowTxnSkips(env: RowEnv, rows: seq<TableRow>)
    ensures forall t | t in Scan.Collect(env, rows, RowTxn) :: !ContainsAny(Upper(t.historico), env.skips)
  {
  }

  // ---------------------------------------------------------------------
  // The generic table strategy.

  /** What distinguishes the table strategies of the two generic extractors. */
  datatype TableSpec = TableSpec(keywords: seq<string>, classify: string -> Option<string>, skips: seq<string>, banco: string)

  /** A table strategy applied to one document. */
  datatype TableEnv = TableEnv(spec: TableSpec, ctx: Ctx)

  /**
   * One table: nothing when it has fewer than two rows or no header row;
   * otherwise the rows after the header, parsed with the header's columns.
   */
  function TableTxns(env: TableEnv, table: Table): (ts: seq<Txn>)
    ensures |table| < 2 ==> ts == []
    ensures ts == [] || |ts| < |table|
  {
    if |table| < 2 then []
    else
      match HeaderRow(table, env.spec.keywords)
      case None => []
      case Some(h) =>
        var renv := RowEnv(env.ctx, MapColumns(table[h], env.spec.classify), env.spec.skips, env.spec.banco);
        Scan.Collect(renv, table[h + 1..], RowTxn)
  }

  /** The transactions of one page: its tables in order. */
  function PageTableTxns(env: TableEnv, p: Page): seq<Txn>
  {
    Scan.FlatMap(env, p.tables, TableTxns)
  }

  /** `_extract_table_based` for one table: header search, column mapping, then the rows after the header. */
  method ScanTable(env: TableEnv, table: Table) returns (ts: seq<Txn>)
    ensures ts == TableTxns(env, table)
  {
    if |table| < 2 {
      return [];
    }
    var h := FindHeaderRow(table, env.spec.keywords);
    if h.None? {
      return [];
    }
    var cols := MapColumnsLoop(table[h.value], env.spec.classify);
    ts := Scan.CollectLoop(RowEnv(env.ctx, cols, env.spec.skips, env.spec.banco), table[h.value + 1..], RowTxn);
  }

  /** The table strategy over a document: an exception when the file does not open, otherwise the rows of every table of every page. */
  function TableStrategy(spec: TableSpec, doc: Document, year: nat): (o: Outcome)
    ensures o.Raised? <==> doc.pages.None?
    ensures o.Produced? ==> o.info == map[] && WellFormed(o.frame)
  {
    if doc.pages.None? then Raised
    else
      var ctx := Ctx(doc.name, year);
      Produced(TxnFrame(ctx, Scan.FlatMap(TableEnv(spec, ctx), doc.pages.value, PageTableTxns), false), map[])
  }

  /** The loop over one page's tables. */
  method ScanPageTables(env: TableEnv, p: Page) returns (ts: seq<Txn>)
    ensures ts == PageTableTxns(env, p)
  {
    ts := [];
    var j := 0;
    while j < |p.tables|
      invariant 0 <= j <= |p.tables|
      invariant ts == Scan.FlatMap(env, p.tables[..j], TableTxns)
    {
      assert p.tables[..j + 1][..j] == p.tables[..j];
      var more := ScanTable(env, p.tables[j]);
      ts := ts + more;
      j := j + 1;
    }
    assert p.tables[..j] == p.tables;
  }

  /** The table strategy's loop over pages. */
  method RunTableStrategy(spec: TableSpec, doc: Document, year: nat) returns (o: Outcome)
    ensures o == TableStrategy(spec, doc, year)
  {
    if doc.pages.None? {
      return Raised;
    }
    var pages := doc.pages.value;
    var env := TableEnv(spec, Ctx(doc.name, year));
    var ts: seq<Txn> := [];
    var i := 0;
    while i < |pages|
      invariant 0 <= i <= |pages|
      invariant ts == Scan.FlatMap(env, pages[..i], PageTableTxns)
    {
      assert pages[..i + 1][..i] == pages[..i];
      var more := ScanPageTables(env, pages[i]);
      ts := ts + more;
      i := i + 1;
    }
    assert pages[..i] == pages;
    o := Produced(TxnFrame(env.ctx, ts, false), map[]);
  }

  /** What every row of a table strategy satisfies: its bank name, no balance, no skipped description. */
  predicate FromSpec(spec: TableSpec, t: Txn)
  {
    t.banco == spec.banco && t.saldo.None? && !ContainsAny(Upper(t.historico), spec.skips)
  }

  lemma TableRowsFromSpec(env: TableEnv, table: Table)
    ensures forall t | t in TableTxns(env, table) :: FromSpec(env.spec, t)
  {
  }

  /** Every row of the table strategy carries the strategy's bank name, no balance, and no description from its skip list. */
  lemma TableStrategyRows(spec: TableSpec, doc: Document, year: nat)
    requires doc.pages.Some?
    ensures forall t | t in Scan.FlatMap(TableEnv(spec, Ctx(doc.name, year)), doc.pages.value, PageTableTxns) :: FromSpec(spec, t)
  {
    var env := TableEnv(spec, Ctx(doc.name, year));
    var ok := (t: Txn) => FromSpec(spec, t);
    var pages := doc.pages.value;
    forall i, t | 0 <= i < |pages| && t in PageTableTxns(env, pages[i]) ensures ok(t) {
      var tables := pages[i].tables;
      forall j, u | 0 <= j < |tables| && u in TableTxns(env, tables[j]) ensures ok(u) {
        TableRowsFromSpec(env, tables[j]);
      }
      Scan.FlatMapAll(env, tables, TableTxns, ok);
    }
    Scan.FlatMapAll(env, pages, PageTableTxns, ok);
  }
}
