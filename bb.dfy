/**
 * The Banco do Brasil statement reader `extract_bb_statement`: per page, the
 * account header from the first fifteen lines of text, then every table
 * with a `Dt. movimento` header row, read row by row. Amounts carry a C/D
 * letter; debits are stored negated. The folder variant of the same
 * function also stamps every row with the file name, so the file name is
 * an optional parameter here.
 */
module Bb {
  import opened Wrappers
  import opened Text
  import opened Numbers
  import opened Dates
  import opened Regex
  import opened Frames
  import opened Pdf
  import opened Patterns
  import Scan

  // ---------------------------------------------------------------------
  // The page header.

  /** `page_info`: the header fields found on a page, each absent until a line sets it. */
  datatype PageInfo = PageInfo(
    banco: Option<string>,
    agencia: Option<string>,
    conta: Option<string>,
    nomeConta: Option<string>,
    periodo: Option<string>)

  const NoInfo: PageInfo := PageInfo(None, None, None, None, None)

  /** `(\d+-\d+)` */
  const AgenciaRe: Re := Grp(1, Cat(Plus(Digit), Cat(Chr(Among("-")), Plus(Digit))))

  /** `\d+-\w+`, tried with `re.match` on each word. */
  const ContaRe: Re := Cat(Plus(Digit), Cat(Chr(Among("-")), Plus(Word)))

  /** `(\d+/\d+)` */
  const PeriodoRe: Re := Grp(1, Cat(Plus(Digit), Cat(Chr(Among("/")), Plus(Digit))))

  /** The index of the first word the account pattern accepts. */
  function ContaWord(parts: seq<string>): (r: Option<nat>)
    ensures r.Some? ==> r.value < |parts| && ReMatch(ContaRe, parts[r.value]).Some?
    ensures r.Some? ==> forall i | 0 <= i < r.value :: ReMatch(ContaRe, parts[i]).None?
    ensures r.None? ==> forall i | 0 <= i < |parts| :: ReMatch(ContaRe, parts[i]).None?
  {
    if |parts| == 0 then None
    else if ReMatch(ContaRe, parts[0]).Some? then Some(0)
    else
      match ContaWord(parts[1..])
      case None => None
      case Some(i) => Some(i + 1)
  }

  /**
   * One header line: the first keyword test that holds decides which field
   * the line may set, so a line changes at most one field (the account and
   * its name together), and only a line with that field's keyword changes it.
   */
  function HeaderLine(info: PageInfo, line: string): (out: PageInfo)
    ensures out.banco == info.banco || (Contains(line, "BANCO") && Contains(line, "001") && out.banco == Some(Strip(line)))
    ensures out.agencia == info.agencia || Contains(line, "Agência")
    ensures (out.conta == info.conta && out.nomeConta == info.nomeConta) ||
      (Contains(line, "Conta corrente") && out.conta.Some? && out.nomeConta.Some? &&
       ReMatch(ContaRe, out.conta.value).Some? && out.conta.value in Words(line))
    ensures out.periodo == info.periodo || Contains(line, "Período do extrato")
    ensures out.banco != info.banco ==> out.(banco := info.banco) == info
    ensures out.agencia != info.agencia ==> out.(agencia := info.agencia) == info
    ensures out.periodo != info.periodo ==> out.(periodo := info.periodo) == info
  {
    if Contains(line, "BANCO") && Contains(line, "001") then info.(banco := Some(Strip(line)))
    else if Contains(line, "Agência") then
      match ReSearch(AgenciaRe, line)
      case None => info
      case Some(m) => info.(agencia := Some(Group(line, m, 1)))
    else if Contains(line, "Conta corrente") then
      var parts := Words(line);
      match ContaWord(parts)
      case None => info
      case Some(i) =>
        assert parts[i] in parts;
        info.(conta := Some(parts[i]), nomeConta := Some(Join(" ", parts[i + 1..])))
    else if Contains(line, "Período do extrato") then
      match ReSearch(PeriodoRe, line)
      case None => info
      case Some(m) => info.(periodo := Some(Group(line, m, 1)))
    else info
  }

  /** `lines[:15]` */
  function HeaderLines(lines: seq<string>): (hs: seq<string>)
    ensures |hs| <= 15 && hs <= lines
  {
    if |lines| <= 15 then lines else lines[..15]
  }

  /** The page header: the header lines in order, a later line overwriting what an earlier one set. */
  function PageHeader(lines: seq<string>): PageInfo
  {
    Scan.Thread(NoInfo, HeaderLines(lines), HeaderLine)
  }

  /** Where each field of a header can come from: a line with its keyword, and for the account a word of that line. */
  predicate Sourced(info: PageInfo, lines: seq<string>)
  {
    && (info.banco.Some? ==> exists l | l in lines :: Contains(l, "BANCO") && Contains(l, "001") && info.banco.value == Strip(l))
    && (info.agencia.Some? ==> exists l | l in lines :: Contains(l, "Agência"))
    && (info.conta.Some? ==>
          info.nomeConta.Some? && ReMatch(ContaRe, info.conta.value).Some? &&
          exists l | l in lines :: Contains(l, "Conta corrente") && info.conta.value in Words(l))
    && (info.periodo.Some? ==> exists l | l in lines :: Contains(l, "Período do extrato"))
  }

  lemma HeaderLineSourced(info: PageInfo, lines: seq<string>, line: string)
    requires Sourced(info, lines)
    ensures Sourced(HeaderLine(info, line), lines + [line])
  {
    var ls := lines + [line];
    assert line in ls;
    assert forall l | l in lines :: l in ls;
  }

  /**
   * Every field of a page header was set by one of the page's first fifteen
   * lines carrying that field's keyword; the account is a word of its line
   * that the account pattern accepts, and it never comes without a name.
   */
  lemma {:induction false} PageHeaderSourced(lines: seq<string>)
    ensures Sourced(PageHeader(lines), HeaderLines(lines))
  {
    ThreadSourced(HeaderLines(lines));
  }

  lemma {:induction false} ThreadSourced(ls: seq<string>)
    ensures Sourced(Scan.Thread(NoInfo, ls, HeaderLine), ls)
  {
    if |ls| > 0 {
      var front := ls[..|ls| - 1];
      ThreadSourced(front);
      HeaderLineSourced(Scan.Thread(NoInfo, front, HeaderLine), front, ls[|ls| - 1]);
      assert front + [ls[|ls| - 1]] == ls;
    }
  }

  /** Lines after the fifteenth never change the header. */
  lemma PageHeaderFirst15(lines: seq<string>, more: seq<string>)
    requires |lines| >= 15
    ensures PageHeader(lines + more) == PageHeader(lines)
  {
    assert HeaderLines(lines + more) == HeaderLines(lines);
  }

  /** The header loop over `lines[:15]`. */
  method ReadHeader(lines: seq<string>) returns (info: PageInfo)
    ensures info == PageHeader(lines)
  {
    var hs := HeaderLines(lines);
    info := NoInfo;
    var i := 0;
    while i < |hs|
      invariant 0 <= i <= |hs|
      invariant info == Scan.Thread(NoInfo, hs[..i], HeaderLine)
    {
      Scan.ThreadNext(NoInfo, hs, i, HeaderLine);
      info := HeaderLine(info, hs[i]);
      i := i + 1;
    }
    assert hs[..i] == hs;
  }

  // ---------------------------------------------------------------------
  // Amounts.

  /** One C/D match: its number converted, negated for a debit; nothing when `float` raises. */
  function Reading(cell: string, m: Match): (r: Option<(int, bool)>)
    ensures r.Some? ==> (r.value.1 <==> Group(cell, m, 2) == "C")
    ensures '-' !in Group(cell, m, 1) && r.Some? ==> if r.value.1 then r.value.0 >= 0 else r.value.0 <= 0
  {
    match MixedFloat(Group(cell, m, 1))
    case None => None
    case Some(v) =>
      var credit := Group(cell, m, 2) == "C";
      Some((if credit then v else -v, credit))
  }

  /** `findall` over a cell, then the first match whose number converts. */
  function FirstValue(cell: string, ms: seq<Match>): (r: Option<(int, bool)>)
  {
    if |ms| == 0 then None
    else if Reading(cell, ms[0]).Some? then Reading(cell, ms[0])
    else FirstValue(cell, ms[1..])
  }

  /** The amount of column `col`, when the column exists and is filled. */
  function ColumnValue(row: TableRow, col: nat): (r: Option<(int, bool)>)
    ensures r.Some? ==> col < |row|
  {
    if col < |row| && Filled(row[col]) then
      var cell := Strip(row[col].value);
      FirstValue(cell, FindIter(CdAmount, cell))
    else None
  }

  /** The first of the columns `cols` that yields an amount. */
  function ValueIn(row: TableRow, cols: seq<nat>): (r: Option<(int, bool)>)
    ensures r.Some? ==> exists j | 0 <= j < |cols| :: r == ColumnValue(row, cols[j])
  {
    if |cols| == 0 then None
    else if ColumnValue(row, cols[0]).Some? then ColumnValue(row, cols[0])
    else ValueIn(row, cols[1..])
  }

  /** The value columns, in the order they are searched. */
  const ValueColumns: seq<nat> := [5, 6]

  /** Columns 5 then 6: the first that yields an amount. */
  function RowValue(row: TableRow): (r: Option<(int, bool)>)
    ensures r.Some? ==> |row| > 5
    ensures r.Some? ==> r == ColumnValue(row, 5) || r == ColumnValue(row, 6)
    ensures ColumnValue(row, 5).Some? ==> r == ColumnValue(row, 5)
  {
    ValueIn(row, ValueColumns)
  }

  lemma {:induction false} FirstValueSign(cell: string, ms: seq<Match>)
    requires forall m | m in ms :: '-' !in Group(cell, m, 1)
    ensures FirstValue(cell, ms).Some? ==> var (v, credit) := FirstValue(cell, ms).value; if credit then v >= 0 else v <= 0
  {
    if |ms| > 0 {
      assert ms[0] in ms;
      if Reading(cell, ms[0]).None? {
        assert forall m | m in ms[1..] :: m in ms;
        FirstValueSign(cell, ms[1..]);
      }
    }
  }

  lemma ColumnValueSign(row: TableRow, col: nat)
    ensures ColumnValue(row, col).Some? ==> var (v, credit) := ColumnValue(row, col).value; if credit then v >= 0 else v <= 0
  {
    if col < |row| && Filled(row[col]) {
      var cell := Strip(row[col].value);
      CdAmountWithin();
      FindAmountUnsigned(CdAmount, cell, 1);
      FirstValueSign(cell, FindIter(CdAmount, cell));
    }
  }

  /** A credit is never negative and a debit never positive: the C/D letter decides the sign. */
  lemma RowValueSign(row: TableRow)
    ensures RowValue(row).Some? ==> var (v, credit) := RowValue(row).value; if credit then v >= 0 else v <= 0
  {
    ColumnValueSign(row, 5);
    ColumnValueSign(row, 6);
  }

  /** The amount search: columns 5 and 6 in turn, leaving the loop at the first column that yields an amount. */
  method ReadValue(row: TableRow) returns (r: Option<(int, bool)>)
    ensures r == RowValue(row)
  {
    var cols := ValueColumns;
    var k := 0;
    assert cols[k..] == cols;
    while k < |cols|
      invariant 0 <= k <= |cols|
      invariant ValueIn(row, cols[k..]) == ValueIn(row, cols)
    {
      r := ReadColumn(row, cols[k]);
      assert cols[k..][0] == cols[k];
      if r.Some? {
        return;
      }
      assert cols[k..][1..] == cols[k + 1..];
      k := k + 1;
    }
    assert cols[k..] == [];
    return None;
  }

  /** One column: the matches in order, leaving the loop at the first number that converts. */
  method ReadColumn(row: TableRow, col: nat) returns (r: Option<(int, bool)>)
    ensures r == ColumnValue(row, col)
  {
    if !(col < |row| && Filled(row[col])) {
      return None;
    }
    var cell := Strip(row[col].value);
    var ms := FindIter(CdAmount, cell);
    var i := 0;
    assert ms[i..] == ms;
    while i < |ms|
      invariant 0 <= i <= |ms|
      invariant FirstValue(cell, ms[i..]) == FirstValue(cell, ms)
    {
      r := Reading(cell, ms[i]);
      assert ms[i..][0] == ms[i];
      if r.Some? {
        return;
      }
      assert ms[i..][1..] == ms[i + 1..];
      i := i + 1;
    }
    assert ms[i..] == [];
    return None;
  }

  /** The balance: the first C/D match of column 6, as an unsigned magnitude; absent when the cell is missing or does not convert. */
  function Saldo(row: TableRow): (r: Option<int>)
    ensures r.Some? ==> |row| > 6 && r.value >= 0
  {
    if |row| > 6 && Filled(row[6]) && row[6].value != "None" then
      var s := Strip(row[6].value);
      match ReSearch(CdAmount, s)
      case None => None
      case Some(m) =>
        CdAmountWithin();
        SearchAmountUnsigned(CdAmount, s, 1);
        MixedFloat(Group(s, m, 1))
    else None
  }

  // ---------------------------------------------------------------------
  // Rows.

  /** A transaction row together with the header of the page it was found on. */
  datatype BbTxn = BbTxn(
    date: CalendarDate,
    historico: string,
    documento: string,
    valor: int,
    saldo: Option<int>,
    credit: bool,
    page: PageInfo)

  /** The descriptions of the opening and closing balance lines. */
  const SaldoMarks: seq<string> := ["SALDO ANTERIOR", "S A L D O"]

  /**
   * One row after the header row. Reading `row[4]` raises on a four-cell row
   * and the exception skips the row, so only rows of at least five cells go
   * on; the amount columns then need six.
   */
  function RowTxn(page: PageInfo, row: TableRow): (r: Option<BbTxn>)
    ensures r.Some? ==> |row| > 5
    ensures r.Some? ==> var ds := Strip(CellText(row[0])); ReMatch(FullDate, ds).Some? && Strptime(ds).Some? && Strptime(ds).value == r.value.date
    ensures r.Some? ==> r.value.historico == Strip(CellText(row[3])) && r.value.historico !in {"", "None"}
    ensures r.Some? ==> !ContainsAny(Upper(r.value.historico), SaldoMarks)
    ensures r.Some? ==> r.value.documento != "None" && r.value.page == page
    ensures r.Some? ==> r.value.saldo == Saldo(row) && Some((r.value.valor, r.value.credit)) == RowValue(row)
  {
    if |row| < 4 then None
    else
      var c0 := CellText(row[0]);
      if Contains(c0, "Dt. movimento") || Contains(c0, "Lançamentos") then None
      else
        var ds := Strip(c0);
        if ReMatch(FullDate, ds).None? then None
        else
          match Strptime(ds)
          case None => None
          case Some(d) =>
            var hist := Strip(CellText(row[3]));
            if hist == "" || hist == "None" then None
            else if ContainsAny(Upper(hist), SaldoMarks) then None
            else if |row| < 5 then None
            else
              var doc := Strip(CellText(row[4]));
              match RowValue(row)
              case None => None
              case Some(vc) =>
                Some(BbTxn(d, hist, if doc == "None" then "" else doc, vc.0, Saldo(row), vc.1, page))
  }

  /** Every emitted row's sign agrees with its direction, and its balance is a magnitude. */
  lemma RowTxnSign(page: PageInfo, row: TableRow)
    ensures RowTxn(page, row).Some? ==> var t := RowTxn(page, row).value; (if t.credit then t.valor >= 0 else t.valor <= 0)
  {
    RowValueSign(row);
  }

  // ---------------------------------------------------------------------
  // Tables.

  /** `any('Dt. movimento' in str(cell) for cell in row if cell)` */
  predicate IsHeaderRow(row: TableRow)
  {
    exists j | 0 <= j < |row| :: Filled(row[j]) && Contains(row[j].value, "Dt. movimento")
  }

  /** The first header row at or after `i`. */
  function HeaderFrom(table: Table, i: nat): (r: Option<nat>)
    requires i <= |table|
    ensures r.Some? ==> i <= r.value < |table| && IsHeaderRow(table[r.value])
    ensures r.Some? ==> forall j | i <= j < r.value :: !IsHeaderRow(table[j])
    ensures r.None? ==> forall j | i <= j < |table| :: !IsHeaderRow(table[j])
    decreases |table| - i
  {
    if i == |table| then None
    else if IsHeaderRow(table[i]) then Some(i)
    else HeaderFrom(table, i + 1)
  }

  /** The rows of one table: none below two rows or without a header row, otherwise the rows after the first header row. */
  function TableTxns(page: PageInfo, table: Table): (ts: seq<BbTxn>)
    ensures |table| < 2 || HeaderFrom(table, 0).None? ==> ts == []
    ensures |ts| < |table| || ts == []
  {
    if |table| < 2 then []
    else
      match HeaderFrom(table, 0)
      case None => []
      case Some(h) => Scan.Collect(page, table[h + 1..], RowTxn)
  }

  /** The header search loop, which breaks at the first row that mentions `Dt. movimento`. */
  method FindHeaderRow(table: Table) returns (r: Option<nat>)
    ensures r == HeaderFrom(table, 0)
  {
    var i := 0;
    while i < |table|
      invariant 0 <= i <= |table|
      invariant HeaderFrom(table, i) == HeaderFrom(table, 0)
    {
      if IsHeaderRow(table[i]) {
        return Some(i);
      }
      i := i + 1;
    }
    return None;
  }

  /** The row loop over one table. */
  method ReadTable(page: PageInfo, table: Table) returns (ts: seq<BbTxn>)
    ensures ts == TableTxns(page, table)
  {
    if |table| < 2 {
      return [];
    }
    var h := FindHeaderRow(table);
    if h.None? {
      return [];
    }
    var rows := table[h.value + 1..];
    ts := [];
    var i := 0;
    while i < |rows|
      invariant 0 <= i <= |rows|
      invariant ts == Scan.Collect(page, rows[..i], RowTxn)
    {
      assert rows[..i + 1][..i] == rows[..i];
      var t := ReadRow(page, rows[i]);
      if t.Some? {
        ts := ts + [t.value];
      }
      i := i + 1;
    }
    assert rows[..i] == rows;
  }

  /** The body of the row loop: the checks in the order the source makes them. */
  method ReadRow(page: PageInfo, row: TableRow) returns (r: Option<BbTxn>)
    ensures r == RowTxn(page, row)
  {
    if |row| < 4 {
      return None;
    }
    var c0 := CellText(row[0]);
    if Contains(c0, "Dt. movimento") || Contains(c0, "Lançamentos") {
      return None;
    }
    var ds := Strip(c0);
    if ReMatch(FullDate, ds).None? {
      return None;
    }
    var d := Strptime(ds);
    if d.None? {
      return None;
    }
    var hist := Strip(CellText(row[3]));
    if hist == "" || hist == "None" || ContainsAny(Upper(hist), SaldoMarks) {
      return None;
    }
    if |row| < 5 {
      return None;
    }
    var doc := Strip(CellText(row[4]));
    if doc == "None" {
      doc := "";
    }
    var v := ReadValue(row);
    if v.None? {
      return None;
    }
    r := Some(BbTxn(d.value, hist, doc, v.value.0, Saldo(row), v.value.1, page));
  }

  // ---------------------------------------------------------------------
  // Pages and the document.

  /** The header of a page; a page without text has none (the document then raises anyway). */
  function PageInfoOf(p: Page): PageInfo
  {
    if p.text.Extracted? then PageHeader(PageLines(p.text)) else NoInfo
  }

  /** The transactions of one page: its tables in order, each row carrying the page's header. */
  function PageTxns(p: Page): seq<BbTxn>
  {
    Scan.FlatMap(PageInfoOf(p), p.tables, TableTxns)
  }

  function PagesTxns(pages: seq<Page>): seq<BbTxn>
  {
    if |pages| == 0 then [] else PagesTxns(pages[..|pages| - 1]) + PageTxns(pages[|pages| - 1])
  }

  /** The page headers, in page order. */
  function Headers(pages: seq<Page>): (hs: seq<PageInfo>)
    ensures |hs| == |pages| && forall i | 0 <= i < |pages| :: hs[i] == PageInfoOf(pages[i])
  {
    seq(|pages|, i requires 0 <= i < |pages| => PageInfoOf(pages[i]))
  }

  /** `contas_info[conta] = page_info` for a header that names an account. */
  function Note(contas: map<string, PageInfo>, info: PageInfo): map<string, PageInfo>
  {
    if info.conta.Some? then contas[info.conta.value := info] else contas
  }

  /** `contas_info` after a run of page headers. */
  function Accounts(infos: seq<PageInfo>): map<string, PageInfo>
  {
    if |infos| == 0 then map[] else Note(Accounts(infos[..|infos| - 1]), infos[|infos| - 1])
  }

  /** Whether header `i` is the last one naming account `k`. */
  predicate LastNaming(infos: seq<PageInfo>, k: string, i: nat)
  {
    i < |infos| && infos[i].conta == Some(k) && forall j | i < j < |infos| :: infos[j].conta != Some(k)
  }

  /**
   * The accounts map is keyed by account: an account is a key exactly when
   * some page names it, and its entry is the header of the last page naming it.
   */
  lemma {:induction false} AccountsLast(infos: seq<PageInfo>, k: string)
    ensures k in Accounts(infos) <==> exists i | 0 <= i < |infos| :: infos[i].conta == Some(k)
    ensures k in Accounts(infos) ==> exists i: nat :: LastNaming(infos, k, i) && i < |infos| && Accounts(infos)[k] == infos[i]
  {
    AccountsKeys(infos, k);
    if k in Accounts(infos) {
      AccountsEntry(infos, k);
    }
  }

  /** An account is a key exactly when some page names it. */
  lemma {:induction false} AccountsKeys(infos: seq<PageInfo>, k: string)
    ensures k in Accounts(infos) <==> exists i | 0 <= i < |infos| :: infos[i].conta == Some(k)
  {
    if |infos| > 0 {
      var n := |infos| - 1;
      var front := infos[..n];
      AccountsKeys(front, k);
      assert k in Accounts(infos) <==> k in Accounts(front) || infos[n].conta == Some(k);
      if exists i | 0 <= i < |infos| :: infos[i].conta == Some(k) {
        var i :| 0 <= i < |infos| && infos[i].conta == Some(k);
        if i < n {
          assert front[i].conta == Some(k);
        }
      }
      if exists i | 0 <= i < |front| :: front[i].conta == Some(k) {
        var i :| 0 <= i < |front| && front[i].conta == Some(k);
        assert infos[i] == front[i];
      }
    }
  }

  /** A key's entry is the header of the last page naming it. */
  lemma {:induction false} AccountsEntry(infos: seq<PageInfo>, k: string)
    requires k in Accounts(infos)
    ensures exists i: nat :: LastNaming(infos, k, i) && i < |infos| && Accounts(infos)[k] == infos[i]
  {
    var n := |infos| - 1;
    var front := infos[..n];
    if infos[n].conta == Some(k) {
      assert LastNaming(infos, k, n);
    } else {
      assert k in Accounts(front);
      AccountsEntry(front, k);
      var i: nat :| LastNaming(front, k, i) && i < |front| && Accounts(front)[k] == front[i];
      assert LastNaming(infos, k, i);
    }
  }

  /** `extract_bb_statement`: an exception when the file does not open or a page has no text, otherwise the rows and the accounts. */
  function Extract(doc: Document): (r: Result<(seq<BbTxn>, map<string, PageInfo>)>)
    ensures r.Ok? <==> doc.pages.Some? && AllExtracted(doc.pages.value)
  {
    if doc.pages.None? then Err("cannot open PDF")
    else if !AllExtracted(doc.pages.value) then Err("page without text")
    else Ok((PagesTxns(doc.pages.value), Accounts(Headers(doc.pages.value))))
  }

  /** A transaction whose amount carries the sign of its letter and whose balance is a magnitude. */
  predicate Agrees(t: BbTxn)
  {
    (if t.credit then t.valor >= 0 else t.valor <= 0) && (t.saldo.Some? ==> t.saldo.value >= 0)
  }

  /** Every transaction of a table comes from one of its rows, so its sign agrees with its letter. */
  lemma TableAgrees(page: PageInfo, table: Table)
    ensures forall t | t in TableTxns(page, table) :: Agrees(t)
  {
    if |table| >= 2 && HeaderFrom(table, 0).Some? {
      var rows := table[HeaderFrom(table, 0).value + 1..];
      forall t | t in TableTxns(page, table) ensures Agrees(t) {
        var i :| 0 <= i < |rows| && RowTxn(page, rows[i]) == Some(t);
        RowTxnSign(page, rows[i]);
      }
    }
  }

  /** The same for all pages of a document. */
  lemma {:induction false} PagesAgree(pages: seq<Page>)
    ensures forall t | t in PagesTxns(pages) :: Agrees(t)
  {
    if |pages| > 0 {
      var p := pages[|pages| - 1];
      PagesAgree(pages[..|pages| - 1]);
      forall i | 0 <= i < |p.tables| ensures forall t | t in TableTxns(PageInfoOf(p), p.tables[i]) :: Agrees(t) {
        TableAgrees(PageInfoOf(p), p.tables[i]);
      }
      Scan.FlatMapAll(PageInfoOf(p), p.tables, TableTxns, Agrees);
    }
  }

  lemma PagesSnoc(pages: seq<Page>, i: nat)
    requires i < |pages|
    ensures PagesTxns(pages[..i + 1]) == PagesTxns(pages[..i]) + PageTxns(pages[i])
    ensures Accounts(Headers(pages[..i + 1])) == Note(Accounts(Headers(pages[..i])), PageInfoOf(pages[i]))
  {
    assert pages[..i + 1][..i] == pages[..i];
    assert Headers(pages[..i + 1])[..i] == Headers(pages[..i]);
  }

  /** One page of text: its header, then its tables, added to what the earlier pages gave. */
  method ReadTextPage(pages: seq<Page>, i: nat, ts: seq<BbTxn>, contas: map<string, PageInfo>)
    returns (ts': seq<BbTxn>, contas': map<string, PageInfo>)
    requires i < |pages| && pages[i].text.Extracted?
    requires ts == PagesTxns(pages[..i]) && contas == Accounts(Headers(pages[..i]))
    ensures ts' == PagesTxns(pages[..i + 1]) && contas' == Accounts(Headers(pages[..i + 1]))
  {
    var p := pages[i];
    var info := ReadHeader(PageLines(p.text));
    var more := ReadPage(info, p.tables);
    PagesSnoc(pages, i);
    ts' := ts + more;
    contas' := if info.conta.Some? then contas[info.conta.value := info] else contas;
  }

  /** The page loop: `text.split` raises at the first page without text. */
  method ExtractStatement(doc: Document) returns (r: Result<(seq<BbTxn>, map<string, PageInfo>)>)
    ensures r == Extract(doc)
  {
    if doc.pages.None? {
      return Err("cannot open PDF");
    }
    var pages := doc.pages.value;
    var ts: seq<BbTxn> := [];
    var contas: map<string, PageInfo> := map[];
    var i := 0;
    while i < |pages|
      invariant 0 <= i <= |pages|
      invariant AllExtracted(pages[..i])
      invariant ts == PagesTxns(pages[..i])
      invariant contas == Accounts(Headers(pages[..i]))
    {
      if !pages[i].text.Extracted? {
        assert !pages[i].text.Extracted?;
        return Err("page without text");
      }
      ts, contas := ReadTextPage(pages, i, ts, contas);
      ExtractedSnoc(pages, i);
      i := i + 1;
    }
    assert pages[..i] == pages;
    r := Ok((ts, contas));
  }

  /** The table loop of one page. */
  method ReadPage(info: PageInfo, tables: seq<Table>) returns (ts: seq<BbTxn>)
    ensures ts == Scan.FlatMap(info, tables, TableTxns)
  {
    ts := [];
    var j := 0;
    while j < |tables|
      invariant 0 <= j <= |tables|
      invariant ts == Scan.FlatMap(info, tables[..j], TableTxns)
    {
      assert tables[..j + 1][..j] == tables[..j];
      var more := ReadTable(info, tables[j]);
      ts := ts + more;
      j := j + 1;
    }
    assert tables[..j] == tables;
  }

  // ---------------------------------------------------------------------
  // The DataFrame.

  /** The keys of a transaction dictionary, in order; the folder variant puts `arquivo` first. */
  function Keys(arquivo: Option<string>): (ks: seq<string>)
  {
    (if arquivo.Some? then ["arquivo"] else [])
      + ["data_movimento", "historico", "documento", "valor", "saldo", "tipo", "conta", "nome_conta", "agencia", "periodo", "banco"]
  }

  /** `'credit' if cd_flag == 'C' else 'debit'` */
  function Tipo(credit: bool): string
  {
    if credit then "credit" else "debit"
  }

  /** The dictionary of one transaction; header fields a page did not set read as ''. */
  function Field(arquivo: Option<string>, t: BbTxn, k: string): Value
  {
    if k == "arquivo" then Str(arquivo.GetOr(""))
    else if k == "data_movimento" then Str(Strftime(t.date))
    else if k == "historico" then Str(t.historico)
    else if k == "documento" then Str(t.documento)
    else if k == "valor" then Num(t.valor)
    else if k == "saldo" then OptNum(t.saldo)
    else if k == "tipo" then Str(Tipo(t.credit))
    else if k == "conta" then Str(t.page.conta.GetOr(""))
    else if k == "nome_conta" then Str(t.page.nomeConta.GetOr(""))
    else if k == "agencia" then Str(t.page.agencia.GetOr(""))
    else if k == "periodo" then Str(t.page.periodo.GetOr(""))
    else Str(t.page.banco.GetOr(""))
  }

  lemma KeysDistinct(arquivo: Option<string>)
    ensures Distinct(Keys(arquivo))
  {
  }

  function ToRow(arquivo: Option<string>, t: BbTxn): (r: Row)
    ensures Shaped(r, Keys(arquivo))
  {
    map k | k in Keys(arquivo) :: Field(arquivo, t, k)
  }

  /** `pd.DataFrame(all_transactions)`: one row per transaction in order; no columns when there are none. */
  function TxnFrame(arquivo: Option<string>, ts: seq<BbTxn>): (f: Frame)
    ensures WellFormed(f) && |f.rows| == |ts|
    ensures f.columns == if |ts| == 0 then [] else Keys(arquivo)
    ensures forall i | 0 <= i < |ts| :: f.rows[i] == ToRow(arquivo, ts[i])
  {
    KeysDistinct(arquivo);
    Frame(if |ts| == 0 then [] else Keys(arquivo), seq(|ts|, i requires 0 <= i < |ts| => ToRow(arquivo, ts[i])))
  }

  lemma RowGet(arquivo: Option<string>, t: BbTxn, k: string)
    requires k in Keys(arquivo)
    ensures Get(ToRow(arquivo, t), k) == Field(arquivo, t, k)
  {
  }

  /**
   * In the table a row's `tipo` is 'credit' exactly for a C amount, a credit's
   * `valor` is never negative and a debit's never positive, the page's
   * account travels with the row, and the balance is never negative.
   */
  lemma RowCells(arquivo: Option<string>, page: PageInfo, row: TableRow)
    requires RowTxn(page, row).Some?
    ensures var r := ToRow(arquivo, RowTxn(page, row).value);
      && (Get(r, "tipo") == Str("credit") <==> RowTxn(page, row).value.credit)
      && Get(r, "valor").Num?
      && (if Get(r, "tipo") == Str("credit") then Get(r, "valor").cents >= 0 else Get(r, "valor").cents <= 0)
      && Get(r, "conta") == Str(page.conta.GetOr(""))
      && (Get(r, "saldo").Num? ==> Get(r, "saldo").cents >= 0)
  {
    var t := RowTxn(page, row).value;
    RowTxnSign(page, row);
    TxnCells(arquivo, t);
  }

  /** The cells of one transaction's row, for a transaction whose sign agrees with its letter. */
  lemma TxnCells(arquivo: Option<string>, t: BbTxn)
    requires if t.credit then t.valor >= 0 else t.valor <= 0
    requires t.saldo.Some? ==> t.saldo.value >= 0
    ensures var r := ToRow(arquivo, t);
      && (Get(r, "tipo") == Str("credit") <==> t.credit)
      && Get(r, "valor") == Num(t.valor)
      && (if Get(r, "tipo") == Str("credit") then Get(r, "valor").cents >= 0 else Get(r, "valor").cents <= 0)
      && Get(r, "conta") == Str(t.page.conta.GetOr(""))
      && (Get(r, "saldo").Num? ==> Get(r, "saldo").cents >= 0)
  {
    TxnFields(arquivo, t);
    TipoCredit(t.credit);
  }

  lemma TxnFields(arquivo: Option<string>, t: BbTxn)
    ensures var r := ToRow(arquivo, t);
      && Get(r, "tipo") == Str(Tipo(t.credit))
      && Get(r, "valor") == Num(t.valor)
      && Get(r, "conta") == Str(t.page.conta.GetOr(""))
      && Get(r, "saldo") == OptNum(t.saldo)
  {
    var ks := Keys(arquivo);
    var n := |ks| - 11;
    assert ks[n + 3] == "valor" && ks[n + 4] == "saldo" && ks[n + 5] == "tipo" && ks[n + 6] == "conta";
    TipoField(arquivo, t);
    ValorField(arquivo, t);
    ContaField(arquivo, t);
    SaldoField(arquivo, t);
  }

  lemma TipoField(arquivo: Option<string>, t: BbTxn)
    requires "tipo" in Keys(arquivo)
    ensures Get(ToRow(arquivo, t), "tipo") == Str(Tipo(t.credit))
  {
    RowGet(arquivo, t, "tipo");
  }

  lemma ValorField(arquivo: Option<string>, t: BbTxn)
    requires "valor" in Keys(arquivo)
    ensures Get(ToRow(arquivo, t), "valor") == Num(t.valor)
  {
    RowGet(arquivo, t, "valor");
  }

  lemma ContaField(arquivo: Option<string>, t: BbTxn)
    requires "conta" in Keys(arquivo)
    ensures Get(ToRow(arquivo, t), "conta") == Str(t.page.conta.GetOr(""))
  {
    RowGet(arquivo, t, "conta");
  }

  lemma SaldoField(arquivo: Option<string>, t: BbTxn)
    requires "saldo" in Keys(arquivo)
    ensures Get(ToRow(arquivo, t), "saldo") == OptNum(t.saldo)
  {
    RowGet(arquivo, t, "saldo");
  }

  /** The `tipo` text is 'credit' exactly for a credit. */
  lemma TipoCredit(credit: bool)
    ensures Str(Tipo(credit)) == Str("credit") <==> credit
  {
    if !credit {
      assert Tipo(credit)[0] == 'd';
    }
  }
}
