/**
 * `BradescoExtractor.extract_statement`: per page, header fields from the
 * first twenty lines of text, then every table read by the shared
 * mapped-column reader, each row carrying its own page's header.
 */
module Bradesco {
  import opened Wrappers
  import opened Text
  import opened Numbers
  import opened Dates
  import opened Regex
  import opened Frames
  import opened Pdf
  import opened Patterns
  import opened MappedTables
  import Scan

  // ---------------------------------------------------------------------
  // The page header.

  /** `extract_header_info`'s dictionary: each field absent until a line sets it. */
  datatype PageInfo = PageInfo(
    banco: Option<string>,
    agencia: Option<string>,
    conta: Option<string>,
    periodoInicio: Option<Date>,
    periodoFim: Option<Date>,
    titular: Option<string>)

  const NoInfo: PageInfo := PageInfo(None, None, None, None, None, None)

  /** `\d+[-.]?\d*` */
  const NumberRe: Re := Cat(Plus(Digit), Cat(Opt(Chr(Among("-."))), Star(Digit)))

  /** `(\d+[-.]?\d*)` */
  const ContaRe: Re := Grp(1, NumberRe)

  /** The holder keywords, in the order they are tried. */
  const TitularWords: seq<string> := ["TITULAR", "CLIENTE", "CORRENTISTA"]

  /** `'AGÊNCIA' in u or 'AG.' in u` */
  predicate AgenciaLine(u: string)
  {
    Contains(u, "AGÊNCIA") || Contains(u, "AG.")
  }

  /** `'CONTA' in u and 'CORRENTE' in u` */
  predicate ContaLine(u: string)
  {
    Contains(u, "CONTA") && Contains(u, "CORRENTE")
  }

  /** `'PERÍODO' in u or 'PERIODO' in u` */
  predicate PeriodoLine(u: string)
  {
    Contains(u, "PERÍODO") || Contains(u, "PERIODO")
  }

  /** The index of the first keyword of `kws` that occurs in `u`. */
  function FirstKeyword(u: string, kws: seq<string>): (j: nat)
    requires ContainsAny(u, kws)
    ensures j < |kws| && Contains(u, kws[j])
    ensures forall i | 0 <= i < j :: !Contains(u, kws[i])
  {
    if Contains(u, kws[0]) then 0
    else
      assert ContainsAny(u, kws[1..]) by {
        var j :| 0 <= j < |kws| && Contains(u, kws[j]);
        assert kws[1..][j - 1] == kws[j];
      }
      1 + FirstKeyword(u, kws[1..])
  }

  /** `s.split(kw)[1]`: the text between the first and the second occurrence of `kw`. */
  function SecondPart(s: string, kw: string): (p: string)
    requires |kw| > 0 && Contains(s, kw)
    ensures !Contains(p, kw)
  {
    var k := Find(s, kw);
    var rest := s[k + |kw|..];
    var k2 := Find(rest, kw);
    if k2 < 0 then rest
    else
      assert !Contains(rest[..k2], kw) by {
        forall j: nat | j <= k2 ensures !OccursAt(rest[..k2], kw, j) {
          if OccursAt(rest[..k2], kw, j) {
            assert rest[j..j + |kw|] == rest[..k2][j..j + |kw|];
            assert OccursAt(rest, kw, j);
          }
        }
      }
      rest[..k2]
  }

  /** The dates written on a line, `re.findall(r'\d{2}/\d{2}/\d{4}', line)`. */
  function LineDates(line: string): seq<Match>
  {
    FindIter(FullDate, line)
  }

  /**
   * The period assignment inside its `try`: with two dates, the start is
   * stored as soon as it converts, and the end only if it converts too.
   */
  function Period(info: PageInfo, line: string): (out: PageInfo)
    ensures out.(periodoInicio := info.periodoInicio, periodoFim := info.periodoFim) == info
    ensures out.periodoInicio != info.periodoInicio ==>
      |LineDates(line)| >= 2 && out.periodoInicio == Strptime(Whole(line, LineDates(line)[0]))
    ensures out.periodoFim != info.periodoFim ==>
      |LineDates(line)| >= 2 && out.periodoInicio == Strptime(Whole(line, LineDates(line)[0])) && out.periodoInicio.Some?
      && out.periodoFim == Strptime(Whole(line, LineDates(line)[1])) && out.periodoFim.Some?
  {
    var ds := LineDates(line);
    if |ds| < 2 then info
    else
      match Strptime(Whole(line, ds[0]))
      case None => info
      case Some(a) =>
        match Strptime(Whole(line, ds[1]))
        case None => info.(periodoInicio := Some(a))
        case Some(b) => info.(periodoInicio := Some(a), periodoFim := Some(b))
  }

  /**
   * One header line, stripped: each field has its own keyword test, so one
   * line may set several fields, and a field only changes on a line
   * carrying its keyword.
   */
  function HeaderLine(info: PageInfo, raw: string): (out: PageInfo)
    ensures var l := Strip(raw); var u := Upper(l);
      && (out.banco == info.banco || (Contains(u, "BRADESCO") && out.banco == Some(l)))
      && (out.agencia == info.agencia ||
          (AgenciaLine(u) && ReSearch(NumberRe, l).Some? && out.agencia == Some(Whole(l, ReSearch(NumberRe, l).value))))
      && (out.conta == info.conta ||
          (ContaLine(u) && ReSearch(ContaRe, l).Some? && out.conta == Some(Group(l, ReSearch(ContaRe, l).value, 1))))
      && (out.periodoInicio == info.periodoInicio || PeriodoLine(u))
      && (out.periodoFim == info.periodoFim || PeriodoLine(u))
      && (out.titular == info.titular || ContainsAny(u, TitularWords))
  {
    var l := Strip(raw);
    var u := Upper(l);
    var i1 := if Contains(u, "BRADESCO") then info.(banco := Some(l)) else info;
    var i3 := ContaStep(AgenciaStep(i1, l, u), l, u);
    var i4 := if PeriodoLine(u) then Period(i3, l) else i3;
    TitularStep(i4, u)
  }

  /** The agency: the first number of a line that names it. */
  function AgenciaStep(info: PageInfo, l: string, u: string): (out: PageInfo)
    ensures out == info.(agencia := out.agencia)
    ensures out.agencia == info.agencia ||
      (AgenciaLine(u) && ReSearch(NumberRe, l).Some? && out.agencia == Some(Whole(l, ReSearch(NumberRe, l).value)))
  {
    if AgenciaLine(u) then
      match ReSearch(NumberRe, l)
      case None => info
      case Some(m) => info.(agencia := Some(Whole(l, m)))
    else info
  }

  /** The account: the first group of the account pattern on a line that names it. */
  function ContaStep(info: PageInfo, l: string, u: string): (out: PageInfo)
    ensures out == info.(conta := out.conta)
    ensures out.conta == info.conta ||
      (ContaLine(u) && ReSearch(ContaRe, l).Some? && out.conta == Some(Group(l, ReSearch(ContaRe, l).value, 1)))
  {
    if ContaLine(u) then
      match ReSearch(ContaRe, l)
      case None => info
      case Some(m) => info.(conta := Some(Group(l, m, 1)))
    else info
  }

  /** The holder: what follows the first holder keyword on the line. */
  function TitularStep(info: PageInfo, u: string): (out: PageInfo)
    ensures out == info.(titular := out.titular)
    ensures out.titular == info.titular || ContainsAny(u, TitularWords)
  {
    if ContainsAny(u, TitularWords) then
      var kw := TitularWords[FirstKeyword(u, TitularWords)];
      info.(titular := Some(Strip(SecondPart(u, kw))))
    else info
  }

  /** `text.split('\n')[:20]` */
  function HeaderLines(lines: seq<string>): (hs: seq<string>)
    ensures |hs| <= 20 && hs <= lines
  {
    if |lines| <= 20 then lines else lines[..20]
  }

  /** The header of a page: its first twenty lines in order, a later line overwriting what an earlier one set. */
  function PageHeader(lines: seq<string>): PageInfo
  {
    Scan.Thread(NoInfo, HeaderLines(lines), HeaderLine)
  }

  /** Every field that is set came from one of `lines` carrying its keyword. */
  predicate Sourced(info: PageInfo, lines: seq<string>)
  {
    && (info.banco.Some? ==> exists l | l in lines :: Contains(Upper(Strip(l)), "BRADESCO") && info.banco.value == Strip(l))
    && (info.agencia.Some? ==> exists l | l in lines :: AgenciaLine(Upper(Strip(l))))
    && (info.conta.Some? ==> exists l | l in lines :: ContaLine(Upper(Strip(l))))
    && (info.periodoInicio.Some? ==> exists l | l in lines :: PeriodoLine(Upper(Strip(l))))
    && (info.periodoFim.Some? ==> exists l | l in lines :: PeriodoLine(Upper(Strip(l))))
    && (info.titular.Some? ==> exists l | l in lines :: ContainsAny(Upper(Strip(l)), TitularWords))
  }

  lemma HeaderLineSourced(info: PageInfo, lines: seq<string>, line: string)
    requires Sourced(info, lines)
    ensures Sourced(HeaderLine(info, line), lines + [line])
  {
    var ls := lines + [line];
    assert line in ls;
    assert forall l | l in lines :: l in ls;
  }

  lemma {:induction false} ThreadSourced(ls: seq<string>)
    ensures Sourced(Scan.Thread(NoInfo, ls, HeaderLine), ls)
  {
    if |ls| > 0 {
      var front := ls[..|ls| - 1];
      ThreadSourced(front);
      HeaderLineSourced(Scan.Thread(NoInfo, front, HeaderLine), front, ls[|ls| - 1]);
      assert front + [ls[|ls| - 1]] == ls;
    }
  }

  /**
   * Every field of a page header was set by one of the page's first twenty
   * lines carrying that field's keyword: the agency by an AGÊNCIA or AG.
   * line, the account by a CONTA CORRENTE line, the period by a PERÍODO line.
   */
  lemma PageHeaderSourced(lines: seq<string>)
    ensures Sourced(PageHeader(lines), HeaderLines(lines))
  {
    ThreadSourced(HeaderLines(lines));
  }

  /** Lines after the twentieth never change the header. */
  lemma PageHeaderFirst20(lines: seq<string>, more: seq<string>)
    requires |lines| >= 20
    ensures PageHeader(lines + more) == PageHeader(lines)
  {
    assert HeaderLines(lines + more) == HeaderLines(lines);
  }

  /** The header loop over `lines[:20]`. */
  method ReadHeader(lines: seq<string>) returns (info: PageInfo)
    ensures info == PageHeader(lines)
  {
    var hs := HeaderLines(lines);
    info := NoInfo;
    var i := 0;
    while i < |hs|
      invariant 0 <= i <= |hs|
      invariant info == Scan.Thread(NoInfo, hs[..i], HeaderLine)
    {
      Scan.ThreadNext(NoInfo, hs, i, HeaderLine);
      info := HeaderLine(info, hs[i]);
      i := i + 1;
    }
    assert hs[..i] == hs;
  }

  // ---------------------------------------------------------------------
  // Tables, pages and the document.

  /** A table row's transaction together with the header of its page. */
  datatype Txn = Txn(cell: CellTxn, page: PageInfo)

  /** `extract_transactions_from_table(table, page_info)` */
  function TableRows(info: PageInfo, table: Table): (ts: seq<Txn>)
    ensures |ts| == |TableTxns(table)|
    ensures forall i | 0 <= i < |ts| :: ts[i] == Txn(TableTxns(table)[i], info)
  {
    var cs := TableTxns(table);
    seq(|cs|, i requires 0 <= i < |cs| => Txn(cs[i], info))
  }

  /** The header of a page; a page without text has none (the document then raises anyway). */
  function PageInfoOf(p: Page): PageInfo
  {
    if p.text.Extracted? then PageHeader(PageLines(p.text)) else NoInfo
  }

  /** The transactions of one page: its tables in order. */
  function PageTxns(p: Page): seq<Txn>
  {
    Scan.FlatMap(PageInfoOf(p), p.tables, TableRows)
  }

  function PagesTxns(pages: seq<Page>): seq<Txn>
  {
    if |pages| == 0 then [] else PagesTxns(pages[..|pages| - 1]) + PageTxns(pages[|pages| - 1])
  }

  /** `extract_statement`'s transactions: an exception when the file does not open or a page has no text. */
  function Extract(doc: Document): (r: Result<seq<Txn>>)
    ensures r.Ok? <==> doc.pages.Some? && AllExtracted(doc.pages.value)
  {
    if doc.pages.None? then Err("cannot open PDF")
    else if !AllExtracted(doc.pages.value) then Err("page without text")
    else Ok(PagesTxns(doc.pages.value))
  }

  /**
   * Every row of a page carries that page's header, and every amount of the
   * document agrees in sign with its direction.
   */
  lemma PageRowsHeader(p: Page)
    ensures forall t | t in PageTxns(p) :: t.page == PageInfoOf(p) && Agrees(t.cell)
  {
    var info := PageInfoOf(p);
    forall i, t | 0 <= i < |p.tables| && t in TableRows(info, p.tables[i])
      ensures t.page == info && Agrees(t.cell)
    {
      var k :| 0 <= k < |TableRows(info, p.tables[i])| && TableRows(info, p.tables[i])[k] == t;
      assert TableTxns(p.tables[i])[k] in TableTxns(p.tables[i]);
    }
    Scan.FlatMapAll(info, p.tables, TableRows, (t: Txn) => t.page == info && Agrees(t.cell));
  }

  lemma {:induction false} PagesAgree(pages: seq<Page>)
    ensures forall t | t in PagesTxns(pages) :: Agrees(t.cell)
  {
    if |pages| > 0 {
      PagesAgree(pages[..|pages| - 1]);
      PageRowsHeader(pages[|pages| - 1]);
    }
  }

  lemma PagesSnoc(pages: seq<Page>, i: nat)
    requires i < |pages|
    ensures PagesTxns(pages[..i + 1]) == PagesTxns(pages[..i]) + PageTxns(pages[i])
  {
    assert pages[..i + 1][..i] == pages[..i];
  }

  /** The table loop of one page. */
  method ReadPage(info: PageInfo, tables: seq<Table>) returns (ts: seq<Txn>)
    ensures ts == Scan.FlatMap(info, tables, TableRows)
  {
    ts := [];
    var j := 0;
    while j < |tables|
      invariant 0 <= j <= |tables|
      invariant ts == Scan.FlatMap(info, tables[..j], TableRows)
    {
      assert tables[..j + 1][..j] == tables[..j];
      var cs := ReadTable(tables[j]);
      var more := seq(|cs|, k requires 0 <= k < |cs| => Txn(cs[k], info));
      ts := ts + more;
      j := j + 1;
    }
    assert tables[..j] == tables;
  }

  /** The page loop: `text.split` raises at the first page without text. */
  method ExtractTxns(doc: Document) returns (r: Result<seq<Txn>>)
    ensures r == Extract(doc)
  {
    if doc.pages.None? {
      return Err("cannot open PDF");
    }
    var pages := doc.pages.value;
    var ts: seq<Txn> := [];
    var i := 0;
    while i < |pages|
      invariant 0 <= i <= |pages|
      invariant AllExtracted(pages[..i])
      invariant ts == PagesTxns(pages[..i])
    {
      if !pages[i].text.Extracted? {
        return Err("page without text");
      }
      var info := ReadHeader(PageLines(pages[i].text));
      var more := ReadPage(info, pages[i].tables);
      PagesSnoc(pages, i);
      ExtractedSnoc(pages, i);
      ts := ts + more;
      i := i + 1;
    }
    assert pages[..i] == pages;
    r := Ok(ts);
  }

  // ---------------------------------------------------------------------
  // The DataFrame.

  /** The keys of a transaction dictionary, in order. */
  const Keys: seq<string> :=
    ["arquivo", "data_movimento", "historico", "documento", "valor", "saldo", "tipo", "conta", "agencia", "banco", "titular"]

  function Tipo(credit: bool): string
  {
    if credit then "credit" else "debit"
  }

  /** One cell of a transaction's dictionary; a header field the page did not set reads as '', the bank as 'BRADESCO'. */
  function Cell(arquivo: string, t: Txn, k: string): Value
  {
    if k == "arquivo" then Str(arquivo)
    else if k == "data_movimento" then Str(Strftime(t.cell.date))
    else if k == "historico" then Str(t.cell.historico)
    else if k == "documento" then Str(t.cell.documento)
    else if k == "valor" then Num(t.cell.valor)
    else if k == "saldo" then OptNum(t.cell.saldo)
    else if k == "tipo" then Str(Tipo(t.cell.credit))
    else if k == "conta" then Str(t.page.conta.GetOr(""))
    else if k == "agencia" then Str(t.page.agencia.GetOr(""))
    else if k == "banco" then Str(t.page.banco.GetOr("BRADESCO"))
    else Str(t.page.titular.GetOr(""))
  }

  function ToRow(arquivo: string, t: Txn): (r: Row)
    ensures Shaped(r, Keys)
  {
    map k | k in Keys :: Cell(arquivo, t, k)
  }

  /** `pd.DataFrame(all_transactions)`: one row per transaction in order; no columns when there are none. */
  function TxnFrame(arquivo: string, ts: seq<Txn>): (f: Frame)
    ensures WellFormed(f) && |f.rows| == |ts|
    ensures f.columns == if |ts| == 0 then [] else Keys
    ensures forall i | 0 <= i < |ts| :: f.rows[i] == ToRow(arquivo, ts[i])
  {
    assert Distinct(Keys);
    Frame(if |ts| == 0 then [] else Keys, seq(|ts|, i requires 0 <= i < |ts| => ToRow(arquivo, ts[i])))
  }

  /** `extract_statement`: the document's transactions as a table named after the file. */
  function ExtractStatement(doc: Document): Result<Frame>
  {
    match Extract(doc)
    case Err(msg) => Err(msg)
    case Ok(ts) => Ok(TxnFrame(doc.name, ts))
  }

  /** The cells of one transaction's row, for a transaction whose amount agrees with its direction. */
  lemma TxnCells(arquivo: string, t: Txn)
    requires Agrees(t.cell)
    ensures var r := ToRow(arquivo, t);
      && Get(r, "arquivo") == Str(arquivo)
      && (Get(r, "tipo") == Str("credit") <==> t.cell.credit)
      && Get(r, "valor") == Num(t.cell.valor)
      && (if Get(r, "tipo") == Str("credit") then Get(r, "valor").cents >= 0 else Get(r, "valor").cents <= 0)
      && (Get(r, "saldo").Num? ==> Get(r, "saldo").cents >= 0)
  {
    var r := ToRow(arquivo, t);
    assert Get(r, "arquivo") == Str(arquivo) by { RowGet(arquivo, t, "arquivo"); }
    assert Get(r, "tipo") == Str(Tipo(t.cell.credit)) by { RowGet(arquivo, t, "tipo"); }
    assert Get(r, "valor") == Num(t.cell.valor) by { RowGet(arquivo, t, "valor"); }
    assert Get(r, "saldo") == OptNum(t.cell.saldo) by { RowGet(arquivo, t, "saldo"); }
  }

  lemma RowGet(arquivo: string, t: Txn, k: string)
    requires k in Keys
    ensures Get(ToRow(arquivo, t), k) == Cell(arquivo, t, k)
  {
  }

  /**
   * In the table every row names the file, its `tipo` is 'credit' exactly
   * for a credit, its `valor` has the sign of its `tipo`, and its balance
   * is never negative.
   */
  lemma StatementRows(doc: Document)
    requires ExtractStatement(doc).Ok?
    ensures var f := ExtractStatement(doc).value;
      && |f.rows| == |Extract(doc).value|
      && forall i | 0 <= i < |f.rows| ::
        && Get(f.rows[i], "arquivo") == Str(doc.name)
        && (Get(f.rows[i], "tipo") == Str("credit") <==> Extract(doc).value[i].cell.credit)
        && Get(f.rows[i], "valor").Num?
        && (if Get(f.rows[i], "tipo") == Str("credit") then Get(f.rows[i], "valor").cents >= 0 else Get(f.rows[i], "valor").cents <= 0)
        && (Get(f.rows[i], "saldo").Num? ==> Get(f.rows[i], "saldo").cents >= 0)
  {
    var ts := Extract(doc).value;
    var f := TxnFrame(doc.name, ts);
    PagesAgree(doc.pages.value);
    forall i | 0 <= i < |ts|
      ensures var r := f.rows[i];
        && Get(r, "arquivo") == Str(doc.name)
        && (Get(r, "tipo") == Str("credit") <==> ts[i].cell.credit)
        && Get(r, "valor").Num?
        && (if Get(r, "tipo") == Str("credit") then Get(r, "valor").cents >= 0 else Get(r, "valor").cents <= 0)
        && (Get(r, "saldo").Num? ==> Get(r, "saldo").cents >= 0)
    {
      assert ts[i] in ts;
      TxnCells(doc.name, ts[i]);
    }
  }

  /** The same steps in order: the transactions, then the DataFrame. */
  method RunExtractStatement(doc: Document) returns (r: Result<Frame>)
    ensures r == ExtractStatement(doc)
  {
    var ts := ExtractTxns(doc);
    if ts.Err? {
      return Err(ts.msg);
    }
    r := Ok(TxnFrame(doc.name, ts.value));
  }
}
