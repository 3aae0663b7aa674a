/**
 * `extract_caixa_statement` and `parse_caixa_line`: a Caixa statement read
 * page by page. One header dictionary is filled from the first twenty lines
 * of every page in turn, and every table is read by the shared mapped-column
 * reader. As written, a page is read line by line only while the whole
 * document has produced no transaction at all; the model reads a page line
 * by line when that page's tables give nothing, and keeps the written gate
 * beside it to show the pages it loses.
 */
module Caixa {
  import opened Wrappers
  import opened Text
  import opened Numbers
  import opened Dates
  import opened Regex
  import opened Frames
  import opened Pdf
  import opened Patterns
  import opened MappedTables
  import Scan

  /** The bank name every Caixa row carries. */
  const BankName: string := "CAIXA ECONÔMICA FEDERAL"

  // ---------------------------------------------------------------------
  // The header dictionary.

  /** `header_info`: each field absent until a line sets it; the period is kept as written. */
  datatype Header = Header(
    banco: Option<string>,
    agencia: Option<string>,
    operacao: Option<string>,
    conta: Option<string>,
    periodoInicio: Option<string>,
    periodoFim: Option<string>)

  const NoHeader: Header := Header(None, None, None, None, None, None)

  /** `[:\s]*` */
  const Gap: Re := Rep(Chr(Union(Among(":"), Space)), 0, Inf, true)

  /** The characters of an account number, `[\d-]`. */
  const ContaClass: Class := Union(Digit, Among("-"))

  /** `Agência[:\s]*(\d+)` */
  const AgenciaRe: Re := Labelled("Agência", Digit)

  /** `Op[:\s]*(\d+)` */
  const OperacaoRe: Re := Labelled("Op", Digit)

  /** `Conta[:\s]*([\d-]+)` */
  const ContaRe: Re := Labelled("Conta", ContaClass)

  /** A line naming the bank: 'CAIXA' or 'CEF' in the upper-cased line. */
  predicate BannerLine(line: string)
  {
    ContainsAny(Upper(line), ["CAIXA", "CEF"])
  }

  /** The account line: 'Agência' and 'Op', on a line that does not name the bank. */
  predicate AccountLine(line: string)
  {
    !BannerLine(line) && Contains(line, "Agência") && Contains(line, "Op")
  }

  /** The period line: 'Período:' or 'PERÍODO:', on a line that is neither of the above. */
  predicate PeriodLine(line: string)
  {
    && !BannerLine(line)
    && !(Contains(line, "Agência") && Contains(line, "Op"))
    && (Contains(line, "Período:") || Contains(line, "PERÍODO:"))
  }

  /** `re.findall(r'\d{2}/\d{2}/\d{4}', line)` */
  function LineDates(line: string): seq<Match>
  {
    FindIter(FullDate, line)
  }

  /** `m.group(1)` of `re.search(r, line)` when it matches, otherwise the field as it was. */
  function Searched(r: Re, line: string, field: Option<string>): Option<string>
  {
    var m := ReSearch(r, line);
    if m.None? then field else Some(Group(line, m.value, 1))
  }

  /** Every character of `s` belongs to `k`. */
  predicate AllIn(s: string, k: Class)
  {
    forall t | 0 <= t < |s| :: In(s[t], k)
  }

  /** `name[:\s]*(k+)` */
  function Labelled(name: string, k: Class): Re
  {
    Cats([Lit(name), Gap, Grp(1, Plus(k))])
  }

  /** A labelled pattern captures only characters of its class. */
  lemma LabelledWithin(name: string, k: Class)
    ensures GroupWithin(Labelled(name, k), 1, k)
  {
    LitGroupWithin(name, 1, k);
    assert Subclass(k, k);
    assert GroupWithin(Chr(Union(Among(":"), Space)), 1, k);
    assert GroupWithin(Gap, 1, k);
    assert Within(Chr(k), k);
    assert Within(Plus(k), k) && GroupWithin(Plus(k), 1, k);
    assert GroupWithin(Grp(1, Plus(k)), 1, k);
    CatsGroupWithin([Lit(name), Gap, Grp(1, Plus(k))], 1, k);
  }

  /** A field read by `Searched` from a pattern whose group 1 stays within `k` stays within `k`. */
  lemma SearchedWithin(r: Re, line: string, field: Option<string>, k: Class)
    requires GroupWithin(r, 1, k)
    ensures Searched(r, line, field) == field || (Searched(r, line, field).Some? && AllIn(Searched(r, line, field).value, k))
  {
    SearchFromCaps(r, line, 0, 1, k);
    var m := ReSearch(r, line);
    if m.Some? {
      GroupIn(line, m.value, 1, k);
    }
  }

  /**
   * One header line, in the source's `if`/`elif` order: a line naming the
   * bank only sets the bank; the agency, operation and account are only read
   * from a line with both 'Agência' and 'Op', and each is a run of digits
   * (the account: digits and dashes); the period needs two dates on the line
   * and then sets both ends.
   */
  function HeaderLine(h: Header, line: string): (out: Header)
    ensures BannerLine(line) ==> out == h.(banco := Some(BankName))
    ensures out.banco == h.banco || (BannerLine(line) && out.banco == Some(BankName))
    ensures out.agencia == h.agencia || (AccountLine(line) && out.agencia.Some? && AllIn(out.agencia.value, Digit))
    ensures out.operacao == h.operacao || (AccountLine(line) && out.operacao.Some? && AllIn(out.operacao.value, Digit))
    ensures out.conta == h.conta || (AccountLine(line) && out.conta.Some? && AllIn(out.conta.value, ContaClass))
    ensures (out.periodoInicio == h.periodoInicio && out.periodoFim == h.periodoFim) ||
      (PeriodLine(line) && |LineDates(line)| >= 2 &&
       out.periodoInicio == Some(Whole(line, LineDates(line)[0])) &&
       out.periodoFim == Some(Whole(line, LineDates(line)[1])))
  {
    if BannerLine(line) then h.(banco := Some(BankName))
    else if Contains(line, "Agência") && Contains(line, "Op") then
      LabelledWithin("Agência", Digit);
      LabelledWithin("Op", Digit);
      LabelledWithin("Conta", ContaClass);
      SearchedWithin(AgenciaRe, line, h.agencia, Digit);
      SearchedWithin(OperacaoRe, line, h.operacao, Digit);
      SearchedWithin(ContaRe, line, h.conta, ContaClass);
      h.(agencia := Searched(AgenciaRe, line, h.agencia),
         operacao := Searched(OperacaoRe, line, h.operacao),
         conta := Searched(ContaRe, line, h.conta))
    else if Contains(line, "Período:") || Contains(line, "PERÍODO:") then
      var ds := LineDates(line);
      if |ds| >= 2 then h.(periodoInicio := Some(Whole(line, ds[0])), periodoFim := Some(Whole(line, ds[1])))
      else h
    else h
  }

  /** `lines[:20]` */
  function HeaderLines(lines: seq<string>): (hs: seq<string>)
    ensures |hs| <= 20 && hs <= lines
  {
    if |lines| <= 20 then lines else lines[..20]
  }

  /** Every field that is set came from one of `lines` that may set it. */
  predicate Sourced(h: Header, lines: seq<string>)
  {
    && (h.banco.Some? ==> h.banco.value == BankName && exists l | l in lines :: BannerLine(l))
    && (h.agencia.Some? ==> AllIn(h.agencia.value, Digit) && exists l | l in lines :: AccountLine(l))
    && (h.operacao.Some? ==> AllIn(h.operacao.value, Digit) && exists l | l in lines :: AccountLine(l))
    && (h.conta.Some? ==> AllIn(h.conta.value, ContaClass) && exists l | l in lines :: AccountLine(l))
    && (h.periodoInicio.Some? ==> exists l | l in lines :: PeriodLine(l))
    && (h.periodoFim.Some? ==> exists l | l in lines :: PeriodLine(l))
  }

  lemma SourcedGrow(h: Header, lines: seq<string>, more: seq<string>)
    requires Sourced(h, lines)
    ensures Sourced(h, lines + more)
  {
    assert forall l | l in lines :: l in lines + more;
  }

  lemma HeaderLineSourced(h: Header, lines: seq<string>, line: string)
    requires Sourced(h, lines)
    ensures Sourced(HeaderLine(h, line), lines + [line])
  {
    SourcedGrow(h, lines, [line]);
    assert line in lines + [line];
  }

  /**
   * Threading header lines keeps every field sourced: whatever the header
   * holds came from a line, of this page or of an earlier one, that may set it.
   */
  lemma {:induction false} ThreadSourced(h: Header, seen: seq<string>, ls: seq<string>)
    requires Sourced(h, seen)
    ensures Sourced(Scan.Thread(h, ls, HeaderLine), seen + ls)
  {
    if |ls| > 0 {
      var front := ls[..|ls| - 1];
      ThreadSourced(h, seen, front);
      HeaderLineSourced(Scan.Thread(h, front, HeaderLine), seen + front, ls[|ls| - 1]);
      assert seen + front + [ls[|ls| - 1]] == seen + ls;
    }
  }

  // ---------------------------------------------------------------------
  // `parse_caixa_line`.

  /** `[\d.,-]` */
  const SignedClass: Class := Union(AmountClass, Among("-"))

  /** `^(\d{2}/\d{2}/\d{4})\s+(.+?)\s+([\d.,-]+)\s+([\d.,-]+)$` */
  const LineRe: Re :=
    Cat(Bol, Cat(Cats([Grp(1, FullDate), Spaces, Grp(2, LazyAny), Spaces, Grp(3, Plus(SignedClass)), Spaces, Grp(4, Plus(SignedClass))]), Eol))

  /** `^\d{2}/\d{2}/\d{4}`, the lines the fallback hands to `parse_caixa_line`. */
  const DatedRe: Re := Cat(Bol, FullDate)

  /**
   * `parse_caixa_line` without its header fields: the date, the stripped
   * description, and the amount and balance read the Brazilian way, where
   * a minus sign in front is kept. The direction is credit exactly when the
   * amount is positive, so a zero amount is a debit. A line that does not
   * match, a date that does not exist, or an amount or balance that `float`
   * refuses gives `None`.
   */
  function ParseCaixaLine(line: string): (r: Option<CellTxn>)
    ensures r.Some? ==> ReMatch(LineRe, line).Some?
    ensures ReMatch(LineRe, line).Some? ==>
      var m := ReMatch(LineRe, line).value;
      && (r.Some? <==>
        Strptime(Group(line, m, 1)).Some? && BrFloat(Group(line, m, 3)).Some? && BrFloat(Group(line, m, 4)).Some?)
      && (r.Some? ==>
        && Strptime(Group(line, m, 1)).Some? && Strptime(Group(line, m, 1)).value == r.value.date
        && r.value.historico == Strip(Group(line, m, 2))
        && r.value.documento == ""
        && Some(r.value.valor) == BrFloat(Group(line, m, 3))
        && r.value.saldo == BrFloat(Group(line, m, 4)))
    ensures r.Some? ==> (r.value.credit <==> r.value.valor > 0)
  {
    var m := ReMatch(LineRe, line);
    if m.None? then None
    else
      var d := Strptime(Group(line, m.value, 1));
      var valor := BrFloat(Group(line, m.value, 3));
      var saldo := BrFloat(Group(line, m.value, 4));
      if d.None? || valor.None? || saldo.None? then None
      else Some(CellTxn(d.value, Strip(Group(line, m.value, 2)), "", valor.value, saldo, valor.value > 0))
  }

  /** An amount printed the Brazilian way, with a leading minus for a negative one, reads back as itself. */
  lemma LineAmountReads(line: string, c: int)
    requires ReMatch(LineRe, line).Some? && Group(line, ReMatch(LineRe, line).value, 3) == ShowBr(c)
    requires ParseCaixaLine(line).Some?
    ensures ParseCaixaLine(line).value.valor == c
    ensures ParseCaixaLine(line).value.credit <==> c > 0
  {
    BrFloatShowBr(c);
  }

  /** A direction and its amount agree in sign. */
  predicate SignAgrees(t: CellTxn)
  {
    if t.credit then t.valor >= 0 else t.valor <= 0
  }

  /** A transaction together with the header as it stood when its page was read. */
  datatype Txn = Txn(cell: CellTxn, header: Header)

  /** One fallback line: only a line starting with a full date is handed to `parse_caixa_line`. */
  function LineTxn(h: Header, line: string): (r: Option<Txn>)
    ensures r.Some? ==> ReMatch(DatedRe, line).Some? && Some(r.value.cell) == ParseCaixaLine(line)
    ensures r.Some? ==> r.value.header == h && SignAgrees(r.value.cell)
  {
    if ReMatch(DatedRe, line).None? then None
    else
      var c := ParseCaixaLine(line);
      if c.None? then None else Some(Txn(c.value, h))
  }

  /** The rows of one table, each with the header as it stands. */
  function TableRows(h: Header, table: Table): (ts: seq<Txn>)
    ensures |ts| == |TableTxns(table)|
    ensures forall i | 0 <= i < |ts| :: ts[i] == Txn(TableTxns(table)[i], h)
  {
    var cs := TableTxns(table);
    seq(|cs|, i requires 0 <= i < |cs| => Txn(cs[i], h))
  }

  // ---------------------------------------------------------------------
  // Pages and the document.

  /** What the page loop carries: `all_transactions` and `header_info`. */
  datatype Scanned = Scanned(txns: seq<Txn>, header: Header)

  const Start: Scanned := Scanned([], NoHeader)

  /** The lines of a page; the document is refused before a page without text is read. */
  function TextLines(p: Page): seq<string>
  {
    if p.text.Extracted? then PageLines(p.text) else []
  }

  /** The header after a page's first twenty lines. */
  function PageHeader(s: Scanned, p: Page): Header
  {
    Scan.Thread(s.header, HeaderLines(TextLines(p)), HeaderLine)
  }

  /** The rows a page's tables give. */
  function PageTables(s: Scanned, p: Page): seq<Txn>
  {
    Scan.FlatMap(PageHeader(s, p), p.tables, TableRows)
  }

  /** The rows a page's lines give. */
  function PageLineRows(s: Scanned, p: Page): seq<Txn>
  {
    Scan.Collect(PageHeader(s, p), TextLines(p), LineTxn)
  }

  /**
   * One page of `extract_caixa_statement`: the header lines, then the
   * tables, then -- only while the document so far has no transaction --
   * the lines.
   */
  function PageStep(s: Scanned, p: Page): Scanned
  {
    var ts := s.txns + PageTables(s, p);
    Scanned(if |ts| == 0 then PageLineRows(s, p) else ts, PageHeader(s, p))
  }

  function Pages(pages: seq<Page>): Scanned
  {
    Scan.Thread(Start, pages, PageStep)
  }

  /**
   * One page as the fallback's comment intends it: the header lines, then
   * the tables, and the lines when that page's own tables give nothing.
   */
  function PageStepIntended(s: Scanned, p: Page): Scanned
  {
    var tables := PageTables(s, p);
    Scanned(s.txns + (if |tables| == 0 then PageLineRows(s, p) else tables), PageHeader(s, p))
  }

  function PagesIntended(pages: seq<Page>): Scanned
  {
    Scan.Thread(Start, pages, PageStepIntended)
  }

  /** `extract_caixa_statement` before the DataFrame: an exception when the file does not open or a page has no text. */
  function Extract(doc: Document): (r: Result<Scanned>)
    ensures r.Ok? <==> doc.pages.Some? && AllExtracted(doc.pages.value)
  {
    if doc.pages.None? then Err("cannot open PDF")
    else if !AllExtracted(doc.pages.value) then Err("page without text")
    else Ok(Pages(doc.pages.value))
  }

  /** A page never drops what earlier pages collected. */
  lemma StepExtends(s: Scanned, p: Page)
    ensures s.txns <= PageStep(s, p).txns
  {
    var ts := s.txns + PageTables(s, p);
    if |ts| == 0 {
      assert s.txns == [];
    }
  }

  /** The transactions after the first `i` pages are a prefix of the document's. */
  lemma {:induction false} PagesExtend(pages: seq<Page>, i: nat)
    requires i <= |pages|
    ensures Pages(pages[..i]).txns <= Pages(pages).txns
    decreases |pages|
  {
    if i == |pages| {
      assert pages[..i] == pages;
    } else {
      var front := pages[..|pages| - 1];
      assert front[..i] == pages[..i];
      PagesExtend(front, i);
      StepExtends(Pages(front), pages[|pages| - 1]);
    }
  }

  /**
   * The fallback runs on a page only while the document has produced no
   * transaction: once there is one, a page adds its table rows and nothing
   * else; before that, a page whose tables give nothing is read line by line.
   */
  lemma LinesOnlyWhileEmpty(s: Scanned, p: Page)
    ensures |s.txns| > 0 ==> PageStep(s, p).txns == s.txns + PageTables(s, p)
    ensures |s.txns| == 0 && PageTables(s, p) == [] ==> PageStep(s, p).txns == PageLineRows(s, p)
    ensures |s.txns| == 0 && PageTables(s, p) != [] ==> PageStep(s, p).txns == PageTables(s, p)
    ensures PageStep(s, p).header == PageHeader(s, p)
  {
  }

  /** Every transaction of the document has an amount whose sign agrees with its direction. */
  lemma {:induction false} PagesAgree(pages: seq<Page>)
    ensures forall t | t in Pages(pages).txns :: SignAgrees(t.cell)
  {
    if |pages| > 0 {
      var front := pages[..|pages| - 1];
      var s := Pages(front);
      var p := pages[|pages| - 1];
      PagesAgree(front);
      var h := PageHeader(s, p);
      forall i, t | 0 <= i < |p.tables| && t in TableRows(h, p.tables[i]) ensures SignAgrees(t.cell) {
        var k :| 0 <= k < |TableRows(h, p.tables[i])| && TableRows(h, p.tables[i])[k] == t;
        assert TableTxns(p.tables[i])[k] in TableTxns(p.tables[i]);
      }
      Scan.FlatMapAll(h, p.tables, TableRows, (t: Txn) => SignAgrees(t.cell));
    }
  }

  /**
   * The header after some pages is sourced: every field set was set by a
   * line, among the first twenty of one of those pages, that may set it.
   */
  lemma {:induction false} PagesSourced(pages: seq<Page>)
    ensures Sourced(Pages(pages).header, HeaderLinesOf(pages))
  {
    if |pages| == 0 {
    } else {
      var front := pages[..|pages| - 1];
      PagesSourced(front);
      var p := pages[|pages| - 1];
      ThreadSourced(Pages(front).header, HeaderLinesOf(front), HeaderLines(TextLines(p)));
    }
  }

  /** The first twenty lines of every page, in order. */
  function HeaderLinesOf(pages: seq<Page>): seq<string>
  {
    if |pages| == 0 then [] else HeaderLinesOf(pages[..|pages| - 1]) + HeaderLines(TextLines(pages[|pages| - 1]))
  }

  lemma PagesSnoc(pages: seq<Page>, i: nat)
    requires i < |pages|
    ensures Pages(pages[..i + 1]) == PageStep(Pages(pages[..i]), pages[i])
  {
    assert pages[..i + 1][..i] == pages[..i];
  }

  /** The table loop of one page. */
  method ReadPage(h: Header, tables: seq<Table>) returns (ts: seq<Txn>)
    ensures ts == Scan.FlatMap(h, tables, TableRows)
  {
    ts := [];
    var j := 0;
    while j < |tables|
      invariant 0 <= j <= |tables|
      invariant ts == Scan.FlatMap(h, tables[..j], TableRows)
    {
      assert tables[..j + 1][..j] == tables[..j];
      var cs := ReadTable(tables[j]);
      ts := ts + seq(|cs|, k requires 0 <= k < |cs| => Txn(cs[k], h));
      j := j + 1;
    }
    assert tables[..j] == tables;
  }

  /** The page loop: the header lines, the tables, and the lines while the document has no transaction. */
  method ExtractTxns(doc: Document) returns (r: Result<Scanned>)
    ensures r == Extract(doc)
  {
    if doc.pages.None? {
      return Err("cannot open PDF");
    }
    var pages := doc.pages.value;
    var ts: seq<Txn> := [];
    var h := NoHeader;
    var i := 0;
    while i < |pages|
      invariant 0 <= i <= |pages|
      invariant AllExtracted(pages[..i])
      invariant Scanned(ts, h) == Pages(pages[..i])
    {
      if !pages[i].text.Extracted? {
        return Err("page without text");
      }
      var lines := PageLines(pages[i].text);
      h := Scan.ThreadLoop(h, HeaderLines(lines), HeaderLine);
      var more := ReadPage(h, pages[i].tables);
      ts := ts + more;
      if |ts| == 0 {
        ts := Scan.CollectLoop(h, lines, LineTxn);
      }
      PagesSnoc(pages, i);
      ExtractedSnoc(pages, i);
      i := i + 1;
    }
    assert pages[..i] == pages;
    r := Ok(Scanned(ts, h));
  }

  // ---------------------------------------------------------------------
  // A statement without tables.

  /**
   * As written, a two-page statement without tables loses its second page:
   * once the first page's lines gave a transaction, the second page's lines
   * are never read, however many transactions they hold.
   */
  lemma SecondPageUnread(p1: Page, p2: Page)
    requires p1.tables == [] && p2.tables == []
    requires PageLineRows(Start, p1) != []
    ensures var s1 := PageStep(Start, p1);
      && s1.txns == PageLineRows(Start, p1)
      && Pages([p1, p2]).txns == PageLineRows(Start, p1)
      && (PageLineRows(s1, p2) != [] ==>
           |Pages([p1, p2]).txns| < |PageLineRows(Start, p1)| + |PageLineRows(s1, p2)|)
  {
    var s1 := PageStep(Start, p1);
    assert Pages([p1]) == s1 by {
      assert [p1][..0] == [];
      assert Scan.Thread(Start, [p1][..0], PageStep) == Start;
    }
    assert Pages([p1, p2]) == PageStep(s1, p2) by {
      assert [p1, p2][..1] == [p1];
      assert Scan.Thread(Start, [p1, p2][..1], PageStep) == s1;
    }
    assert PageTables(Start, p1) == [];
    assert PageTables(s1, p2) == [];
  }

  /** As intended, both pages of such a statement are read, in order. */
  lemma EveryPageRead(p1: Page, p2: Page)
    requires p1.tables == [] && p2.tables == []
    ensures var s1 := PageStepIntended(Start, p1);
      PagesIntended([p1, p2]).txns == PageLineRows(Start, p1) + PageLineRows(s1, p2)
  {
    var t := Scan.Thread(Start, [p1, p2], PageStepIntended);
    assert PagesIntended([p1, p2]) == t;
    TwoPagesRead(Start, p1, p2);
    var a, b := PageLineRows(Start, p1), PageLineRows(PageStepIntended(Start, p1), p2);
    assert t.txns == Start.txns + a + b;
    assert Start.txns + a == a;
  }

  /** Two pages without tables, from any state: the rows of both pages' lines are added, in order. */
  lemma TwoPagesRead(s0: Scanned, p1: Page, p2: Page)
    requires p1.tables == [] && p2.tables == []
    ensures Scan.Thread(s0, [p1, p2], PageStepIntended).txns == s0.txns + PageLineRows(s0, p1) + PageLineRows(PageStepIntended(s0, p1), p2)
  {
    Scan.ThreadTwo(s0, p1, p2, PageStepIntended);
    NoTablesStep(s0, p1);
    NoTablesStep(PageStepIntended(s0, p1), p2);
  }

  /** A page without tables adds the rows of its lines. */
  lemma NoTablesStep(s: Scanned, p: Page)
    requires p.tables == []
    ensures PageStepIntended(s, p).txns == s.txns + PageLineRows(s, p)
  {
    assert PageTables(s, p) == [];
  }

  // ---------------------------------------------------------------------
  // The DataFrame.

  /** The keys of a transaction dictionary, in order. */
  const Keys: seq<string> :=
    ["arquivo", "data_movimento", "historico", "documento", "valor", "saldo", "tipo", "conta", "agencia", "operacao", "banco"]

  function Tipo(credit: bool): string
  {
    if credit then "credit" else "debit"
  }

  /** One cell of a transaction's dictionary: a header field not yet read is ''. */
  function Cell(arquivo: string, t: Txn, k: string): Value
  {
    if k == "arquivo" then Str(arquivo)
    else if k == "data_movimento" then Str(Strftime(t.cell.date))
    else if k == "historico" then Str(t.cell.historico)
    else if k == "documento" then Str(t.cell.documento)
    else if k == "valor" then Num(t.cell.valor)
    else if k == "saldo" then OptNum(t.cell.saldo)
    else if k == "tipo" then Str(Tipo(t.cell.credit))
    else if k == "conta" then Str(t.header.conta.GetOr(""))
    else if k == "agencia" then Str(t.header.agencia.GetOr(""))
    else if k == "operacao" then Str(t.header.operacao.GetOr(""))
    else Str(BankName)
  }

  function ToRow(arquivo: string, t: Txn): (r: Row)
    ensures Shaped(r, Keys)
  {
    map k | k in Keys :: Cell(arquivo, t, k)
  }

  /** `pd.DataFrame(all_transactions)`: one row per transaction in order; no columns when there are none. */
  function TxnFrame(arquivo: string, ts: seq<Txn>): (f: Frame)
    ensures WellFormed(f) && |f.rows| == |ts|
    ensures f.columns == if |ts| == 0 then [] else Keys
    ensures forall i | 0 <= i < |ts| :: f.rows[i] == ToRow(arquivo, ts[i])
  {
    assert Distinct(Keys);
    Frame(if |ts| == 0 then [] else Keys, seq(|ts|, i requires 0 <= i < |ts| => ToRow(arquivo, ts[i])))
  }

  /** `extract_caixa_statement`: the table named after the file, and the header dictionary. */
  function ExtractStatement(doc: Document): (r: Result<(Frame, Header)>)
    ensures r.Ok? <==> Extract(doc).Ok?
    ensures r.Ok? ==> r.value.1 == Extract(doc).value.header
  {
    var e := Extract(doc);
    if e.Err? then Err(e.msg)
    else Ok((TxnFrame(doc.name, e.value.txns), e.value.header))
  }

  lemma RowGet(arquivo: string, t: Txn, k: string)
    requires k in Keys
    ensures Get(ToRow(arquivo, t), k) == Cell(arquivo, t, k)
  {
  }

  /** The cells of one transaction's row whose amount agrees with its direction. */
  lemma TxnCells(arquivo: string, t: Txn)
    requires SignAgrees(t.cell)
    ensures var r := ToRow(arquivo, t);
      && Get(r, "arquivo") == Str(arquivo)
      && Get(r, "banco") == Str(BankName)
      && (Get(r, "tipo") == Str("credit") <==> t.cell.credit)
      && Get(r, "valor") == Num(t.cell.valor)
      && (if Get(r, "tipo") == Str("credit") then Get(r, "valor").cents >= 0 else Get(r, "valor").cents <= 0)
  {
    RowGet(arquivo, t, "arquivo");
    RowGet(arquivo, t, "banco");
    RowGet(arquivo, t, "tipo");
    RowGet(arquivo, t, "valor");
  }

  /**
   * In the table every row names the file and the bank, its `tipo` is
   * 'credit' exactly for a credit, and its `valor` has the sign of its `tipo`;
   * the header returned is the one the last page left.
   */
  lemma StatementRows(doc: Document)
    requires ExtractStatement(doc).Ok?
    ensures var f := ExtractStatement(doc).value.0; var ts := Extract(doc).value.txns;
      && |f.rows| == |ts|
      && forall i | 0 <= i < |f.rows| ::
        && Get(f.rows[i], "arquivo") == Str(doc.name)
        && Get(f.rows[i], "banco") == Str(BankName)
        && (Get(f.rows[i], "tipo") == Str("credit") <==> ts[i].cell.credit)
        && Get(f.rows[i], "valor") == Num(ts[i].cell.valor)
        && (if Get(f.rows[i], "tipo") == Str("credit") then Get(f.rows[i], "valor").cents >= 0 else Get(f.rows[i], "valor").cents <= 0)
  {
    var ts := Extract(doc).value.txns;
    var f := TxnFrame(doc.name, ts);
    PagesAgree(doc.pages.value);
    forall i | 0 <= i < |ts|
      ensures var r := f.rows[i];
        && Get(r, "arquivo") == Str(doc.name)
        && Get(r, "banco") == Str(BankName)
        && (Get(r, "tipo") == Str("credit") <==> ts[i].cell.credit)
        && Get(r, "valor") == Num(ts[i].cell.valor)
        && (if Get(r, "tipo") == Str("credit") then Get(r, "valor").cents >= 0 else Get(r, "valor").cents <= 0)
    {
      assert ts[i] in ts;
      TxnCells(doc.name, ts[i]);
    }
  }

  /** The same steps in order: the page loop, then the DataFrame. */
  method RunExtractStatement(doc: Document) returns (r: Result<(Frame, Header)>)
    ensures r == ExtractStatement(doc)
  {
    var e := ExtractTxns(doc);
    if e.Err? {
      return Err(e.msg);
    }
    r := Ok((TxnFrame(doc.name, e.value.txns), e.value.header));
  }
}
