/**
 * `extract_caixa_govconta`: a GovConta Caixa statement. The header is read
 * from the first ten lines of the first page only; every line of every page
 * that is exactly a date, a document number, a description, an amount with
 * its C/D letter and a balance with its C/D letter is a transaction.
 */
module CaixaGovConta {
  import opened Wrappers
  import opened Text
  import opened Numbers
  import opened Dates
  import opened Regex
  import opened Frames
  import opened Pdf
  import opened Patterns
  import Caixa
  import Scan

  // ---------------------------------------------------------------------
  // The header, from the first page.

  /** `header_info`: each field absent until a line sets it; the period is kept as written. */
  datatype Header = Header(
    govconta: Option<string>,
    contaReferencia: Option<string>,
    nome: Option<string>,
    periodoInicio: Option<string>,
    periodoFim: Option<string>)

  const NoHeader: Header := Header(None, None, None, None, None)

  /** `name\s*(k+)` */
  function After(name: string, k: Class): Re
  {
    Cats([Lit(name), Star(Space), Grp(1, Plus(k))])
  }

  /** The characters of a reference account, `[\d/\-]`. */
  const RefClass: Class := Union(Digit, Among("/-"))

  /** `Nome:\s*(.+)` */
  const NomeRe: Re := After("Nome:", Dot)

  lemma AfterWithin(name: string, k: Class)
    ensures GroupWithin(After(name, k), 1, k)
  {
    LitGroupWithin(name, 1, k);
    assert Subclass(k, k);
    assert GroupWithin(Star(Space), 1, k);
    assert GroupWithin(Chr(k), 1, k) && Within(Chr(k), k);
    assert GroupWithin(Plus(k), 1, k) && Within(Plus(k), k);
    assert GroupWithin(Grp(1, Plus(k)), 1, k);
    CatsGroupWithin([Lit(name), Star(Space), Grp(1, Plus(k))], 1, k);
  }

  /** The line tests in the source's `if`/`elif` order, each excluding those before it. */
  predicate GovContaLine(line: string)
  {
    Contains(line, "GovConta CAIXA:")
  }

  predicate ReferenciaLine(line: string)
  {
    !GovContaLine(line) && Contains(line, "Conta Referência:")
  }

  predicate NomeLine(line: string)
  {
    !GovContaLine(line) && !Contains(line, "Conta Referência:") && Contains(line, "Nome:")
  }

  predicate PeriodLine(line: string)
  {
    && !GovContaLine(line) && !Contains(line, "Conta Referência:") && !Contains(line, "Nome:")
    && Contains(line, "Período:")
  }

  /** `re.search(NomeRe, line)`'s group, stripped. */
  function NomeOf(line: string, field: Option<string>): Option<string>
  {
    var m := ReSearch(NomeRe, line);
    if m.None? then field else Some(Strip(Group(line, m.value, 1)))
  }

  /** `re.search(r'name\s*(k+)', line)`'s group, or `field` when there is no match: unchanged, or made only of characters of `k`. */
  function FieldAfter(name: string, k: Class, line: string, field: Option<string>): (r: Option<string>)
    ensures r == field || (r.Some? && Caixa.AllIn(r.value, k))
  {
    AfterWithin(name, k);
    Caixa.SearchedWithin(After(name, k), line, field, k);
    Caixa.Searched(After(name, k), line, field)
  }

  /**
   * One header line: each field is only read from a line carrying its own
   * label (and none of the labels tested before it); the GovConta number is
   * a run of digits, the reference account digits, slashes and dashes; the
   * period needs two dates on the line and then sets both ends.
   */
  function HeaderLine(h: Header, line: string): (out: Header)
    ensures out.govconta == h.govconta ||
      (GovContaLine(line) && out.govconta.Some? && Caixa.AllIn(out.govconta.value, Digit))
    ensures out.contaReferencia == h.contaReferencia ||
      (ReferenciaLine(line) && out.contaReferencia.Some? && Caixa.AllIn(out.contaReferencia.value, RefClass))
    ensures out.nome == h.nome || (NomeLine(line) && out.nome.Some?)
    ensures (out.periodoInicio == h.periodoInicio && out.periodoFim == h.periodoFim) ||
      (PeriodLine(line) && |Caixa.LineDates(line)| >= 2 &&
       out.periodoInicio == Some(Whole(line, Caixa.LineDates(line)[0])) &&
       out.periodoFim == Some(Whole(line, Caixa.LineDates(line)[1])))
  {
    if GovContaLine(line) then GovContaStep(h, line)
    else if ReferenciaLine(line) then ReferenciaStep(h, line)
    else if NomeLine(line) then h.(nome := NomeOf(line, h.nome))
    else if PeriodLine(line) then PeriodStep(h, line)
    else h
  }

  /** The GovConta branch: only the GovConta number can change, to a run of digits. */
  function GovContaStep(h: Header, line: string): (out: Header)
    ensures out == h.(govconta := out.govconta)
    ensures out.govconta == h.govconta || (out.govconta.Some? && Caixa.AllIn(out.govconta.value, Digit))
  {
    h.(govconta := FieldAfter("GovConta CAIXA:", Digit, line, h.govconta))
  }

  /** The reference-account branch: only the reference account can change, to digits, slashes and dashes. */
  function ReferenciaStep(h: Header, line: string): (out: Header)
    ensures out == h.(contaReferencia := out.contaReferencia)
    ensures out.contaReferencia == h.contaReferencia || (out.contaReferencia.Some? && Caixa.AllIn(out.contaReferencia.value, RefClass))
  {
    h.(contaReferencia := FieldAfter("Conta Referência:", RefClass, line, h.contaReferencia))
  }

  /** The period branch: both ends are set together, from the line's first two dates, or neither. */
  function PeriodStep(h: Header, line: string): (out: Header)
    ensures out == h.(periodoInicio := out.periodoInicio, periodoFim := out.periodoFim)
    ensures (out.periodoInicio == h.periodoInicio && out.periodoFim == h.periodoFim) ||
      (|Caixa.LineDates(line)| >= 2 &&
       out.periodoInicio == Some(Whole(line, Caixa.LineDates(line)[0])) &&
       out.periodoFim == Some(Whole(line, Caixa.LineDates(line)[1])))
  {
    var ds := Caixa.LineDates(line);
    if |ds| >= 2 then h.(periodoInicio := Some(Whole(line, ds[0])), periodoFim := Some(Whole(line, ds[1])))
    else h
  }

  /** `lines[:10]` */
  function HeaderLines(lines: seq<string>): (hs: seq<string>)
    ensures |hs| <= 10 && hs <= lines
  {
    if |lines| <= 10 then lines else lines[..10]
  }

  /** The header: the first ten lines of the first page; a document without pages has none. */
  function HeaderOf(pages: seq<Page>): Header
  {
    if |pages| == 0 then NoHeader
    else Scan.Thread(NoHeader, HeaderLines(Caixa.TextLines(pages[0])), HeaderLine)
  }

  /** Every field that is set came from one of `lines` carrying its label. */
  predicate Sourced(h: Header, lines: seq<string>)
  {
    && (h.govconta.Some? ==> Caixa.AllIn(h.govconta.value, Digit) && exists l | l in lines :: GovContaLine(l))
    && (h.contaReferencia.Some? ==> Caixa.AllIn(h.contaReferencia.value, RefClass) && exists l | l in lines :: ReferenciaLine(l))
    && (h.nome.Some? ==> exists l | l in lines :: NomeLine(l))
    && (h.periodoInicio.Some? ==> exists l | l in lines :: PeriodLine(l))
    && (h.periodoFim.Some? ==> exists l | l in lines :: PeriodLine(l))
  }

  lemma HeaderLineSourced(h: Header, lines: seq<string>, line: string, all: seq<string>)
    requires Sourced(h, lines)
    requires line in all && forall l | l in lines :: l in all
    ensures Sourced(HeaderLine(h, line), all)
  {
    SourcedWiden(h, lines, all);
    ChangedSourced(h, HeaderLine(h, line), line, all);
  }

  lemma SourcedWiden(h: Header, lines: seq<string>, all: seq<string>)
    requires Sourced(h, lines) && forall l | l in lines :: l in all
    ensures Sourced(h, all)
  {
    if h.govconta.Some? {
      var l :| l in lines && GovContaLine(l);
      assert l in all;
    }
    if h.contaReferencia.Some? {
      var l :| l in lines && ReferenciaLine(l);
      assert l in all;
    }
    if h.nome.Some? {
      var l :| l in lines && NomeLine(l);
      assert l in all;
    }
    PeriodSourced(h, lines, all);
  }

  /** A header changed only as `HeaderLine` may change it, by a line of `all`, stays sourced in `all`. */
  lemma ChangedSourced(h: Header, out: Header, line: string, all: seq<string>)
    requires Sourced(h, all) && line in all
    requires out.govconta == h.govconta ||
      (GovContaLine(line) && out.govconta.Some? && Caixa.AllIn(out.govconta.value, Digit))
    requires out.contaReferencia == h.contaReferencia ||
      (ReferenciaLine(line) && out.contaReferencia.Some? && Caixa.AllIn(out.contaReferencia.value, RefClass))
    requires out.nome == h.nome || (NomeLine(line) && out.nome.Some?)
    requires (out.periodoInicio == h.periodoInicio && out.periodoFim == h.periodoFim) || PeriodLine(line)
    ensures Sourced(out, all)
  {
  }

  lemma PeriodSourced(h: Header, lines: seq<string>, all: seq<string>)
    requires Sourced(h, lines) && forall l | l in lines :: l in all
    ensures h.periodoInicio.Some? ==> exists l | l in all :: PeriodLine(l)
    ensures h.periodoFim.Some? ==> exists l | l in all :: PeriodLine(l)
  {
    if h.periodoInicio.Some? || h.periodoFim.Some? {
      var l :| l in lines && PeriodLine(l);
      assert l in all;
    }
  }

  lemma {:induction false} ThreadSourced(ls: seq<string>)
    ensures Sourced(Scan.Thread(NoHeader, ls, HeaderLine), ls)
  {
    if |ls| > 0 {
      var front, last := ls[..|ls| - 1], ls[|ls| - 1];
      ThreadSourced(front);
      HeaderLineSourced(Scan.Thread(NoHeader, front, HeaderLine), front, last, ls);
    }
  }

  /**
   * Every header field was set by one of the first ten lines of the first
   * page carrying its label: later lines and later pages never change it.
   */
  lemma HeaderFromFirstPage(pages: seq<Page>, more: seq<Page>)
    requires |pages| > 0
    ensures Sourced(HeaderOf(pages), HeaderLines(Caixa.TextLines(pages[0])))
    ensures HeaderOf(pages + more) == HeaderOf(pages)
  {
    ThreadSourced(HeaderLines(Caixa.TextLines(pages[0])));
    assert (pages + more)[0] == pages[0];
  }

  /** Lines after the tenth never change the header. */
  lemma HeaderFirst10(lines: seq<string>, more: seq<string>)
    requires |lines| >= 10
    ensures HeaderLines(lines + more) == HeaderLines(lines)
  {
    assert (lines + more)[..10] == lines[..10];
  }

  // ---------------------------------------------------------------------
  // Transaction lines.

  /** `[\d.,]+[CD]` */
  const CdValue: Re := Cat(Plus(AmountClass), Chr(Among("CD")))

  /** `^(\d{2}/\d{2}/\d{4})\s+(\d+)\s+(.+?)\s+([\d.,]+[CD])\s+([\d.,]+[CD])$` */
  const LineRe: Re :=
    Cat(Bol, Cat(Cats([Grp(1, FullDate), Spaces, Grp(2, Plus(Digit)), Spaces, Grp(3, LazyAny), Spaces, Grp(4, CdValue), Spaces, Grp(5, CdValue)]), Eol))

  /** The characters `re.sub(r'[^\d.,]', '', s)` keeps. */
  predicate NumeralChar(c: char)
  {
    IsDigit(c) || c == '.' || c == ','
  }

  /** `float(re.sub(r'[^\d.,]', '', s).replace('.', '').replace(',', '.'))`: never negative. */
  function Magnitude(s: string): (r: Option<int>)
    ensures r.Some? ==> r.value >= 0
  {
    var t := KeepIf(s, NumeralChar);
    assert '-' !in t;
    FloatNoMinus(BrText(t));
    BrFloat(t)
  }

  /** A transaction line's fields; the balance keeps only its magnitude. */
  datatype GovTxn = GovTxn(
    date: CalendarDate,
    documento: string,
    historico: string,
    valor: int,
    saldo: nat,
    credit: bool)

  /**
   * The fields of a matched line: a description without 'Saldo Atualizado',
   * an existing date, and an amount and a balance that convert; otherwise
   * the line is skipped. The amount is a debit exactly when its text ends
   * in 'D', and a debit is stored negated; the balance's own letter is
   * ignored.
   */
  function FromMatch(line: string, m: Match): (r: Option<GovTxn>)
    ensures r.Some? <==>
      && !Contains(Strip(Group(line, m, 3)), "Saldo Atualizado")
      && Strptime(Group(line, m, 1)).Some?
      && Magnitude(Group(line, m, 4)).Some? && Magnitude(Group(line, m, 5)).Some?
    ensures r.Some? ==>
      && Strptime(Group(line, m, 1)).value == r.value.date
      && r.value.documento == Group(line, m, 2)
      && r.value.historico == Strip(Group(line, m, 3))
      && (r.value.credit <==> !EndsWith(Group(line, m, 4), "D"))
      && Abs(r.value.valor) == Magnitude(Group(line, m, 4)).value
      && Some(r.value.saldo as int) == Magnitude(Group(line, m, 5))
    ensures r.Some? ==> if r.value.credit then r.value.valor >= 0 else r.value.valor <= 0
  {
    var historico := Strip(Group(line, m, 3));
    var valorStr := Group(line, m, 4);
    Fields(Contains(historico, "Saldo Atualizado"), Strptime(Group(line, m, 1)), Group(line, m, 2), historico,
      Magnitude(valorStr), EndsWith(valorStr, "D"), Magnitude(Group(line, m, 5)))
  }

  /** The transaction made of converted fields: none when the line is a balance line or a field did not convert; a debit's amount negated. */
  function Fields(saldoLine: bool, d: Option<CalendarDate>, documento: string, historico: string,
                  v: Option<int>, debit: bool, s: Option<int>): (r: Option<GovTxn>)
    requires v.Some? ==> v.value >= 0
    requires s.Some? ==> s.value >= 0
    ensures r.Some? <==> !saldoLine && d.Some? && v.Some? && s.Some?
    ensures r.Some? ==>
      && r.value.date == d.value && r.value.documento == documento && r.value.historico == historico
      && (r.value.credit <==> !debit)
      && Abs(r.value.valor) == v.value
      && Some(r.value.saldo as int) == s
      && if r.value.credit then r.value.valor >= 0 else r.value.valor <= 0
  {
    if saldoLine || d.None? || v.None? || s.None? then None
    else Some(GovTxn(d.value, documento, historico, if debit then -v.value else v.value, s.value, !debit))
  }

  /** One line: a full match of the line pattern whose fields are accepted; anything else is skipped. */
  function ParseLine(line: string): (r: Option<GovTxn>)
    ensures r.Some? ==> ReMatch(LineRe, line).Some?
    ensures ReMatch(LineRe, line).Some? ==> r == FromMatch(line, ReMatch(LineRe, line).value)
    ensures r.Some? ==> !Contains(r.value.historico, "Saldo Atualizado")
  {
    var m := ReMatch(LineRe, line);
    if m.None? then None else FromMatch(line, m.value)
  }

  /** The document number of a transaction line is a run of digits. */
  lemma DocumentDigits(line: string)
    requires ParseLine(line).Some?
    ensures AllDigits(ParseLine(line).value.documento)
  {
    LineGroupsWithin();
    MatchAtCaps(LineRe, line, 0, 2, Digit);
    var m := ReMatch(LineRe, line).value;
    GroupIn(line, m, 2, Digit);
  }

  /** Group 2 of the line pattern captures only digits. */
  lemma LineGroupsWithin()
    ensures GroupWithin(LineRe, 2, Digit)
  {
    assert Subclass(Digit, Digit);
    var parts := [Grp(1, FullDate), Spaces, Grp(2, Plus(Digit)), Spaces, Grp(3, LazyAny), Spaces, Grp(4, CdValue), Spaces, Grp(5, CdValue)];
    forall j | 0 <= j < |parts| ensures GroupWithin(parts[j], 2, Digit) {
    }
    CatsGroupWithin(parts, 2, Digit);
  }

  /**
   * An amount printed the Brazilian way followed by its letter reads back
   * as itself: a 'C' amount as a credit of that value, a 'D' amount as a
   * debit of its negation.
   */
  lemma AmountReads(c: nat, letter: char)
    requires letter == 'C' || letter == 'D'
    ensures Magnitude(ShowBr(c) + [letter]) == Some(c)
    ensures EndsWith(ShowBr(c) + [letter], "D") <==> letter == 'D'
  {
    ShowBrChars(c);
    KeepIfAppend(ShowBr(c), [letter], NumeralChar);
    KeepIfAll(ShowBr(c), NumeralChar);
    assert KeepIf([letter], NumeralChar) == [];
    assert KeepIf(ShowBr(c) + [letter], NumeralChar) == ShowBr(c);
    BrFloatShowBr(c);
    var s := ShowBr(c) + [letter];
    assert s[|s| - 1..] == [letter];
  }

  /** A transaction together with the header it was written with. */
  datatype Txn = Txn(line: GovTxn, header: Header)

  function LineTxn(h: Header, line: string): (r: Option<Txn>)
    ensures r.Some? <==> ParseLine(line).Some?
    ensures r.Some? ==> r.value == Txn(ParseLine(line).value, h)
  {
    var t := ParseLine(line);
    if t.None? then None else Some(Txn(t.value, h))
  }

  /** The transactions of one page: each of its lines in order. */
  function PageRows(h: Header, p: Page): seq<Txn>
  {
    Scan.Collect(h, Caixa.TextLines(p), LineTxn)
  }

  /**
   * A line that is not a transaction is skipped without stopping the scan:
   * the lines around it give what they give on their own.
   */
  lemma SkippedLine(h: Header, before: seq<string>, line: string, after: seq<string>)
    requires ParseLine(line).None?
    ensures Scan.Collect(h, before + [line] + after, LineTxn) ==
      Scan.Collect(h, before, LineTxn) + Scan.Collect(h, after, LineTxn)
  {
    Scan.CollectAppend(h, before + [line], after, LineTxn);
    Scan.CollectSnoc(h, before, line, LineTxn);
  }

  datatype Scanned = Scanned(txns: seq<Txn>, header: Header)

  /** `extract_caixa_govconta` before the DataFrame: an exception when the file does not open or a page has no text. */
  function Extract(doc: Document): (r: Result<Scanned>)
    ensures r.Ok? <==> doc.pages.Some? && AllExtracted(doc.pages.value)
    ensures r.Ok? ==> r.value.header == HeaderOf(doc.pages.value)
  {
    if doc.pages.None? then Err("cannot open PDF")
    else if !AllExtracted(doc.pages.value) then Err("page without text")
    else
      var h := HeaderOf(doc.pages.value);
      Ok(Scanned(Scan.FlatMap(h, doc.pages.value, PageRows), h))
  }

  /** A transaction's amount agrees in sign with its direction, and its description is never a balance update. */
  predicate Sound(t: Txn)
  {
    && (if t.line.credit then t.line.valor >= 0 else t.line.valor <= 0)
    && !Contains(t.line.historico, "Saldo Atualizado")
  }

  /** Every transaction of the document is sound and carries the document's header. */
  lemma TxnsSound(doc: Document)
    requires Extract(doc).Ok?
    ensures forall t | t in Extract(doc).value.txns :: Sound(t) && t.header == Extract(doc).value.header
  {
    var pages := doc.pages.value;
    var h := HeaderOf(pages);
    forall i, t | 0 <= i < |pages| && t in PageRows(h, pages[i]) ensures Sound(t) && t.header == h {
      var k :| 0 <= k < |Caixa.TextLines(pages[i])| && LineTxn(h, Caixa.TextLines(pages[i])[k]) == Some(t);
    }
    Scan.FlatMapAll(h, pages, PageRows, (t: Txn) => Sound(t) && t.header == h);
  }

  lemma RowsSnoc(h: Header, pages: seq<Page>, i: nat)
    requires i < |pages|
    ensures Scan.FlatMap(h, pages[..i + 1], PageRows) == Scan.FlatMap(h, pages[..i], PageRows) + PageRows(h, pages[i])
  {
    assert pages[..i + 1][..i] == pages[..i];
  }

  /** The page loop: the header on the first page, then every line of every page. */
  method ExtractGovConta(doc: Document) returns (r: Result<Scanned>)
    ensures r == Extract(doc)
  {
    if doc.pages.None? {
      return Err("cannot open PDF");
    }
    var pages := doc.pages.value;
    ghost var header := HeaderOf(pages);
    var ts: seq<Txn> := [];
    var h := NoHeader;
    var i := 0;
    while i < |pages|
      invariant 0 <= i <= |pages|
      invariant AllExtracted(pages[..i])
      invariant h == if i == 0 then NoHeader else header
      invariant ts == Scan.FlatMap(header, pages[..i], PageRows)
    {
      if !pages[i].text.Extracted? {
        return Err("page without text");
      }
      var lines := PageLines(pages[i].text);
      assert lines == Caixa.TextLines(pages[i]);
      if i == 0 {
        h := Scan.ThreadLoop(NoHeader, HeaderLines(lines), HeaderLine);
        assert h == Scan.Thread(NoHeader, HeaderLines(Caixa.TextLines(pages[0])), HeaderLine);
      }
      assert h == header;
      var more := Scan.CollectLoop(h, lines, LineTxn);
      RowsSnoc(header, pages, i);
      ts := ts + more;
      ExtractedSnoc(pages, i);
      i := i + 1;
    }
    assert pages[..i] == pages;
    r := Ok(Scanned(ts, h));
  }

  // ---------------------------------------------------------------------
  // The DataFrame.

  /** The keys of a transaction dictionary, in order. */
  const Keys: seq<string> :=
    ["arquivo", "data_movimento", "historico", "documento", "valor", "saldo", "tipo", "govconta", "conta_referencia", "nome", "banco"]

  /** One cell of a transaction's dictionary: a header field not read is ''. */
  function Cell(arquivo: string, t: Txn, k: string): Value
  {
    if k == "arquivo" then Str(arquivo)
    else if k == "data_movimento" then Str(Strftime(t.line.date))
    else if k == "historico" then Str(t.line.historico)
    else if k == "documento" then Str(t.line.documento)
    else if k == "valor" then Num(t.line.valor)
    else if k == "saldo" then Num(t.line.saldo)
    else if k == "tipo" then Str(Caixa.Tipo(t.line.credit))
    else if k == "govconta" then Str(t.header.govconta.GetOr(""))
    else if k == "conta_referencia" then Str(t.header.contaReferencia.GetOr(""))
    else if k == "nome" then Str(t.header.nome.GetOr(""))
    else Str(Caixa.BankName)
  }

  lemma KeysHave()
    ensures "arquivo" in Keys && "data_movimento" in Keys && "historico" in Keys && "documento" in Keys
    ensures "valor" in Keys && "saldo" in Keys && "tipo" in Keys && "banco" in Keys
    ensures "govconta" in Keys && "conta_referencia" in Keys && "nome" in Keys
  {
    assert Keys[0] == "arquivo" && Keys[1] == "data_movimento" && Keys[2] == "historico" && Keys[3] == "documento";
    assert Keys[4] == "valor" && Keys[5] == "saldo" && Keys[6] == "tipo" && Keys[10] == "banco";
    assert Keys[7] == "govconta" && Keys[8] == "conta_referencia" && Keys[9] == "nome";
  }

  /** The extractor writes no `conta` and no `agencia` key. */
  lemma KeysLackAccount()
    ensures "conta" !in Keys && "agencia" !in Keys
  {
    forall k | k in Keys
      ensures k != "conta" && k != "agencia"
    {
      var i :| 0 <= i < |Keys| && Keys[i] == k;
    }
  }

  function ToRow(arquivo: string, t: Txn): (r: Row)
    ensures Shaped(r, Keys)
  {
    map k | k in Keys :: Cell(arquivo, t, k)
  }

  lemma RowGet(arquivo: string, t: Txn, k: string)
    requires k in Keys
    ensures Get(ToRow(arquivo, t), k) == Cell(arquivo, t, k)
  {
  }

  /** A transaction's dictionary holds its fields as the extractor writes them, the date as text. */
  lemma TxnCells(arquivo: string, t: Txn)
    ensures var r := ToRow(arquivo, t);
      && Get(r, "arquivo") == Str(arquivo)
      && Get(r, "data_movimento") == Str(Strftime(t.line.date))
      && Get(r, "historico") == Str(t.line.historico)
      && Get(r, "documento") == Str(t.line.documento)
      && Get(r, "valor") == Num(t.line.valor)
      && Get(r, "saldo") == Num(t.line.saldo)
      && (Get(r, "tipo") == Str("credit") <==> t.line.credit)
      && Get(r, "banco") == Str(Caixa.BankName)
  {
    KeysHave();
    RowGet(arquivo, t, "arquivo");
    RowGet(arquivo, t, "data_movimento");
    RowGet(arquivo, t, "historico");
    RowGet(arquivo, t, "documento");
    RowGet(arquivo, t, "valor");
    RowGet(arquivo, t, "saldo");
    RowGet(arquivo, t, "tipo");
    RowGet(arquivo, t, "banco");
  }

  /** A transaction's dictionary holds the header fields read, '' for those not read. */
  lemma HeaderCells(arquivo: string, t: Txn)
    ensures var r := ToRow(arquivo, t);
      && Get(r, "govconta") == Str(t.header.govconta.GetOr(""))
      && Get(r, "conta_referencia") == Str(t.header.contaReferencia.GetOr(""))
      && Get(r, "nome") == Str(t.header.nome.GetOr(""))
  {
    KeysHave();
    RowGet(arquivo, t, "govconta");
    RowGet(arquivo, t, "conta_referencia");
    RowGet(arquivo, t, "nome");
  }

  /** `pd.DataFrame(all_transactions)`: one row per transaction in order; no columns when there are none. */
  function TxnFrame(arquivo: string, ts: seq<Txn>): (f: Frame)
    ensures WellFormed(f) && |f.rows| == |ts|
    ensures f.columns == if |ts| == 0 then [] else Keys
    ensures forall i | 0 <= i < |ts| :: f.rows[i] == ToRow(arquivo, ts[i])
  {
    assert Distinct(Keys);
    Frame(if |ts| == 0 then [] else Keys, seq(|ts|, i requires 0 <= i < |ts| => ToRow(arquivo, ts[i])))
  }

  /** `extract_caixa_govconta`: the table named after the file, and the header dictionary. */
  function ExtractStatement(doc: Document): (r: Result<(Frame, Header)>)
    ensures r.Ok? <==> Extract(doc).Ok?
    ensures r.Ok? ==> r.value.1 == Extract(doc).value.header && |r.value.0.rows| == |Extract(doc).value.txns|
  {
    var e := Extract(doc);
    if e.Err? then Err(e.msg)
    else Ok((TxnFrame(doc.name, e.value.txns), e.value.header))
  }

  /** The same steps in order: the page loop, then the DataFrame. */
  method RunExtractStatement(doc: Document) returns (r: Result<(Frame, Header)>)
    ensures r == ExtractStatement(doc)
  {
    var e := ExtractGovConta(doc);
    if e.Err? {
      return Err(e.msg);
    }
    r := Ok((TxnFrame(doc.name, e.value.txns), e.value.header));
  }
}
