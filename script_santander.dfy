/**
 * `ScriptSantander`: `extract_santander_transactions` of the standalone
 * Santander script. It has no `try`: an exception anywhere (the file does
 * not open, the first page has no text to search, a page's text raises)
 * leaves the function, which the model writes as `None`.
 */
module ScriptSantander {
  import opened Wrappers
  import opened Text
  import opened Numbers
  import opened Regex
  import opened Patterns
  import opened Pdf
  import opened Scripts
  import Scan
  import Generico

  const Bank: Metadata := Defaults("Banco Santander", "033")

  /** `AGENCIA\s+(\d+)` */
  const AgenciaRe: Re := Cats([Lit("AGENCIA"), Spaces, Grp(1, Plus(Digit))])

  /** `CONTA\s+(\d+)` */
  const ContaRe: Re := Cats([Lit("CONTA"), Spaces, Grp(1, Plus(Digit))])

  /** The branch and account of the first page, each '' when its pattern is absent; nothing else changes. */
  function Fill(m: Metadata, text: string): (r: Metadata)
    ensures r == m.(agencia := r.agencia, conta := r.conta)
    ensures ReSearch(AgenciaRe, text).None? ==> r.agencia == ""
    ensures ReSearch(ContaRe, text).None? ==> r.conta == ""
  {
    m.(agencia := Generico.First(AgenciaRe, text).GetOr(""), conta := Generico.First(ContaRe, text).GetOr(""))
  }

  /**
   * `pdf.pages[0].extract_text() if pdf.pages else ""` as `re.search`
   * receives it: `None` when the text raises or is `None`, which
   * `re.search` refuses.
   */
  function FirstText(pages: seq<Page>): (t: Option<string>)
    ensures |pages| == 0 ==> t == Some("")
    ensures |pages| > 0 ==> (t.Some? <==> pages[0].text.Extracted?)
  {
    if |pages| == 0 then Some("")
    else
      match pages[0].text
      case Extracted(s) => Some(s)
      case _ => None
  }

  /**
   * The amount cleaning: with a comma that splits the amount into two
   * pieces, the second of two characters, the dots of the first piece are
   * dropped and the comma becomes a point; any other amount with a comma
   * takes the general replacement; an amount without a comma loses its dots.
   */
  function Clean(v: string): string
  {
    if ',' in v then
      var parts := Split(v, ',');
      if |parts| == 2 && |parts[1]| == 2 then Drop(parts[0], '.') + "." + parts[1] else BrText(v)
    else Drop(v, '.')
  }

  /** The special case: exactly two characters after the only comma. */
  predicate Cents(v: string)
  {
    ',' in v && |Split(v, ',')| == 2 && |Split(v, ',')[1]| == 2
  }

  /** An amount with one comma is the piece before it, the comma, and the piece after it. */
  lemma CentsPieces(v: string)
    requires Cents(v)
    ensures v == Split(v, ',')[0] + [','] + Split(v, ',')[1]
  {
    var parts := Split(v, ',');
    JoinSplit(v, ',');
    assert Join([','], parts) == parts[0] + [','] + Join([','], parts[1..]);
    assert parts[1..] == [parts[1]];
  }

  lemma DropPieces(a: string, b: string)
    requires '.' !in b
    ensures Drop(a + [','] + b, '.') == Drop(a, '.') + [','] + b
  {
    DropConcat(a + [','], b, '.');
    DropConcat(a, [','], '.');
    DropAbsent(b, '.');
  }

  lemma SwapPieces(a: string, b: string)
    requires ',' !in a && ',' !in b
    ensures Swap(a + [','] + b, ',', '.') == a + "." + b
  {
    var s := a + [','] + b;
    assert forall i | 0 <= i < |s| :: (s[i] == ',' <==> i == |a|);
  }

  /**
   * The cleaning agrees with the general `BrText` reading except where the
   * two characters after the comma hold a dot.
   */
  lemma CleanBr(v: string)
    requires !(Cents(v) && '.' in Split(v, ',')[1])
    ensures Clean(v) == BrText(v)
  {
    if Cents(v) {
      var parts := Split(v, ',');
      CentsPieces(v);
      DropPieces(parts[0], parts[1]);
      SwapPieces(Drop(parts[0], '.'), parts[1]);
    } else if ',' !in v {
      assert Swap(Drop(v, '.'), ',', '.') == Drop(v, '.');
    }
  }

  /** The cleaning never introduces a minus sign, so an amount without one reads as a credit of its own magnitude. */
  lemma CleanNoMinus(v: string)
    requires '-' !in v
    ensures '-' !in Clean(v)
    ensures SignTipo(Clean(v)) == "C" && Drop(Clean(v), '-') == Clean(v)
  {
    if Cents(v) {
      CentsPieces(v);
      var parts := Split(v, ',');
      assert forall c | c in parts[0] :: c in v;
      assert forall c | c in parts[1] :: c in v;
    }
    var clean := Clean(v);
    DropAbsent(clean, '-');
    assert StartsWith(clean, "-") ==> clean[0] in clean;
  }

  /** The row of a stripped line: `None` when it is empty, not "date description amount", a previous balance, or an amount `float` refuses. */
  function ReadLine(name: string, m: Metadata, line: string): (r: Option<Row>)
    ensures r.Some? ==> |line| > 0 && ReSearch(FullLine, line).Some?
    ensures r.Some? ==> !Contains(Upper(r.value.descricao), "SALDO ANTERIOR")
  {
    if |line| == 0 then None
    else
      match ReSearch(FullLine, line)
      case None => None
      case Some(x) =>
        var descricao := Strip(Group(line, x, 2));
        if Contains(Upper(descricao), "SALDO ANTERIOR") then None
        else
          var clean := Clean(Strip(Group(line, x, 3)));
          match Float(Drop(clean, '-'))
          case None => None
          case Some(v) => Some(Entry(Plain, m, Group(line, x, 1), "", descricao, Comma(v), SignTipo(clean), ZeroComma).(arquivo := Some(name)))
  }

  function Reader(name: string, m: Metadata): LineRead<(), Row>
  {
    (s: (), lines: seq<string>, i: nat) => Some(((), if i < |lines| then Emit(ReadLine(name, m, Strip(lines[i]))) else []))
  }

  /** `extract_santander_transactions`: the rows and the log, or `None` when an exception leaves it. */
  function Extract(doc: Document): (r: Option<(seq<Row>, Log)>)
    ensures doc.pages.None? ==> r.None?
  {
    if doc.pages.None? then None
    else
      match FirstText(doc.pages.value)
      case None => None
      case Some(t) =>
        match PagesRead(Reader(doc.name, Fill(Bank, t)), (), doc.pages.value)
        case None => None
        case Some((_, rows)) => Some((rows, Log(doc.name, |doc.pages.value|, |rows|)))
  }

  method ExtractSantanderTransactions(doc: Document) returns (r: Option<(seq<Row>, Log)>)
    ensures r == Extract(doc)
  {
    if doc.pages.None? {
      return None;
    }
    var pages := doc.pages.value;
    var log := Log(doc.name, |pages|, 0);
    var first := FirstText(pages);
    if first.None? {
      return None;
    }
    var m := Fill(Bank, first.value);
    var out := ReadPages(Reader(doc.name, m), (), pages);
    if out.None? {
      return None;
    }
    log := log.(transacoes := |out.value.1|);
    r := Some((out.value.1, log));
  }

  // ---------------------------------------------------------------------
  // What the rows satisfy.

  /**
   * A row of this script: unaccented keys and the file name, the bank and
   * code, the branch and account of `m`, no document, a balance of '0,00',
   * the direction 'C' (the amount pattern has no minus sign, so no amount
   * reads as a debit), and an amount that is the two-decimal rendering of
   * the non-negative number it reads back as.
   */
  predicate Sound(name: string, m: Metadata, t: Row)
  {
    && t.spelling == Plain && t.arquivo == Some(name) && t.documento == "" && t.saldo == ZeroComma
    && t.banco == m.banco && t.codigo == m.codigoBanco && t.agencia == m.agencia && t.conta == m.conta
    && t.tipo == "C"
    && TwoDecimals(t.valor) && BrFloat(t.valor.text).value >= 0
  }

  lemma ReadLineSound(name: string, m: Metadata, line: string)
    ensures ReadLine(name, m, line).Some? ==> Sound(name, m, ReadLine(name, m, line).value)
  {
    if ReadLine(name, m, line).Some? {
      var g := Group(line, ReSearch(FullLine, line).value, 3);
      LinesWithin();
      SearchAmountUnsigned(FullLine, line, 3);
      CleanNoMinus(Strip(g));
      var clean := Clean(Strip(g));
      FloatNoMinus(clean);
      CommaTwoDecimals(Float(clean).value);
    }
  }

  /**
   * When `extract_santander_transactions` returns, every row is `Sound`
   * for the metadata of the first page, there is at most one row per line
   * of text, and the log counts the pages and the rows; a file that does
   * not open raises.
   */
  lemma ExtractSound(doc: Document)
    ensures doc.pages.None? ==> Extract(doc).None?
    ensures Extract(doc).Some? ==>
      var (rows, log) := Extract(doc).value;
      && FirstText(doc.pages.value).Some?
      && (forall t | t in rows :: Sound(doc.name, Fill(Bank, FirstText(doc.pages.value).value), t))
      && |rows| <= Scan.SumOf(doc.pages.value, TextLines)
      && log == Log(doc.name, |doc.pages.value|, |rows|)
  {
    if Extract(doc).Some? {
      var m := Fill(Bank, FirstText(doc.pages.value).value);
      PassSound(doc.name, m, doc.pages.value);
      PagesBound(Reader(doc.name, m), (), doc.pages.value);
    }
  }

  lemma PassSound(name: string, m: Metadata, pages: seq<Page>)
    ensures PagesRead(Reader(name, m), (), pages).Some? ==> forall t | t in PagesRead(Reader(name, m), (), pages).value.1 :: Sound(name, m, t)
  {
    forall s: (), lines: seq<string>, i: nat, t: Row | i < |lines| && Reader(name, m)(s, lines, i).Some? && t in Reader(name, m)(s, lines, i).value.1
      ensures Sound(name, m, t)
    {
      ReadLineSound(name, m, Strip(lines[i]));
    }
    var ok := (t: Row) => Sound(name, m, t);
    PagesAll(Reader(name, m), (), pages, ok);
  }
}
