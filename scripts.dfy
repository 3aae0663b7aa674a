/**
 * What the standalone extractor scripts under `scripts_individuais/` share:
 * the dictionary each writes per transaction, the metadata they read from
 * the first page, the pass over every page's lines that carries a state
 * from line to line (the "current date"), and the
 * `try: ... except Exception: return [], metadata` around it all.
 */
module Scripts {
  import opened Wrappers
  import opened Text
  import opened Numbers
  import opened Pdf
  import Scan
  import Generico
  import Regex

  type Metadata = Generico.Metadata

  /** The metadata a script starts from: its bank and code, every other field ''. */
  function Defaults(banco: string, codigo: string): (m: Metadata)
    ensures m.banco == banco && m.codigoBanco == codigo
    ensures m.agencia == "" && m.conta == "" && m.periodo == ""
  {
    Generico.Metadata(banco, codigo, "", "", "")
  }

  /** A `Valor` or `Saldo` entry: the text a script writes, or the `float` it stores (in cents). */
  datatype Amount = Written(text: string) | Cents(value: int)

  /** `f"{valor:.2f}".replace('.', ',')` */
  function Comma(c: int): Amount
  {
    Written(ShowComma(c))
  }

  /** A `Valor` written as the two-decimal, decimal-comma rendering of the number it reads back as. */
  predicate TwoDecimals(a: Amount)
  {
    a.Written? && BrFloat(a.text).Some? && a == Comma(BrFloat(a.text).value)
  }

  /** What `f"{valor:.2f}".replace('.', ',')` writes reads back, in the Brazilian convention, as the same number. */
  lemma CommaTwoDecimals(c: int)
    ensures TwoDecimals(Comma(c)) && BrFloat(Comma(c).text) == Some(c)
  {
    BrFloatShowComma(c);
  }

  /** The text `'0,00'` the scripts write for a balance they do not read. */
  const ZeroComma: Amount := Written("0,00")

  /** The keys of a script's dictionaries, spelt without accents (`'Codigo Banco'`) or with them (`'Código Banco'`). */
  datatype Spelling = Plain | Accented

  /** A pattern of a pattern cascade and the number of groups it has, which decides how its matches are read. */
  datatype Pattern = Pattern(re: Regex.Re, groups: nat)

  /** One transaction dictionary; `arquivo` is the `'Arquivo'` entry the Santander scripts add. */
  datatype Row = Row(
    spelling: Spelling,
    banco: string,
    codigo: string,
    agencia: string,
    conta: string,
    data: string,
    documento: string,
    descricao: string,
    valor: Amount,
    tipo: string,
    saldo: Amount,
    arquivo: Option<string>)

  /** The dictionary's keys, in insertion order. */
  function Keys(r: Row): (ks: seq<string>)
    ensures |ks| == if r.arquivo.Some? then 11 else 10
    ensures ks[0] == "Banco" && ks[3] == "Conta" && ks[4] == "Data" && ks[7] == "Valor" && ks[8] == "Tipo" && ks[9] == "Saldo"
  {
    var core := match r.spelling
      case Plain => ["Banco", "Codigo Banco", "Agencia", "Conta", "Data", "Documento", "Descricao", "Valor", "Tipo", "Saldo"]
      case Accented => ["Banco", "Código Banco", "Agência", "Conta", "Data", "Documento", "Descrição", "Valor", "Tipo", "Saldo"];
    if r.arquivo.Some? then core + ["Arquivo"] else core
  }

  /** A dictionary whose bank, code, branch and account are the metadata's at the time it is built. */
  function Entry(sp: Spelling, m: Metadata, data: string, documento: string, descricao: string, valor: Amount, tipo: string, saldo: Amount): (r: Row)
    ensures r.banco == m.banco && r.codigo == m.codigoBanco && r.agencia == m.agencia && r.conta == m.conta
    ensures r.spelling == sp && r.arquivo.None?
  {
    Row(sp, m.banco, m.codigoBanco, m.agencia, m.conta, data, documento, descricao, valor, tipo, saldo, None)
  }

  /** `'D' if s.startswith('-') else 'C'` */
  function SignTipo(s: string): (t: string)
    ensures t == "D" <==> StartsWith(s, "-")
    ensures t == "C" || t == "D"
  {
    if StartsWith(s, "-") then "D" else "C"
  }

  /** `'D' if any(w in d.upper() for w in words) else 'C'` */
  function KeywordTipo(d: string, words: seq<string>): (t: string)
    ensures t == "D" <==> ContainsAny(Upper(d), words)
    ensures t == "C" || t == "D"
  {
    if ContainsAny(Upper(d), words) then "D" else "C"
  }

  // ---------------------------------------------------------------------
  // The pass over pages and lines.

  /** The body of a script's line loop: line `i` of a page, given the state so far; `None` when it raises. */
  type LineRead<!S, T> = (S, seq<string>, nat) -> Option<(S, seq<T>)>

  function LineAt<S, T>(read: LineRead<S, T>, lines: seq<string>): (S, nat) -> Option<(S, seq<T>)>
  {
    (s: S, i: nat) => if i < |lines| then read(s, lines, i) else Some((s, []))
  }

  /** One page: a text that raises stops the pass, a page without text is skipped, otherwise every line in order. */
  function PageRead<S, T>(read: LineRead<S, T>, s: S, p: Page): Option<(S, seq<T>)>
  {
    if p.text.Raises? then None
    else if !HasText(p.text) then Some((s, []))
    else
      var lines := PageLines(p.text);
      Scan.TryFold(s, Generico.Indices(|lines|), LineAt(read, lines))
  }

  function PageFn<S, T>(read: LineRead<S, T>): (S, Page) -> Option<(S, seq<T>)>
  {
    (s: S, p: Page) => PageRead(read, s, p)
  }

  /** `for page in pdf.pages: text = page.extract_text(); if not text: continue; for line in text.split('\n'): ...` */
  function PagesRead<S, T>(read: LineRead<S, T>, s0: S, pages: seq<Page>): Option<(S, seq<T>)>
  {
    Scan.TryFold(s0, pages, PageFn(read))
  }

  /** How many lines the pages with text hold. */
  function TextLines(p: Page): nat
  {
    if HasText(p.text) then |PageLines(p.text)| else 0
  }

  /** The line loop of one page. */
  method ReadPage<S, T>(read: LineRead<S, T>, s: S, p: Page) returns (r: Option<(S, seq<T>)>)
    ensures r == PageRead(read, s, p)
  {
    if p.text.Raises? {
      return None;
    }
    if !HasText(p.text) {
      return Some((s, []));
    }
    var lines := PageLines(p.text);
    r := Scan.TryFoldLoop(s, Generico.Indices(|lines|), LineAt(read, lines));
  }

  /** The page loop, with the state carried from one page to the next. */
  method ReadPages<S, T>(read: LineRead<S, T>, s0: S, pages: seq<Page>) returns (r: Option<(S, seq<T>)>)
    ensures r == PagesRead(read, s0, pages)
  {
    var s, rows := s0, [];
    var k := 0;
    while k < |pages|
      invariant 0 <= k <= |pages|
      invariant Scan.TryFold(s0, pages[..k], PageFn(read)) == Some((s, rows))
    {
      assert pages[..k + 1][..k] == pages[..k];
      var page := ReadPage(read, s, pages[k]);
      assert page == PageFn(read)(s, pages[k]);
      if page.None? {
        Scan.TryFoldStops(s0, pages, PageFn(read), k);
        return None;
      }
      s, rows := page.value.0, rows + page.value.1;
      k := k + 1;
    }
    assert pages[..k] == pages;
    r := Some((s, rows));
  }

  /** What every line emits satisfies `ok`, so every row of the pass does. */
  lemma PagesAll<S, T>(read: LineRead<S, T>, s0: S, pages: seq<Page>, ok: T -> bool)
    requires forall s: S, lines: seq<string>, i: nat, t: T | i < |lines| && read(s, lines, i).Some? && t in read(s, lines, i).value.1 :: ok(t)
    ensures PagesRead(read, s0, pages).Some? ==> forall t | t in PagesRead(read, s0, pages).value.1 :: ok(t)
  {
    forall s: S, p: Page, t: T | PageFn(read)(s, p).Some? && t in PageFn(read)(s, p).value.1
      ensures ok(t)
    {
      var lines := PageLines(p.text);
      Scan.TryFoldAll(s, Generico.Indices(|lines|), LineAt(read, lines), ok);
    }
    Scan.TryFoldAll(s0, pages, PageFn(read), ok);
  }

  /** A line emits at most one row, so the pass emits no more rows than the pages have lines. */
  lemma PagesBound<S, T>(read: LineRead<S, T>, s0: S, pages: seq<Page>)
    requires forall s: S, lines: seq<string>, i: nat | i < |lines| && read(s, lines, i).Some? :: |read(s, lines, i).value.1| <= 1
    ensures PagesRead(read, s0, pages).Some? ==> |PagesRead(read, s0, pages).value.1| <= Scan.SumOf(pages, TextLines)
  {
    forall s: S, p: Page | PageFn(read)(s, p).Some?
      ensures |PageFn(read)(s, p).value.1| <= TextLines(p)
    {
      if HasText(p.text) {
        var lines := PageLines(p.text);
        var one := (i: nat) => 1;
        Scan.TryFoldBound(s, Generico.Indices(|lines|), LineAt(read, lines), one);
        Scan.SumOfOnes(Generico.Indices(|lines|), one);
      }
    }
    Scan.TryFoldBound(s0, pages, PageFn(read), TextLines);
  }

  /** A line emits no more rows than it adds to the measure `w` of the state, so the pass does not either. */
  lemma PagesGrow<S, T>(read: LineRead<S, T>, s0: S, pages: seq<Page>, w: S -> int)
    requires forall s: S, lines: seq<string>, i: nat | i < |lines| && read(s, lines, i).Some? :: w(s) + |read(s, lines, i).value.1| <= w(read(s, lines, i).value.0)
    ensures PagesRead(read, s0, pages).Some? ==> w(s0) + |PagesRead(read, s0, pages).value.1| <= w(PagesRead(read, s0, pages).value.0)
  {
    forall s: S, p: Page | PageFn(read)(s, p).Some?
      ensures w(s) + |PageFn(read)(s, p).value.1| <= w(PageFn(read)(s, p).value.0)
    {
      if HasText(p.text) {
        var lines := PageLines(p.text);
        Scan.TryFoldGrow(s, Generico.Indices(|lines|), LineAt(read, lines), w);
      }
    }
    Scan.TryFoldGrow(s0, pages, PageFn(read), w);
  }

  // ---------------------------------------------------------------------
  // The guarded run.

  /** The first-page block: `None` when `extract_text()` raises there; the fields `fill` finds when there is text. */
  function FirstPageMeta(m0: Metadata, pages: seq<Page>, fill: (Metadata, string) -> Metadata): Option<Metadata>
  {
    if |pages| == 0 then Some(m0)
    else
      match pages[0].text
      case Raises => None
      case NoText => Some(m0)
      case Extracted(t) => Some(if |t| > 0 then fill(m0, t) else m0)
  }

  /** What a run returns: the rows, the metadata, and whether an exception ended it. */
  datatype Run<T> = Run(rows: seq<T>, meta: Metadata, raised: bool)

  /** A script's line loop, given the metadata its rows copy. */
  type Reader<!S, T> = Metadata -> LineRead<S, T>

  /**
   * `try:` open the file, read the metadata from the first page, read every
   * page; `except Exception: return [], metadata` with the metadata as far
   * as it got.
   */
  function Guarded<S, T>(doc: Document, m0: Metadata, fill: (Metadata, string) -> Metadata, reader: Reader<S, T>, s0: S): (r: Run<T>)
    ensures r.raised ==> r.rows == []
    ensures doc.pages.None? ==> r.raised && r.meta == m0
    ensures r.meta == m0 || (doc.pages.Some? && |doc.pages.value| > 0 && HasText(doc.pages.value[0].text) && r.meta == fill(m0, doc.pages.value[0].text.s))
  {
    if doc.pages.None? then Run([], m0, true)
    else
      match FirstPageMeta(m0, doc.pages.value, fill)
      case None => Run([], m0, true)
      case Some(m) =>
        match PagesRead(reader(m), s0, doc.pages.value)
        case None => Run([], m, true)
        case Some((_, rows)) => Run(rows, m, false)
  }

  method RunGuarded<S, T>(doc: Document, m0: Metadata, fill: (Metadata, string) -> Metadata, reader: Reader<S, T>, s0: S) returns (r: Run<T>)
    ensures r == Guarded(doc, m0, fill, reader, s0)
  {
    if doc.pages.None? {
      return Run([], m0, true);
    }
    var pages := doc.pages.value;
    var metadata := m0;
    if |pages| > 0 {
      var first := pages[0].text;
      if first.Raises? {
        return Run([], m0, true);
      }
      if HasText(first) {
        metadata := fill(metadata, first.s);
      }
    }
    var out := ReadPages(reader(metadata), s0, pages);
    if out.None? {
      return Run([], metadata, true);
    }
    r := Run(out.value.1, metadata, false);
  }

  /** Every row of a run came from a line read with the run's metadata, so what every line's rows satisfy the run's rows do. */
  lemma GuardedAll<S, T>(doc: Document, m0: Metadata, fill: (Metadata, string) -> Metadata, reader: Reader<S, T>, s0: S, ok: (Metadata, T) -> bool)
    requires forall m: Metadata, s: S, lines: seq<string>, i: nat, t: T | i < |lines| && reader(m)(s, lines, i).Some? && t in reader(m)(s, lines, i).value.1 :: ok(m, t)
    ensures var r := Guarded(doc, m0, fill, reader, s0); forall t | t in r.rows :: ok(r.meta, t)
  {
    if doc.pages.Some? {
      var r := Guarded(doc, m0, fill, reader, s0);
      var okHere := (t: T) => ok(r.meta, t);
      PagesAll(reader(r.meta), s0, doc.pages.value, okHere);
    }
  }

  /** A run whose lines emit at most one row each has no more rows than its pages have lines. */
  lemma GuardedBound<S, T>(doc: Document, m0: Metadata, fill: (Metadata, string) -> Metadata, reader: Reader<S, T>, s0: S)
    requires doc.pages.Some?
    requires forall m: Metadata, s: S, lines: seq<string>, i: nat | i < |lines| && reader(m)(s, lines, i).Some? :: |reader(m)(s, lines, i).value.1| <= 1
    ensures |Guarded(doc, m0, fill, reader, s0).rows| <= Scan.SumOf(doc.pages.value, TextLines)
  {
    var r := Guarded(doc, m0, fill, reader, s0);
    PagesBound(reader(r.meta), s0, doc.pages.value);
  }

  /** `log_info = {'arquivo': ..., 'paginas': ..., 'transacoes': ...}` */
  datatype Log = Log(arquivo: string, paginas: nat, transacoes: nat)

  /** The log a script returns: `paginas` once the file opened, `transacoes` only when no exception was raised. */
  function Logged<T>(doc: Document, r: Run<T>): Log
  {
    Log(doc.name, if doc.pages.Some? then |doc.pages.value| else 0, if r.raised then 0 else |r.rows|)
  }

  /** Whether or not an exception ended the run, the log counts exactly the rows returned. */
  lemma LoggedCount<S, T>(doc: Document, m0: Metadata, fill: (Metadata, string) -> Metadata, reader: Reader<S, T>, s0: S)
    ensures var r := Guarded(doc, m0, fill, reader, s0);
      Logged(doc, r).transacoes == |r.rows| && Logged(doc, r).arquivo == doc.name
  {
  }

  /** The list a line appends to: nothing, or its one row. */
  function Emit<T>(r: Option<T>): (out: seq<T>)
    ensures |out| <= 1 && (r.Some? ==> out == [r.value]) && (r.None? ==> out == [])
  {
    if r.Some? then [r.value] else []
  }

  /** What `Emit` gives is the optional row's value. */
  lemma EmitOf<T>(r: Option<T>, t: T)
    requires t in Emit(r)
    ensures r.Some? && t == r.value
  {
  }
}
