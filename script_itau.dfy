/**
 * `ScriptItau`: `extract_itau_data` of the standalone Itaú script. The
 * branch and account come from three patterns in priority order; each
 * stripped line is tried against six layouts in a fixed order and the
 * first that matches consumes it; a line holding a full date and no layout
 * moves the current date, which later undated lines use. There is no
 * per-line `try`, so an amount `float` refuses ends the whole run. The
 * year of the PIX rows comes from the clock and is a parameter here.
 */
module ScriptItau {
  import opened Wrappers
  import opened Text
  import opened Numbers
  import opened Regex
  import opened Patterns
  import opened Pdf
  import opened Scripts
  import Scan
  import Generico
  import GenericoSound

  const Bank: Metadata := Defaults("Banco Itaú", "341")

  // ---------------------------------------------------------------------
  // The first page.

  /** `Conta:\s*(\d+-\d+)` */
  const ContaRe: Re := Cats([Lit("Conta:"), Star(Space), Grp(1, Generico.DashNumber)])

  /** Pattern 1, `Agência/Conta:`: both fields from one match; nothing else changes. */
  function Primary(m: Metadata, text: string): (r: Metadata)
    ensures ReSearch(Generico.ItauAccountRe, text).None? ==> r == m
    ensures ReSearch(Generico.ItauAccountRe, text).Some? ==>
      var x := ReSearch(Generico.ItauAccountRe, text).value;
      r == m.(agencia := Group(text, x, 1), conta := Group(text, x, 2))
  {
    match ReSearch(Generico.ItauAccountRe, text)
    case Some(x) => m.(agencia := Group(text, x, 1), conta := Group(text, x, 2))
    case None => m
  }

  /**
   * Pattern 2, only while the branch is empty: the branch from `Ag:` and
   * the account from `Conta:`, each on its own, each left as it was when
   * absent.
   */
  function Secondary(m: Metadata, text: string): (r: Metadata)
    ensures m.agencia != "" ==> r == m
    ensures m.agencia == "" ==> r == m.(agencia := Generico.First(Generico.BradescoAgRe, text).GetOr(m.agencia),
                                       conta := Generico.First(ContaRe, text).GetOr(m.conta))
  {
    if m.agencia != "" then m
    else m.(agencia := Generico.First(Generico.BradescoAgRe, text).GetOr(m.agencia),
            conta := Generico.First(ContaRe, text).GetOr(m.conta))
  }

  /** Pattern 3, only while the branch is still empty: the monthly `ag ... cc ...`, both fields from one match. */
  function Monthly(m: Metadata, text: string): (r: Metadata)
    ensures m.agencia != "" || ReSearch(Generico.ItauMonthlyRe, text).None? ==> r == m
    ensures m.agencia == "" && ReSearch(Generico.ItauMonthlyRe, text).Some? ==>
      var x := ReSearch(Generico.ItauMonthlyRe, text).value;
      r == m.(agencia := Group(text, x, 1), conta := Group(text, x, 2))
  {
    if m.agencia != "" then m
    else
      match ReSearch(Generico.ItauMonthlyRe, text)
      case Some(x) => m.(agencia := Group(text, x, 1), conta := Group(text, x, 2))
      case None => m
  }

  /** The branch and account: the three patterns in priority order. */
  function Account(m: Metadata, text: string): Metadata
  {
    Monthly(Secondary(Primary(m, text), text), text)
  }

  /**
   * The period: `Extrato de ... até ...`, else two dates joined by `a` or
   * `e`, else a month and year found ignoring case, written as
   * `"<Month> <year>"`; unchanged when none is found.
   */
  function Period(m: Metadata, text: string): (r: Metadata)
    ensures r == m.(periodo := r.periodo)
    ensures ReSearch(Generico.ItauPeriodRe, text).None? && ReSearch(Generico.PeriodRe, text).None? && ReSearch(Generico.MonthRe, Lower(text)).None? ==> r == m
  {
    match Generico.Between(Generico.ItauPeriodRe, text)
    case Some(p) => m.(periodo := p)
    case None =>
      match Generico.Between(Generico.PeriodRe, text)
      case Some(p) => m.(periodo := p)
      case None =>
        var low := Lower(text);
        match ReSearch(Generico.MonthRe, low)
        case None => m
        case Some(a) => m.(periodo := Generico.Title(Group(low, a, 1)) + " " + Group(low, a, 2))
  }

  function Fill(m: Metadata, text: string): (r: Metadata)
    ensures r == m.(agencia := r.agencia, conta := r.conta, periodo := r.periodo)
  {
    Period(Account(m, text), text)
  }

  // ---------------------------------------------------------------------
  // The layouts.

  /** `^(.+?)\s+([+-]?[\d.,]+)$` */
  const UndatedRe: Re := Cats([Bol, Grp(1, LazyAny), Spaces, Grp(2, Generico.SignedAmount), Eol])

  /** Empty lines and the lines starting with `Data`, `Itaú`, `Página` or `Extrato`. */
  predicate Skipped(line: string)
  {
    |line| == 0 || StartsWith(line, "Data") || StartsWith(line, "Itaú") || StartsWith(line, "Página") || StartsWith(line, "Extrato")
  }

  /**
   * A row whose amount may carry a sign: the direction is 'D' exactly when
   * the amount starts with '-', the amount is read without its minus
   * signs, and the balance is 0.0; `None` when `float` raises.
   */
  function SignedRow(m: Metadata, data: string, documento: string, descricao: string, g: string): (r: Option<Row>)
    ensures r.Some? <==> Float(Drop(BrText(g), '-')).Some?
    ensures r.Some? ==> r.value == Entry(Accented, m, data, documento, descricao, Cents(Float(Drop(BrText(g), '-')).value), SignTipo(BrText(g)), Cents(0))
    ensures r.Some? ==> Sound(m, r.value)
  {
    var v := BrText(g);
    match Float(Drop(v, '-'))
    case None => None
    case Some(a) =>
      FloatNoMinus(Drop(v, '-'));
      Some(Entry(Accented, m, data, documento, descricao, Cents(a), SignTipo(v), Cents(0)))
  }

  /** The second layout's row: unaccented keys, the amount written with two decimals and a comma, and the balance '0,00'. */
  function CommaRow(m: Metadata, data: string, documento: string, descricao: string, g: string): (r: Option<Row>)
    ensures r.Some? <==> Float(Drop(BrText(g), '-')).Some?
    ensures r.Some? ==> r.value == Entry(Plain, m, data, documento, descricao, Comma(Float(Drop(BrText(g), '-')).value), SignTipo(BrText(g)), ZeroComma)
    ensures r.Some? ==> Sound(m, r.value)
  {
    var v := BrText(g);
    match Float(Drop(v, '-'))
    case None => None
    case Some(a) =>
      FloatNoMinus(Drop(v, '-'));
      CommaTwoDecimals(a);
      Some(Entry(Plain, m, data, documento, descricao, Comma(a), SignTipo(v), ZeroComma))
  }

  /** The outcome of a line that keeps the date: its row, or the exception. */
  function Keep(date: Option<string>, t: Option<Row>): (r: Option<(Option<string>, Option<Row>)>)
    ensures r.Some? <==> t.Some?
    ensures r.Some? ==> r.value == (date, t)
  {
    if t.None? then None else Some((date, t))
  }

  /** The words that make the third layout's line, and an undated line, no transaction. */
  const ShortWords: seq<string> := ["SALDO", "TOTAL", "EXTRATO", "PÁGINA"]
  const UndatedWords: seq<string> := ["SALDO", "TOTAL", "EXTRATO"]

  /**
   * One stripped line, given the current date: the new current date and
   * the row, if any; `None` when `float` raises. The layouts are tried in
   * order 1 to 6 and the first that matches consumes the line. Layout 1 is
   * `dd/mm description agency.account-digit amount`.
   */
  function Step(year: nat, m: Metadata, date: Option<string>, line: string): (r: Option<(Option<string>, Option<Row>)>)
    ensures Skipped(line) ==> r == Some((date, None))
    ensures !Skipped(line) && ReSearch(Generico.ItauLayout1, line).Some? ==>
      var x := ReSearch(Generico.ItauLayout1, line).value;
      r == Keep(date, SignedRow(m, Group(line, x, 1), Group(line, x, 3), Strip(Group(line, x, 2)), Group(line, x, 4)))
    ensures !Skipped(line) && ReSearch(Generico.ItauLayout1, line).None? ==> r == Numbered(year, m, date, line)
    ensures r.Some? && r.value.1.Some? ==> Sound(m, r.value.1.value)
  {
    if Skipped(line) then Some((date, None))
    else
      match ReSearch(Generico.ItauLayout1, line)
      case Some(x) => Keep(date, SignedRow(m, Group(line, x, 1), Group(line, x, 3), Strip(Group(line, x, 2)), Group(line, x, 4)))
      case None => Numbered(year, m, date, line)
  }

  /** Layout 2, `dd/mm description document amount`: the row with unaccented keys and comma-written amounts. */
  function Numbered(year: nat, m: Metadata, date: Option<string>, line: string): (r: Option<(Option<string>, Option<Row>)>)
    ensures ReSearch(Generico.ItauLayout2, line).Some? ==>
      var x := ReSearch(Generico.ItauLayout2, line).value;
      r == Keep(date, CommaRow(m, Group(line, x, 1), Group(line, x, 3), Strip(Group(line, x, 2)), Group(line, x, 4)))
    ensures ReSearch(Generico.ItauLayout2, line).None? ==> r == Short(year, m, date, line)
    ensures r.Some? && r.value.1.Some? ==> Sound(m, r.value.1.value)
  {
    match ReSearch(Generico.ItauLayout2, line)
    case Some(x) => Keep(date, CommaRow(m, Group(line, x, 1), Group(line, x, 3), Strip(Group(line, x, 2)), Group(line, x, 4)))
    case None => Short(year, m, date, line)
  }

  /** Layout 3, `dd/mm description amount`: a description shorter than five or naming a balance, a total, the statement or a page consumes the line and gives nothing. */
  function Short(year: nat, m: Metadata, date: Option<string>, line: string): (r: Option<(Option<string>, Option<Row>)>)
    ensures ReSearch(Generico.ItauLayout3, line).Some? ==>
      var x := ReSearch(Generico.ItauLayout3, line).value; var d := Strip(Group(line, x, 2));
      && (r.Some? ==> r.value.0 == date)
      && (|d| < 5 || ContainsAny(Upper(d), ShortWords) ==> r == Some((date, None)))
      && (r.Some? && r.value.1.Some? ==> r.value.1.value.data == Group(line, x, 1) && r.value.1.value.descricao == d)
    ensures ReSearch(Generico.ItauLayout3, line).None? ==> r == Full(year, m, date, line)
    ensures r.Some? && r.value.1.Some? ==> Sound(m, r.value.1.value)
  {
    match ReSearch(Generico.ItauLayout3, line)
    case Some(x) =>
      var d := Strip(Group(line, x, 2));
      if |d| < 5 || ContainsAny(Upper(d), ShortWords) then Some((date, None))
      else Keep(date, SignedRow(m, Group(line, x, 1), "", d, Group(line, x, 3)))
    case None => Full(year, m, date, line)
  }

  /** Layout 4, `dd/mm/yyyy description amount`: a description shorter than five consumes the line and gives nothing. */
  function Full(year: nat, m: Metadata, date: Option<string>, line: string): (r: Option<(Option<string>, Option<Row>)>)
    ensures ReSearch(Generico.ItauLayout4, line).Some? ==>
      var x := ReSearch(Generico.ItauLayout4, line).value; var d := Strip(Group(line, x, 2));
      && (r.Some? ==> r.value.0 == date)
      && (|d| < 5 ==> r == Some((date, None)))
      && (r.Some? && r.value.1.Some? ==> r.value.1.value.data == Group(line, x, 1) && r.value.1.value.descricao == d)
    ensures ReSearch(Generico.ItauLayout4, line).None? ==> r == Dated(year, m, date, line)
    ensures r.Some? && r.value.1.Some? ==> Sound(m, r.value.1.value)
  {
    match ReSearch(Generico.ItauLayout4, line)
    case Some(x) =>
      var d := Strip(Group(line, x, 2));
      if |d| < 5 then Some((date, None))
      else Keep(date, SignedRow(m, Group(line, x, 1), "", d, Group(line, x, 3)))
    case None => Dated(year, m, date, line)
  }

  /** A line starting with a full date that no layout took: it moves the current date and gives nothing. */
  function Dated(year: nat, m: Metadata, date: Option<string>, line: string): (r: Option<(Option<string>, Option<Row>)>)
    ensures ReSearch(Generico.DateOnlyRe, line).Some? ==> r == Some((Some(Group(line, ReSearch(Generico.DateOnlyRe, line).value, 1)), None))
    ensures ReSearch(Generico.DateOnlyRe, line).None? ==> r == Pix(year, m, date, line)
    ensures r.Some? && r.value.1.Some? ==> Sound(m, r.value.1.value)
  {
    match ReSearch(Generico.DateOnlyRe, line)
    case Some(x) => Some((Some(Group(line, x, 1)), None))
    case None => Pix(year, m, date, line)
  }

  /** Layout 5, `PIX QRS name dd/mm amount`: a credit dated with the clock's year, documented 'PIX'. */
  function Pix(year: nat, m: Metadata, date: Option<string>, line: string): (r: Option<(Option<string>, Option<Row>)>)
    ensures ReSearch(Generico.PixRe, line).Some? ==>
      var x := ReSearch(Generico.PixRe, line).value;
      && (r.Some? <==> BrFloat(Group(line, x, 3)).Some?)
      && (r.Some? ==> r.value.0 == date && r.value.1.Some? && r.value.1.value == Entry(Accented, m, Group(line, x, 2) + "/" + NatToString(year), "PIX",
            "PIX QRS " + Strip(Group(line, x, 1)), Cents(BrFloat(Group(line, x, 3)).value), "C", Cents(0)))
    ensures ReSearch(Generico.PixRe, line).None? ==> r == Undated(m, date, line)
    ensures r.Some? && r.value.1.Some? ==> Sound(m, r.value.1.value)
  {
    match ReSearch(Generico.PixRe, line)
    case Some(x) =>
      GenericoSound.PixUnsigned(line);
      PixRow(year, m, date, line, x)
    case None => Undated(m, date, line)
  }

  function PixRow(year: nat, m: Metadata, date: Option<string>, line: string, x: Match): (r: Option<(Option<string>, Option<Row>)>)
  {
    match BrFloat(Group(line, x, 3))
    case None => None
    case Some(v) => Some((date, Some(Entry(Accented, m, Group(line, x, 2) + "/" + NatToString(year), "PIX", "PIX QRS " + Strip(Group(line, x, 1)), Cents(v), "C", Cents(0)))))
  }

  /** `line.startswith(tuple('0123456789'))` */
  predicate DigitFirst(line: string)
  {
    |line| > 0 && IsDigit(line[0])
  }

  /**
   * Layout 6, `description amount`, only once a date is known: the row is
   * dated with the current date and needs a description longer than ten
   * before stripping, a line not starting with a digit, and a description
   * naming no balance, total or statement.
   */
  function Undated(m: Metadata, date: Option<string>, line: string): (r: Option<(Option<string>, Option<Row>)>)
    ensures r.Some? ==> r.value.0 == date
    ensures date.None? ==> r == Some((date, None))
    ensures r.Some? && r.value.1.Some? ==>
      && date.Some? && r.value.1.value.data == date.value && !DigitFirst(line) && ReSearch(UndatedRe, line).Some?
      && var x := ReSearch(UndatedRe, line).value;
      && |Group(line, x, 1)| > 10 && r.value.1.value.descricao == Strip(Group(line, x, 1))
      && !ContainsAny(Upper(Strip(Group(line, x, 1))), UndatedWords)
      && Sound(m, r.value.1.value)
  {
    if date.None? || date.value == "" then Some((date, None))
    else
      match ReSearch(UndatedRe, line)
      case Some(x) =>
        if |Group(line, x, 1)| > 10 && !DigitFirst(line) then
          var d := Strip(Group(line, x, 1));
          if ContainsAny(Upper(d), UndatedWords) then Some((date, None))
          else Keep(date, SignedRow(m, date.value, "", d, Group(line, x, 2)))
        else Some((date, None))
      case None => Some((date, None))
  }

  // ---------------------------------------------------------------------
  // The run.

  function Reader(year: nat): Reader<Option<string>, Row>
  {
    (m: Metadata) => (date: Option<string>, lines: seq<string>, i: nat) =>
      if i < |lines| then
        match Step(year, m, date, Strip(lines[i]))
        case None => None
        case Some((d, t)) => Some((d, Emit(t)))
      else Some((date, []))
  }

  /** `extract_itau_data`: the rows and the metadata, with no current date before the first page. */
  function Extract(doc: Document, year: nat): Run<Row>
  {
    Guarded(doc, Bank, Fill, Reader(year), None)
  }

  method ExtractItauData(doc: Document, year: nat) returns (r: Run<Row>)
    ensures r == Extract(doc, year)
  {
    r := RunGuarded(doc, Bank, Fill, Reader(year), None);
  }

  // ---------------------------------------------------------------------
  // What the rows satisfy.

  /**
   * A row of this script: the bank, code, branch and account of `m`, the
   * direction 'C' or 'D', and either (layout 2) unaccented keys, an amount
   * that is the two-decimal comma rendering of the non-negative number it
   * reads back as and the balance '0,00', or accented keys, a non-negative
   * amount and the balance 0.0.
   */
  predicate Sound(m: Metadata, t: Row)
  {
    && t.arquivo.None?
    && t.banco == m.banco && t.codigo == m.codigoBanco && t.agencia == m.agencia && t.conta == m.conta
    && (t.tipo == "C" || t.tipo == "D")
    && (t.spelling == Plain ==> TwoDecimals(t.valor) && BrFloat(t.valor.text).value >= 0 && t.saldo == ZeroComma)
    && (t.spelling == Accented ==> t.valor.Cents? && t.valor.value >= 0 && t.saldo == Cents(0))
  }

  lemma ReaderSound(year: nat, m: Metadata)
    ensures forall s: Option<string>, lines: seq<string>, i: nat, t: Row | i < |lines| && Reader(year)(m)(s, lines, i).Some? && t in Reader(year)(m)(s, lines, i).value.1 :: Sound(m, t)
  {
    forall s: Option<string>, lines: seq<string>, i: nat, t: Row | i < |lines| && Reader(year)(m)(s, lines, i).Some? && t in Reader(year)(m)(s, lines, i).value.1
      ensures Sound(m, t)
    {
      var r := Step(year, m, s, Strip(lines[i]));
      assert Reader(year)(m)(s, lines, i) == Some((r.value.0, Emit(r.value.1)));
      EmitOf(r.value.1, t);
    }
  }

  lemma ReaderOne(year: nat, m: Metadata)
    ensures forall s: Option<string>, lines: seq<string>, i: nat | i < |lines| && Reader(year)(m)(s, lines, i).Some? :: |Reader(year)(m)(s, lines, i).value.1| <= 1
  {
  }

  /**
   * Every row `extract_itau_data` returns is `Sound` for the metadata as
   * read from the first page, there is at most one row per line of text,
   * and only the branch, account and period differ from the defaults.
   */
  lemma ExtractSound(doc: Document, year: nat)
    ensures var r := Extract(doc, year);
      && (forall t | t in r.rows :: Sound(r.meta, t))
      && (doc.pages.Some? ==> |r.rows| <= Scan.SumOf(doc.pages.value, TextLines))
      && r.meta == Bank.(agencia := r.meta.agencia, conta := r.meta.conta, periodo := r.meta.periodo)
  {
    forall m: Metadata {
      ReaderSound(year, m);
    }
    GuardedAll(doc, Bank, Fill, Reader(year), None, Sound);
    if doc.pages.Some? {
      forall m: Metadata {
        ReaderOne(year, m);
      }
      GuardedBound(doc, Bank, Fill, Reader(year), None);
    }
  }

  /**
   * A line that starts with a full date but fits none of the first four
   * layouts only moves the current date; before any date is known, no
   * undated line gives a row.
   */
  lemma DateOnlyMoves(year: nat, m: Metadata, date: Option<string>, line: string)
    requires !Skipped(line)
    requires ReSearch(Generico.ItauLayout1, line).None? && ReSearch(Generico.ItauLayout2, line).None?
    requires ReSearch(Generico.ItauLayout3, line).None? && ReSearch(Generico.ItauLayout4, line).None?
    ensures ReSearch(Generico.DateOnlyRe, line).Some? ==>
      Step(year, m, date, line) == Some((Some(Group(line, ReSearch(Generico.DateOnlyRe, line).value, 1)), None))
    ensures ReSearch(Generico.DateOnlyRe, line).None? && ReSearch(Generico.PixRe, line).None? && date.None? ==>
      Step(year, m, date, line) == Some((None, None))
  {
  }
}
