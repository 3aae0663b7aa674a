/**
 * `ScriptBradesco`: `extract_bradesco_data` of the standalone Bradesco
 * script. A line 'document amount balance' is a credit described by the
 * lines above it and stamped with the current date, or with 01/01/2024
 * before the first date; a line with a full date and no amount moves the
 * current date, which carries from page to page. There is no per-line
 * `try`, so an amount `float` refuses ends the whole run.
 */
module ScriptBradesco {
  import opened Wrappers
  import opened Text
  import opened Numbers
  import opened Regex
  import opened Patterns
  import opened Pdf
  import opened Scripts
  import Scan
  import Generico
  import GenericoSound

  const Bank: Metadata := Defaults("Banco Bradesco S/A", "237")

  /** `Ag:\s*(\d+)\s*\|\s*CC:\s*(\d+-\d+)` */
  const AgCcRe: Re := Cats([Lit("Ag:"), Star(Space), Grp(1, Plus(Digit)), Star(Space), Lit("|"), Star(Space), Lit("CC:"), Star(Space), Grp(2, Generico.DashNumber)])

  /**
   * The first page's branch and account, both from one match, and its
   * period (`"<start> a <end>"`); a pattern that is absent leaves its
   * fields as they were, and nothing else changes.
   */
  function Fill(m: Metadata, text: string): (r: Metadata)
    ensures r == m.(agencia := r.agencia, conta := r.conta, periodo := r.periodo)
    ensures ReSearch(AgCcRe, text).None? ==> r.agencia == m.agencia && r.conta == m.conta
    ensures ReSearch(AgCcRe, text).Some? ==>
      r.agencia == Group(text, ReSearch(AgCcRe, text).value, 1) && r.conta == Group(text, ReSearch(AgCcRe, text).value, 2)
    ensures ReSearch(Generico.BradescoPeriodRe, text).None? ==> r.periodo == m.periodo
  {
    var m1 := match ReSearch(AgCcRe, text)
      case Some(x) => m.(agencia := Group(text, x, 1), conta := Group(text, x, 2))
      case None => m;
    m1.(periodo := Generico.Between(Generico.BradescoPeriodRe, text).GetOr(m.periodo))
  }

  // ---------------------------------------------------------------------
  // `concatenate_description_lines`

  /** The description when no line above qualifies. */
  const Fallback: string := "DEP ETV DINHEIRO"

  /**
   * `concatenate_description_lines(lines, start)`: the stripped lines
   * walking back from `start`, at most three, up to the first that is an
   * amount, holds a full date, is only digits, or is shorter than three,
   * joined by spaces in the page's order; the fallback text when there is
   * none. The walk is the generic extractor's; only the fallback differs.
   */
  function Description(lines: seq<string>, start: int): string
    requires start < |lines|
  {
    var ps := Generico.Back(lines, start, 3, Strip, Generico.Stops);
    if |ps| > 0 then Join(" ", ps) else Fallback
  }

  /**
   * The fallback is used exactly when the walk stops at once (the page
   * starts, or the line at `start` stops it); otherwise the description
   * joins one to three stripped lines, the last of them the line at
   * `start` (what else the walk keeps is `Generico.BackShape`).
   */
  lemma DescriptionShape(lines: seq<string>, start: int)
    requires start < |lines|
    ensures start < 0 || Generico.Stops(Strip(lines[start])) ==> Description(lines, start) == Fallback
    ensures start >= 0 && !Generico.Stops(Strip(lines[start])) ==>
      var ps := Generico.Back(lines, start, 3, Strip, Generico.Stops);
      && 1 <= |ps| <= 3 && ps[|ps| - 1] == Strip(lines[start])
      && Description(lines, start) == Join(" ", ps)
  {
    if start >= 0 && !Generico.Stops(Strip(lines[start])) {
      var ps := Generico.Back(lines, start, 3, Strip, Generico.Stops);
      var qs := Generico.Back(lines, start - 1, 2, Strip, Generico.Stops);
      Generico.BackShape(lines, start - 1, 2, Strip, Generico.Stops);
      assert ps == qs + [Strip(lines[start])];
    }
  }

  /**
   * This script and the generic extractor walk back alike: where the walk
   * finds lines they give the same description, and where it finds none
   * each gives its own fallback.
   */
  lemma SharedWalk(lines: seq<string>, start: int)
    requires start < |lines|
    ensures start >= 0 && !Generico.Stops(Strip(lines[start])) ==> Description(lines, start) == Generico.Description(lines, start)
    ensures start < 0 || Generico.Stops(Strip(lines[start])) ==>
      Description(lines, start) == Fallback && Generico.Description(lines, start) == Generico.DefaultDescription
  {
    Generico.BackShape(lines, start, 3, Strip, Generico.Stops);
  }

  method ConcatenateDescriptionLines(lines: seq<string>, start: int) returns (d: string)
    requires start < |lines|
    ensures d == Description(lines, start)
  {
    var parts := Generico.BackLoop(lines, start, 3, Strip, Generico.Stops);
    d := if |parts| > 0 then Join(" ", parts) else Fallback;
  }

  // ---------------------------------------------------------------------
  // The line loop.

  /**
   * A row of this script: accented keys, the bank, code, branch and account
   * of `m`, the direction 'C', and amount and balance that are non-negative
   * numbers.
   */
  predicate Sound(m: Metadata, t: Row)
  {
    && t.spelling == Accented && t.arquivo.None?
    && t.banco == m.banco && t.codigo == m.codigoBanco && t.agencia == m.agencia && t.conta == m.conta
    && t.tipo == "C"
    && t.valor.Cents? && t.valor.value >= 0 && t.saldo.Cents? && t.saldo.value >= 0
  }

  /**
   * The credit of a 'document amount balance' match on line `i`, described
   * by the lines above it and dated `date`; `None` when `float` raises on
   * either number.
   */
  function Credit(m: Metadata, date: string, lines: seq<string>, i: nat, line: string, x: Match): (r: Option<Row>)
    requires i < |lines|
    ensures r.Some? <==> BrFloat(Group(line, x, 2)).Some? && BrFloat(Group(line, x, 3)).Some?
    ensures r.Some? ==> r.value == Entry(Accented, m, date, Group(line, x, 1), Description(lines, i - 1),
      Cents(BrFloat(Group(line, x, 2)).value), "C", Cents(BrFloat(Group(line, x, 3)).value))
  {
    match (BrFloat(Group(line, x, 2)), BrFloat(Group(line, x, 3)))
    case (Some(v), Some(b)) => Some(Entry(Accented, m, date, Group(line, x, 1), Description(lines, i - 1), Cents(v), "C", Cents(b)))
    case _ => None
  }

  /**
   * Line `i` of a page, stripped, given the current date: the new current
   * date and the row, if any; `None` when `float` raises. A transaction
   * line is tried first and keeps the date; otherwise a line with a full
   * date and no amount moves the date to it.
   */
  function Step(m: Metadata, date: Option<string>, lines: seq<string>, i: nat): (r: Option<(Option<string>, Option<Row>)>)
    requires i < |lines|
    ensures var line := Strip(lines[i]);
      && (|line| == 0 ==> r == Some((date, None)))
      && (r.None? ==> ReSearch(Generico.BradescoTxnRe, line).Some?)
      && (r.Some? && r.value.1.Some? ==>
        && r.value.0 == date && ReSearch(Generico.BradescoTxnRe, line).Some?
        && r.value.1.value.data == date.GetOr(Generico.DefaultDate)
        && r.value.1.value.documento == Group(line, ReSearch(Generico.BradescoTxnRe, line).value, 1)
        && r.value.1.value.descricao == Description(lines, i - 1)
        && Sound(m, r.value.1.value))
      && (r.Some? && r.value.0 != date ==>
        && r.value.1.None? && ReSearch(Generico.BradescoTxnRe, line).None? && ReSearch(Generico.CentsRe, line).None?
        && ReSearch(Generico.DateRe, line).Some? && r.value.0 == Some(Group(line, ReSearch(Generico.DateRe, line).value, 1)))
  {
    var line := Strip(lines[i]);
    if |line| == 0 then Some((date, None))
    else
      match ReSearch(Generico.BradescoTxnRe, line)
      case Some(x) =>
        var t := Credit(m, date.GetOr(Generico.DefaultDate), lines, i, line, x);
        GenericoSound.BradescoUnsigned(line);
        if t.None? then None else Some((date, t))
      case None =>
        var d := ReSearch(Generico.DateRe, line);
        if d.Some? && ReSearch(Generico.CentsRe, line).None? then Some((Some(Group(line, d.value, 1)), None))
        else Some((date, None))
  }

  function Reader(m: Metadata): LineRead<Option<string>, Row>
  {
    (date: Option<string>, lines: seq<string>, i: nat) =>
      if i < |lines| then
        match Step(m, date, lines, i)
        case None => None
        case Some((d, t)) => Some((d, Emit(t)))
      else Some((date, []))
  }

  /** `extract_bradesco_data`: the rows and the metadata, with no current date before the first page. */
  function Extract(doc: Document): Run<Row>
  {
    Guarded(doc, Bank, Fill, Reader, None)
  }

  method ExtractBradescoData(doc: Document) returns (r: Run<Row>)
    ensures r == Extract(doc)
  {
    r := RunGuarded(doc, Bank, Fill, Reader, None);
  }

  /**
   * Every row `extract_bradesco_data` returns is `Sound` for the metadata
   * as read from the first page, there is at most one row per line of
   * text, and only the branch, account and period differ from the
   * defaults.
   */
  lemma ExtractSound(doc: Document)
    ensures var r := Extract(doc);
      && (forall t | t in r.rows :: Sound(r.meta, t))
      && (doc.pages.Some? ==> |r.rows| <= Scan.SumOf(doc.pages.value, TextLines))
      && r.meta == Bank.(agencia := r.meta.agencia, conta := r.meta.conta, periodo := r.meta.periodo)
  {
    forall m: Metadata {
      ReaderSound(m);
    }
    GuardedAll(doc, Bank, Fill, Reader, None, Sound);
    if doc.pages.Some? {
      forall m: Metadata {
        ReaderOne(m);
      }
      GuardedBound(doc, Bank, Fill, Reader, None);
    }
  }

  /** Every row a line gives is `Sound`. */
  lemma ReaderSound(m: Metadata)
    ensures forall s: Option<string>, lines: seq<string>, i: nat, t: Row | i < |lines| && Reader(m)(s, lines, i).Some? && t in Reader(m)(s, lines, i).value.1 :: Sound(m, t)
  {
    forall s: Option<string>, lines: seq<string>, i: nat, t: Row | i < |lines| && Reader(m)(s, lines, i).Some? && t in Reader(m)(s, lines, i).value.1
      ensures Sound(m, t)
    {
      var r := Step(m, s, lines, i);
      assert Reader(m)(s, lines, i) == Some((r.value.0, Emit(r.value.1)));
      EmitOf(r.value.1, t);
    }
  }

  /** A line gives at most one row. */
  lemma ReaderOne(m: Metadata)
    ensures forall s: Option<string>, lines: seq<string>, i: nat | i < |lines| && Reader(m)(s, lines, i).Some? :: |Reader(m)(s, lines, i).value.1| <= 1
  {
  }
}
