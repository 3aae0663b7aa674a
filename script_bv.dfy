/**
 * `ScriptBv`: `extract_bv_data` of the standalone Banco BV script. Each
 * page's lines are first joined where a dated line's description broke
 * onto the next line (`concatenate_broken_lines`); then a "Saldo do dia"
 * line or a line starting with a date sets the current date, and an
 * undated line is read against that date. There is no per-line `try`: an
 * amount `float` refuses ends the whole run.
 */
module ScriptBv {
  import opened Wrappers
  import opened Text
  import opened Numbers
  import opened Regex
  import opened Patterns
  import opened Pdf
  import opened Scripts
  import Scan
  import Generico
  import GenericoSound

  const Bank: Metadata := Defaults("Banco BV", "655")

  /** The first page's account and period (`"<start> a <end>"`), each where its pattern is found; nothing else changes. */
  function Fill(m: Metadata, text: string): (r: Metadata)
    ensures r == m.(conta := r.conta, periodo := r.periodo)
    ensures ReSearch(Generico.BvAccountRe, text).None? ==> r.conta == m.conta
    ensures ReSearch(Generico.BvPeriodRe, text).None? ==> r.periodo == m.periodo
  {
    m.(conta := Generico.First(Generico.BvAccountRe, text).GetOr(m.conta),
       periodo := Generico.Between(Generico.BvPeriodRe, text).GetOr(m.periodo))
  }

  // ---------------------------------------------------------------------
  // Joining broken lines.

  /** `[\d.,]+$` */
  const TailAmountRe: Re := Cats([BrAmount, Eol])

  /**
   * The stripped line `i` holds a full date and the next line continues
   * it: the next line is non-empty, undated, does not end in a number and
   * does not start with `Página`.
   */
  predicate Absorbs(lines: seq<string>, i: nat)
    requires i < |lines|
  {
    ReSearch(FullDate, Strip(lines[i])).Some? && i + 1 < |lines| && Continues(Strip(lines[i + 1]))
  }

  /** A stripped line that continues a dated line: non-empty, undated, not ending in a number, not starting with `Página`. */
  predicate Continues(next: string)
  {
    |next| > 0 && ReSearch(FullDate, next).None? && ReSearch(TailAmountRe, next).None? && !StartsWith(next, "Página")
  }

  /** How many of the `n` input lines the output line starting at `i` uses, where `glue` says which lines absorb the next. */
  function Width(n: nat, glue: nat -> bool, i: nat): (w: nat)
    ensures w == 1 || w == 2
    ensures i < n ==> i + w <= n
  {
    if glue(i) && i + 1 < n then 2 else 1
  }

  /**
   * Where each output line from input line `i` on starts, of `n` input
   * lines of which `keep` says which are not empty: at a kept line, in
   * increasing order, each past the lines the previous one used, so no
   * input line is used by two output lines.
   */
  function Starts(n: nat, keep: nat -> bool, glue: nat -> bool, i: nat): (r: seq<nat>)
    requires i <= n
    ensures |r| <= n - i
    ensures forall k | 0 <= k < |r| :: i <= r[k] < n && keep(r[k])
    ensures forall k, l | 0 <= k < l < |r| :: r[k] + Width(n, glue, r[k]) <= r[l]
    decreases n - i
  {
    if i == n then []
    else if !keep(i) then Starts(n, keep, glue, i + 1)
    else [i] + Starts(n, keep, glue, i + Width(n, glue, i))
  }

  /** The loop of `concatenate_broken_lines` from input line `i` on, `join` giving the output line that starts at a line. */
  function JoinedFrom(n: nat, keep: nat -> bool, glue: nat -> bool, join: nat -> string, i: nat): (r: seq<string>)
    requires i <= n
    ensures |r| == |Starts(n, keep, glue, i)|
    ensures forall k | 0 <= k < |r| :: r[k] == join(Starts(n, keep, glue, i)[k])
    decreases n - i
  {
    if i == n then []
    else if !keep(i) then JoinedFrom(n, keep, glue, join, i + 1)
    else [join(i)] + JoinedFrom(n, keep, glue, join, i + Width(n, glue, i))
  }

  /** Only the lines `keep` refuses are dropped: every kept input line is used by some output line, the `k`-th. */
  lemma {:induction false} Covered(n: nat, keep: nat -> bool, glue: nat -> bool, i: nat, j: nat) returns (k: nat)
    requires i <= j < n && keep(j)
    ensures k < |Starts(n, keep, glue, i)|
    ensures Starts(n, keep, glue, i)[k] <= j < Starts(n, keep, glue, i)[k] + Width(n, glue, Starts(n, keep, glue, i)[k])
    decreases n - i
  {
    var w := Width(n, glue, i);
    if !keep(i) {
      k := Covered(n, keep, glue, i + 1, j);
    } else if j < i + w {
      k := 0;
    } else {
      var l := Covered(n, keep, glue, i + w, j);
      k := l + 1;
    }
  }

  /** The lines that are not empty once stripped. */
  function Kept(lines: seq<string>): nat -> bool
  {
    (i: nat) => i < |lines| && |Strip(lines[i])| > 0
  }

  /** The lines that absorb the next one. */
  function Glue(lines: seq<string>): nat -> bool
  {
    (i: nat) => i < |lines| && Absorbs(lines, i)
  }

  /** The output line starting at input line `i`: the stripped line, with the next one after a space when it is absorbed. */
  function Joined(lines: seq<string>, i: nat): (r: string)
    requires i < |lines|
    ensures |r| >= |Strip(lines[i])|
  {
    if Width(|lines|, Glue(lines), i) == 2 then Strip(lines[i]) + " " + Strip(lines[i + 1]) else Strip(lines[i])
  }

  function Joiner(lines: seq<string>): nat -> string
  {
    (i: nat) => if i < |lines| then Joined(lines, i) else ""
  }

  /**
   * `concatenate_broken_lines`: no more lines than the input, none of them
   * empty, the `k`-th the join of the lines starting at the `k`-th start.
   */
  function Concatenated(lines: seq<string>): (r: seq<string>)
    ensures |r| <= |lines|
    ensures forall k | 0 <= k < |r| :: |r[k]| > 0
  {
    var r := JoinedFrom(|lines|, Kept(lines), Glue(lines), Joiner(lines), 0);
    forall k | 0 <= k < |r|
      ensures |r[k]| > 0
    {
      var at := Starts(|lines|, Kept(lines), Glue(lines), 0)[k];
      assert Kept(lines)(at);
    }
    r
  }

  /** `concatenate_broken_lines` as its `while` loop. */
  method ConcatenateBrokenLines(lines: seq<string>) returns (out: seq<string>)
    ensures out == Concatenated(lines)
  {
    out := [];
    var i := 0;
    while i < |lines|
      invariant 0 <= i <= |lines|
      invariant out + JoinedFrom(|lines|, Kept(lines), Glue(lines), Joiner(lines), i) == Concatenated(lines)
      decreases |lines| - i
    {
      var line := Strip(lines[i]);
      if |line| == 0 {
        i := i + 1;
        continue;
      }
      var start := i;
      if ReSearch(FullDate, line).Some? && i + 1 < |lines| {
        var next := Strip(lines[i + 1]);
        if Continues(next) {
          line := line + " " + next;
          i := i + 1;
        }
      }
      assert Glue(lines)(start) <==> Absorbs(lines, start);
      JoinTurn(lines, start, out, line, i + 1);
      out := out + [line];
      i := i + 1;
    }
  }

  /** One turn of the loop: at a kept line it appends that line's join and continues after the lines the join used. */
  lemma JoinStep(n: nat, keep: nat -> bool, glue: nat -> bool, join: nat -> string, start: nat, out: seq<string>, next: nat)
    requires start < n && keep(start)
    requires next == start + Width(n, glue, start)
    ensures out + [join(start)] + JoinedFrom(n, keep, glue, join, next) == out + JoinedFrom(n, keep, glue, join, start)
  {
    var rest := JoinedFrom(n, keep, glue, join, next);
    assert JoinedFrom(n, keep, glue, join, start) == [join(start)] + rest;
    assert out + [join(start)] + rest == out + ([join(start)] + rest);
  }

  /** The turn of the loop at the non-empty line `start`, which appends `line`. */
  lemma JoinTurn(lines: seq<string>, start: nat, out: seq<string>, line: string, next: nat)
    requires start < |lines| && |Strip(lines[start])| > 0
    requires next == start + Width(|lines|, Glue(lines), start)
    requires line == Joined(lines, start)
    ensures out + [line] + JoinedFrom(|lines|, Kept(lines), Glue(lines), Joiner(lines), next)
      == out + JoinedFrom(|lines|, Kept(lines), Glue(lines), Joiner(lines), start)
  {
    var keep, join := Kept(lines), Joiner(lines);
    assert keep(start) && join(start) == line;
    JoinStep(|lines|, keep, Glue(lines), join, start, out, next);
  }

  // ---------------------------------------------------------------------
  // Reading the joined lines.

  /** `(\d{2}/\d{2}/\d{4})\s+Saldo do dia\s+([\d.,]+)` */
  const SaldoWord := "Saldo do dia"
  const SaldoParts := [Grp(1, FullDate), Spaces, Lit(SaldoWord), Spaces, Grp(2, BrAmount)]
  const SaldoRe: Re := Cats(SaldoParts)

  /** `^(\d{2}/\d{2}/\d{4})` */
  const DateStartRe: Re := Cats([Bol, Grp(1, FullDate)])

  /** `[+-]?\s*[\d.,]+` */
  const SignedAmount: Re := Cats([Opt(Chr(Among("+-"))), Star(Space), BrAmount])

  /** `^(.+?)\s+(\d+)\s+([+-]?\s*[\d.,]+)$` */
  const DocRe: Re := Cats([Bol, Grp(1, LazyAny), Spaces, Grp(2, Plus(Digit)), Spaces, Grp(3, SignedAmount), Eol])

  /** `^(.+?)\s+([+-]?\s*[\d.,]+)$` */
  const SimpleRe: Re := Cats([Bol, Grp(1, LazyAny), Spaces, Grp(2, SignedAmount), Eol])

  /** `valor_str`: the amount without spaces and dots, with a decimal point for the comma. */
  function Cleaned(amount: string): string
  {
    BrText(Drop(amount, ' '))
  }

  /**
   * The row of an undated transaction: a debit exactly when the cleaned
   * amount starts with '-', and the amount `float` reads once every '-'
   * is gone; `None` when `float` raises.
   */
  function SignedRow(m: Metadata, d: string, descricao: string, documento: string, amount: string): (r: Option<Row>)
    ensures r.Some? <==> Float(Drop(Cleaned(amount), '-')).Some?
    ensures r.Some? ==> r.value == Entry(Accented, m, d, documento, descricao, r.value.valor, r.value.tipo, Cents(0))
    ensures r.Some? ==> (r.value.tipo == "D" <==> StartsWith(Cleaned(amount), "-")) && (r.value.tipo == "D" || r.value.tipo == "C")
    ensures r.Some? ==> r.value.valor.Cents? && r.value.valor.value >= 0 && r.value.saldo == Cents(0)
  {
    var v := Cleaned(amount);
    var tipo := if StartsWith(v, "-") then "D" else "C";
    match Float(Drop(v, '-'))
    case None => None
    case Some(c) =>
      FloatNoMinus(Drop(v, '-'));
      Some(Entry(Accented, m, d, documento, descricao, Cents(c), tipo, Cents(0)))
  }

  /**
   * An undated line, once the date is `d`: with a document number, or
   * without one (then a description longer than five characters without
   * `Página`). The outer `None` is the exception of an amount `float`
   * refuses, which happens before the description is looked at.
   */
  function Undated(m: Metadata, d: string, line: string): (r: Option<Option<Row>>)
    ensures r.Some? && r.value.Some? ==> r.value.value.data == d && Sound(m, r.value.value)
    ensures r.Some? && r.value.Some? && ReSearch(DocRe, line).None? ==>
      |r.value.value.descricao| > 5 && !Contains(r.value.value.descricao, "Página") && r.value.value.documento == ""
  {
    match ReSearch(DocRe, line)
    case Some(x) =>
      var t := SignedRow(m, d, Strip(Group(line, x, 1)), Group(line, x, 2), Group(line, x, 3));
      if t.None? then None else Some(t)
    case None =>
      match ReSearch(SimpleRe, line)
      case None => Some(None)
      case Some(x) =>
        if IsDigits(line) then Some(None)
        else
          var descricao := Strip(Group(line, x, 1));
          var t := SignedRow(m, d, descricao, "", Group(line, x, 2));
          if t.None? then None
          else if |descricao| > 5 && !Contains(descricao, "Página") then Some(t)
          else Some(None)
  }

  /** The "Saldo do dia" row of date `d`: a credit whose balance is its amount; `None` when `float` raises. */
  function Balance(m: Metadata, d: string, amount: string): (r: Option<Row>)
    ensures r.Some? <==> BrFloat(amount).Some?
    ensures r.Some? ==> r.value.data == d && r.value.tipo == "C" && r.value.saldo == r.value.valor && r.value.descricao == "Saldo do dia"
    ensures '-' !in amount && r.Some? ==> Sound(m, r.value)
  {
    BrFloatUnsigned(amount);
    var v := BrFloat(amount);
    if v.None? then None
    else Some(Entry(Accented, m, d, "", "Saldo do dia", Cents(v.value), "C", Cents(v.value)))
  }

  /** The lines the loop passes over. */
  predicate Skipped(line: string)
  {
    |line| == 0 || StartsWith(line, "Página") || StartsWith(line, "Extrato")
  }

  /**
   * One stripped line, given the current date: the new current date and
   * the row, if any; `None` when `float` raises.
   */
  function Step(m: Metadata, date: Option<string>, line: string): (r: Option<(Option<string>, Option<Row>)>)
    ensures Skipped(line) ==> r == Some((date, None))
    ensures r.Some? && r.value.1.Some? ==> r.value.0.Some? && r.value.1.value.data == r.value.0.value
    ensures r.Some? && r.value.0 != date ==> ReSearch(SaldoRe, line).Some? || ReSearch(DateStartRe, line).Some?
    ensures date.None? && r.Some? && r.value.1.Some? ==> ReSearch(SaldoRe, line).Some?
    ensures !Skipped(line) && ReSearch(SaldoRe, line).None? && ReSearch(DateStartRe, line).Some? ==>
      r == Some((Some(Group(line, ReSearch(DateStartRe, line).value, 1)), None))
    ensures r.Some? && r.value.1.Some? ==> Sound(m, r.value.1.value)
  {
    if Skipped(line) then Some((date, None))
    else
      match ReSearch(SaldoRe, line)
      case Some(x) =>
        SaldoUnsigned(line);
        var d := Group(line, x, 1);
        var t := Balance(m, d, Group(line, x, 2));
        if t.None? then None else Some((Some(d), t))
      case None =>
        match ReSearch(DateStartRe, line)
        case Some(x) => Some((Some(Group(line, x, 1)), None))
        case None =>
          if date.None? then Some((date, None))
          else
            match Undated(m, date.value, line)
            case None => None
            case Some(t) => Some((date, t))
  }

  function Reader(m: Metadata): LineRead<Option<string>, Row>
  {
    (date: Option<string>, lines: seq<string>, i: nat) =>
      if i < |lines| then
        match Step(m, date, Strip(lines[i]))
        case None => None
        case Some((d, t)) => Some((d, Emit(t)))
      else Some((date, []))
  }

  /** One page: a text that raises stops the run, a page without text is skipped, otherwise its joined lines in order. */
  function PageRows(m: Metadata, date: Option<string>, p: Page): Option<(Option<string>, seq<Row>)>
  {
    if p.text.Raises? then None
    else if !HasText(p.text) then Some((date, []))
    else
      var lines := Concatenated(PageLines(p.text));
      Scan.TryFold(date, Generico.Indices(|lines|), LineAt(Reader(m), lines))
  }

  function PageFn(m: Metadata): (Option<string>, Page) -> Option<(Option<string>, seq<Row>)>
  {
    (date: Option<string>, p: Page) => PageRows(m, date, p)
  }

  /** Every page in order, with no current date before the first. */
  function Pass(m: Metadata, pages: seq<Page>): Option<(Option<string>, seq<Row>)>
  {
    Scan.TryFold(None, pages, PageFn(m))
  }

  /** `extract_bv_data`: the rows and the metadata; `([], metadata)` once an exception is raised. */
  function Extract(doc: Document): (r: Run<Row>)
    ensures r.raised ==> r.rows == []
  {
    if doc.pages.None? then Run([], Bank, true)
    else
      match FirstPageMeta(Bank, doc.pages.value, Fill)
      case None => Run([], Bank, true)
      case Some(m) =>
        match Pass(m, doc.pages.value)
        case None => Run([], m, true)
        case Some((_, rows)) => Run(rows, m, false)
  }

  method ReadPage(m: Metadata, date: Option<string>, p: Page) returns (r: Option<(Option<string>, seq<Row>)>)
    ensures r == PageRows(m, date, p)
  {
    if p.text.Raises? {
      return None;
    }
    if !HasText(p.text) {
      return Some((date, []));
    }
    var lines := ConcatenateBrokenLines(PageLines(p.text));
    r := Scan.TryFoldLoop(date, Generico.Indices(|lines|), LineAt(Reader(m), lines));
  }

  /** The page loop, with the current date carried from one page to the next. */
  method ReadPages(m: Metadata, pages: seq<Page>) returns (r: Option<(Option<string>, seq<Row>)>)
    ensures r == Pass(m, pages)
  {
    var date: Option<string> := None;
    var rows: seq<Row> := [];
    var k := 0;
    while k < |pages|
      invariant 0 <= k <= |pages|
      invariant Scan.TryFold(None, pages[..k], PageFn(m)) == Some((date, rows))
    {
      assert pages[..k + 1][..k] == pages[..k];
      var page := ReadPage(m, date, pages[k]);
      if page.None? {
        Scan.TryFoldStops(None, pages, PageFn(m), k);
        return None;
      }
      date, rows := page.value.0, rows + page.value.1;
      k := k + 1;
    }
    assert pages[..k] == pages;
    r := Some((date, rows));
  }

  method ExtractBvData(doc: Document) returns (r: Run<Row>)
    ensures r == Extract(doc)
  {
    if doc.pages.None? {
      return Run([], Bank, true);
    }
    var pages := doc.pages.value;
    var first := FirstPageMeta(Bank, pages, Fill);
    if first.None? {
      return Run([], Bank, true);
    }
    var metadata := first.value;
    var out := ReadPages(metadata, pages);
    if out.None? {
      return Run([], metadata, true);
    }
    r := Run(out.value.1, metadata, false);
  }

  // ---------------------------------------------------------------------
  // What the rows satisfy.

  /**
   * A row of this script: accented keys, the bank, code, branch and
   * account of `m`, direction C or D, a non-negative amount, and a balance
   * of 0.0 except on a "Saldo do dia" credit, whose balance is its amount.
   */
  predicate Sound(m: Metadata, t: Row)
  {
    && t.spelling == Accented && t.arquivo.None?
    && t.banco == m.banco && t.codigo == m.codigoBanco && t.agencia == m.agencia && t.conta == m.conta
    && (t.tipo == "C" || t.tipo == "D")
    && t.valor.Cents? && t.valor.value >= 0
    && (t.saldo == Cents(0) || (t.descricao == "Saldo do dia" && t.tipo == "C" && t.saldo == t.valor))
  }

  lemma WordWithin()
    ensures GroupWithin(Lit(SaldoWord), 2, AmountClass)
  {
    LitGroupWithin(SaldoWord, 2, AmountClass);
  }

  lemma DatedWithin(w: Re)
    requires GroupWithin(w, 2, AmountClass)
    ensures GroupWithin(Cats([Grp(1, FullDate), Spaces, w, Spaces, Grp(2, BrAmount)]), 2, AmountClass)
  {
    PiecesWithin();
    GenericoSound.DateNoGroups(2, AmountClass);
    CatsGroupWithin([Grp(1, FullDate), Spaces, w, Spaces, Grp(2, BrAmount)], 2, AmountClass);
  }

  lemma SaldoWithin()
    ensures GroupWithin(SaldoRe, 2, AmountClass)
  {
    WordWithin();
    DatedWithin(Lit(SaldoWord));
  }

  /** The amount of a "Saldo do dia" line has no minus sign. */
  lemma SaldoUnsigned(line: string)
    ensures ReSearch(SaldoRe, line).Some? ==> '-' !in Group(line, ReSearch(SaldoRe, line).value, 2)
  {
    SaldoWithin();
    SearchAmountUnsigned(SaldoRe, line, 2);
  }

  lemma BrFloatUnsigned(t: string)
    ensures '-' !in t && BrFloat(t).Some? ==> BrFloat(t).value >= 0
  {
    if '-' !in t {
      FloatNoMinus(BrText(t));
    }
  }

  lemma ReaderSound(m: Metadata)
    ensures forall s: Option<string>, lines: seq<string>, i: nat, t: Row | i < |lines| && Reader(m)(s, lines, i).Some? && t in Reader(m)(s, lines, i).value.1 :: Sound(m, t)
  {
    forall s: Option<string>, lines: seq<string>, i: nat, t: Row | i < |lines| && Reader(m)(s, lines, i).Some? && t in Reader(m)(s, lines, i).value.1
      ensures Sound(m, t)
    {
      var r := Step(m, s, Strip(lines[i]));
      assert Reader(m)(s, lines, i) == Some((r.value.0, Emit(r.value.1)));
      EmitOf(r.value.1, t);
    }
  }

  /** Every row of the pass is `Sound`. */
  lemma PassSound(m: Metadata, pages: seq<Page>)
    ensures Pass(m, pages).Some? ==> forall t | t in Pass(m, pages).value.1 :: Sound(m, t)
  {
    ReaderSound(m);
    var ok := (t: Row) => Sound(m, t);
    forall s: Option<string>, p: Page, t: Row | PageFn(m)(s, p).Some? && t in PageFn(m)(s, p).value.1
      ensures ok(t)
    {
      var lines := Concatenated(PageLines(p.text));
      Scan.TryFoldAll(s, Generico.Indices(|lines|), LineAt(Reader(m), lines), ok);
    }
    Scan.TryFoldAll(None, pages, PageFn(m), ok);
  }

  /** Joining never adds lines and a line emits at most one row, so there is at most one row per line of text. */
  lemma PassBound(m: Metadata, pages: seq<Page>)
    ensures Pass(m, pages).Some? ==> |Pass(m, pages).value.1| <= Scan.SumOf(pages, TextLines)
  {
    forall s: Option<string>, p: Page | PageFn(m)(s, p).Some?
      ensures |PageFn(m)(s, p).value.1| <= TextLines(p)
    {
      PageBound(m, s, p);
    }
    Scan.TryFoldBound(None, pages, PageFn(m), TextLines);
  }

  /** A page emits at most one row per joined line, so at most one per line of its text. */
  lemma PageBound(m: Metadata, s: Option<string>, p: Page)
    ensures PageRows(m, s, p).Some? ==> |PageRows(m, s, p).value.1| <= TextLines(p)
  {
    if HasText(p.text) {
      ReaderOne(m);
      LinesBound(Reader(m), s, Concatenated(PageLines(p.text)));
    }
  }

  lemma ReaderOne(m: Metadata)
    ensures forall s: Option<string>, lines: seq<string>, i: nat | i < |lines| && Reader(m)(s, lines, i).Some? :: |Reader(m)(s, lines, i).value.1| <= 1
  {
  }

  /** A line loop whose lines emit at most one row each emits at most one row per line. */
  lemma LinesBound<S, T>(read: LineRead<S, T>, s: S, lines: seq<string>)
    requires forall s: S, lines: seq<string>, i: nat | i < |lines| && read(s, lines, i).Some? :: |read(s, lines, i).value.1| <= 1
    ensures Scan.TryFold(s, Generico.Indices(|lines|), LineAt(read, lines)).Some? ==> |Scan.TryFold(s, Generico.Indices(|lines|), LineAt(read, lines)).value.1| <= |lines|
  {
    var one := (i: nat) => 1;
    Scan.TryFoldBound(s, Generico.Indices(|lines|), LineAt(read, lines), one);
    Scan.SumOfOnes(Generico.Indices(|lines|), one);
  }

  /**
   * Every row `extract_bv_data` returns is `Sound` for the metadata as read
   * from the first page, there is at most one row per line of text, and
   * only the account and period differ from the defaults.
   */
  lemma ExtractSound(doc: Document)
    ensures var r := Extract(doc);
      && (forall t | t in r.rows :: Sound(r.meta, t))
      && (doc.pages.Some? ==> |r.rows| <= Scan.SumOf(doc.pages.value, TextLines))
      && r.meta == Bank.(conta := r.meta.conta, periodo := r.meta.periodo)
  {
    var r := Extract(doc);
    if doc.pages.Some? {
      PassSound(r.meta, doc.pages.value);
      PassBound(r.meta, doc.pages.value);
    }
  }
}
