/**
 * `ScriptDaycoval`: `extract_daycoval_data` of the standalone Daycoval
 * script. A current date is carried from line to line and page to page: a
 * dated line sets it, a line holding only a date sets it and emits nothing,
 * and an undated line is read only once a date is known. There is no
 * per-line `try`, so one amount that `float` refuses ends the whole run.
 */
module ScriptDaycoval {
  import opened Wrappers
  import opened Text
  import opened Numbers
  import opened Regex
  import opened Patterns
  import opened Pdf
  import opened Scripts
  import Scan
  import Generico
  import GenericoSound

  const Bank: Metadata := Defaults("Banco Daycoval", "707")

  /** The first page's branch, account and period, each where its pattern is found; nothing else changes. */
  function Fill(m: Metadata, text: string): (r: Metadata)
    ensures r == m.(agencia := r.agencia, conta := r.conta, periodo := r.periodo)
    ensures ReSearch(Generico.AgenciaRe, text).None? ==> r.agencia == m.agencia
    ensures ReSearch(Generico.AccountRe, text).None? ==> r.conta == m.conta
    ensures ReSearch(Generico.PeriodRe, text).None? ==> r.periodo == m.periodo
  {
    m.(agencia := Generico.First(Generico.AgenciaRe, text).GetOr(m.agencia),
       conta := Generico.First(Generico.AccountRe, text).GetOr(m.conta),
       periodo := Generico.Between(Generico.PeriodRe, text).GetOr(m.periodo))
  }

  const CD: Re := Chr(Among("DC"))

  /** `(\d{2}/\d{2}/\d{4})\s+(.+?)\s+([\d.,]+)\s+([DC])` */
  const FullParts := [Grp(1, FullDate), Spaces, Grp(2, LazyAny), Spaces, Grp(3, BrAmount), Spaces, Grp(4, CD)]
  const FullRe: Re := Cats(FullParts)

  /** `^(\d{2}/\d{2})\s+(.+?)\s+([\d.,]+)` */
  const ShortParts := [Bol, Grp(1, ShortDate), Spaces, Grp(2, LazyAny), Spaces, Grp(3, BrAmount)]
  const ShortRe: Re := Cats(ShortParts)

  /** `^(\d{2}/\d{2}/\d{4})$` and `^(\d{2}/\d{2})$` */
  const FullOnlyRe: Re := Cats([Bol, Grp(1, FullDate), Eol])
  const ShortOnlyRe: Re := Cats([Bol, Grp(1, ShortDate), Eol])

  /** `^(.+?)\s+([\d.,]+)\s+([DC])$` */
  const CdParts := [Bol, Grp(1, LazyAny), Spaces, Grp(2, BrAmount), Spaces, Grp(3, CD), Eol]
  const CdRe: Re := Cats(CdParts)

  /** `^(.+?)\s+([\d.,]+)$` */
  const PlainParts := [Bol, Grp(1, LazyAny), Spaces, Grp(2, BrAmount), Eol]
  const PlainRe: Re := Cats(PlainParts)

  /** The words that make a line without a C/D letter a debit. */
  const Words: seq<string> := ["DEBITO", "SAQUE", "PAGAMENTO", "TARIFA"]

  /** An undated description is kept when it is longer than three characters and does not start with DATA. */
  predicate Kept(descricao: string)
  {
    |descricao| > 3 && !StartsWith(Upper(descricao), "DATA")
  }

  /** The row a transaction builds; `None` when `float` raises on its amount. */
  function Make(m: Metadata, data: string, descricao: string, amount: string, tipo: string): (r: Option<Row>)
    ensures r.Some? <==> BrFloat(amount).Some?
    ensures r.Some? ==> r.value == Entry(Accented, m, data, "", descricao, Cents(BrFloat(amount).value), tipo, Cents(0))
  {
    match BrFloat(amount)
    case None => None
    case Some(v) => Some(Entry(Accented, m, data, "", descricao, Cents(v), tipo, Cents(0)))
  }

  /** The outcome of a dated transaction line: the new date and its row, or the exception. */
  function Dated(d: string, t: Option<Row>): (r: Option<(Option<string>, Option<Row>)>)
    ensures r.Some? <==> t.Some?
    ensures r.Some? ==> r.value == (Some(d), t)
  {
    if t.None? then None else Some((Some(d), t))
  }

  /** A line holding only a full or a short date: that date. */
  function DateOnly(line: string): (d: Option<string>)
  {
    match ReSearch(FullOnlyRe, line)
    case Some(x) => Some(Group(line, x, 1))
    case None =>
      match ReSearch(ShortOnlyRe, line)
      case Some(x) => Some(Group(line, x, 1))
      case None => None
  }

  /**
   * An undated line, once the date is `d`: with a C/D letter, without one
   * (a line of digits only is not a transaction), or nothing. The outer
   * `None` is the exception of an amount `float` refuses.
   */
  function Undated(m: Metadata, d: string, line: string): (r: Option<Option<Row>>)
    ensures r.Some? && r.value.Some? ==> r.value.value.data == d && Kept(r.value.value.descricao)
  {
    match ReSearch(CdRe, line)
    case Some(x) =>
      var descricao := Strip(Group(line, x, 1));
      if !Kept(descricao) then Some(None)
      else
        var t := Make(m, d, descricao, Group(line, x, 2), Group(line, x, 3));
        if t.None? then None else Some(t)
    case None =>
      match ReSearch(PlainRe, line)
      case None => Some(None)
      case Some(x) =>
        var descricao := Strip(Group(line, x, 1));
        if IsDigits(line) || !Kept(descricao) then Some(None)
        else
          var t := Make(m, d, descricao, Group(line, x, 2), KeywordTipo(descricao, Words));
          if t.None? then None else Some(t)
  }

  /**
   * One stripped line, given the current date: the new current date and
   * the row, if any; `None` when `float` raises. The patterns are tried in
   * order and the first that matches decides.
   */
  function Step(m: Metadata, date: Option<string>, line: string): (r: Option<(Option<string>, Option<Row>)>)
    ensures |line| == 0 ==> r == Some((date, None))
    ensures r.Some? && r.value.1.Some? ==> r.value.0.Some? && r.value.1.value.data == r.value.0.value
    ensures r.Some? && r.value.0 != date ==> |line| > 0 && (ReSearch(FullRe, line).Some? || ReSearch(ShortRe, line).Some? || DateOnly(line).Some?)
    ensures date.None? && r.Some? && r.value.1.Some? ==> ReSearch(FullRe, line).Some? || ReSearch(ShortRe, line).Some?
  {
    if |line| == 0 then Some((date, None))
    else
      match ReSearch(FullRe, line)
      case Some(x) =>
        var d := Group(line, x, 1);
        Dated(d, Make(m, d, Strip(Group(line, x, 2)), Group(line, x, 3), Group(line, x, 4)))
      case None =>
        match ReSearch(ShortRe, line)
        case Some(x) =>
          var d := Group(line, x, 1);
          var descricao := Strip(Group(line, x, 2));
          Dated(d, Make(m, d, descricao, Group(line, x, 3), KeywordTipo(descricao, Words)))
        case None =>
          match DateOnly(line)
          case Some(d) => Some((Some(d), None))
          case None =>
            if date.None? then Some((date, None))
            else
              match Undated(m, date.value, line)
              case None => None
              case Some(t) => Some((date, t))
  }

  function Reader(m: Metadata): LineRead<Option<string>, Row>
  {
    (date: Option<string>, lines: seq<string>, i: nat) =>
      if i < |lines| then
        match Step(m, date, Strip(lines[i]))
        case None => None
        case Some((d, t)) => Some((d, Emit(t)))
      else Some((date, []))
  }

  /** `extract_daycoval_data`: the rows and the metadata, with no current date before the first page. */
  function Extract(doc: Document): Run<Row>
  {
    Guarded(doc, Bank, Fill, Reader, None)
  }

  method ExtractDaycovalData(doc: Document) returns (r: Run<Row>)
    ensures r == Extract(doc)
  {
    r := RunGuarded(doc, Bank, Fill, Reader, None);
  }

  // ---------------------------------------------------------------------
  // What the rows satisfy.

  /**
   * A row of this script: accented keys, the bank, code, branch and account
   * of `m`, no document, a balance of 0.0, a direction made of the letters C
   * and D, and a non-negative amount.
   */
  predicate Sound(m: Metadata, t: Row)
  {
    && t.spelling == Accented && t.documento == "" && t.saldo == Cents(0) && t.arquivo.None?
    && t.banco == m.banco && t.codigo == m.codigoBanco && t.agencia == m.agencia && t.conta == m.conta
    && (forall j | 0 <= j < |t.tipo| :: t.tipo[j] == 'C' || t.tipo[j] == 'D')
    && t.valor.Cents? && t.valor.value >= 0
  }

  lemma FullWithin(id: nat)
    requires id == 3 || id == 4
    ensures GroupWithin(FullRe, id, if id == 3 then AmountClass else GenericoSound.CD)
  {
    PiecesWithin();
    assert Subclass(Among("DC"), GenericoSound.CD);
    var k := if id == 3 then AmountClass else GenericoSound.CD;
    GenericoSound.DateNoGroups(id, k);
    CatsGroupWithin(FullParts, id, k);
  }

  lemma ShortWithin()
    ensures GroupWithin(ShortRe, 3, AmountClass)
  {
    PiecesWithin();
    CatsGroupWithin(ShortParts, 3, AmountClass);
  }

  lemma CdWithin(id: nat)
    requires id == 2 || id == 3
    ensures GroupWithin(CdRe, id, if id == 2 then AmountClass else GenericoSound.CD)
  {
    PiecesWithin();
    assert Subclass(Among("DC"), GenericoSound.CD);
    var k := if id == 2 then AmountClass else GenericoSound.CD;
    CatsGroupWithin(CdParts, id, k);
  }

  lemma PlainWithin()
    ensures GroupWithin(PlainRe, 2, AmountClass)
  {
    PiecesWithin();
    CatsGroupWithin(PlainParts, 2, AmountClass);
  }

  /** A row built from an amount without a minus sign and a direction of C/D letters is `Sound`. */
  lemma MakeSound(m: Metadata, data: string, descricao: string, amount: string, tipo: string)
    requires '-' !in amount
    requires forall j | 0 <= j < |tipo| :: tipo[j] == 'C' || tipo[j] == 'D'
    ensures Make(m, data, descricao, amount, tipo).Some? ==> Sound(m, Make(m, data, descricao, amount, tipo).value)
  {
    UnsignedReadings(amount);
  }

  lemma CdSound(m: Metadata, d: string, line: string)
    requires ReSearch(CdRe, line).Some?
    ensures var x := ReSearch(CdRe, line).value; var t := Make(m, d, Strip(Group(line, x, 1)), Group(line, x, 2), Group(line, x, 3));
      t.Some? ==> Sound(m, t.value)
  {
    var x := ReSearch(CdRe, line).value;
    CdWithin(2);
    CdWithin(3);
    SearchAmountUnsigned(CdRe, line, 2);
    GenericoSound.DirectionGroup(CdRe, line, 3);
    MakeSound(m, d, Strip(Group(line, x, 1)), Group(line, x, 2), Group(line, x, 3));
  }

  lemma PlainSound(m: Metadata, d: string, line: string)
    requires ReSearch(PlainRe, line).Some?
    ensures var x := ReSearch(PlainRe, line).value; var descricao := Strip(Group(line, x, 1));
      var t := Make(m, d, descricao, Group(line, x, 2), KeywordTipo(descricao, Words));
      t.Some? ==> Sound(m, t.value)
  {
    var x := ReSearch(PlainRe, line).value;
    PlainWithin();
    SearchAmountUnsigned(PlainRe, line, 2);
    var descricao := Strip(Group(line, x, 1));
    MakeSound(m, d, descricao, Group(line, x, 2), KeywordTipo(descricao, Words));
  }

  lemma UndatedSound(m: Metadata, d: string, line: string)
    ensures var r := Undated(m, d, line); r.Some? && r.value.Some? ==> Sound(m, r.value.value)
  {
    if ReSearch(CdRe, line).Some? {
      CdSound(m, d, line);
    } else if ReSearch(PlainRe, line).Some? {
      PlainSound(m, d, line);
    }
  }

  lemma FullSound(m: Metadata, line: string)
    requires ReSearch(FullRe, line).Some?
    ensures var x := ReSearch(FullRe, line).value; var t := Make(m, Group(line, x, 1), Strip(Group(line, x, 2)), Group(line, x, 3), Group(line, x, 4));
      t.Some? ==> Sound(m, t.value)
  {
    var x := ReSearch(FullRe, line).value;
    FullWithin(3);
    FullWithin(4);
    SearchAmountUnsigned(FullRe, line, 3);
    GenericoSound.DirectionGroup(FullRe, line, 4);
    MakeSound(m, Group(line, x, 1), Strip(Group(line, x, 2)), Group(line, x, 3), Group(line, x, 4));
  }

  lemma ShortSound(m: Metadata, line: string)
    requires ReSearch(ShortRe, line).Some?
    ensures var x := ReSearch(ShortRe, line).value; var descricao := Strip(Group(line, x, 2));
      var t := Make(m, Group(line, x, 1), descricao, Group(line, x, 3), KeywordTipo(descricao, Words));
      t.Some? ==> Sound(m, t.value)
  {
    var x := ReSearch(ShortRe, line).value;
    ShortWithin();
    SearchAmountUnsigned(ShortRe, line, 3);
    var descricao := Strip(Group(line, x, 2));
    MakeSound(m, Group(line, x, 1), descricao, Group(line, x, 3), KeywordTipo(descricao, Words));
  }

  lemma StepSound(m: Metadata, date: Option<string>, line: string)
    ensures var r := Step(m, date, line); r.Some? && r.value.1.Some? ==> Sound(m, r.value.1.value)
  {
    if |line| > 0 {
      if ReSearch(FullRe, line).Some? {
        FullSound(m, line);
      } else if ReSearch(ShortRe, line).Some? {
        ShortSound(m, line);
      } else if DateOnly(line).None? && date.Some? {
        UndatedSound(m, date.value, line);
      }
    }
  }

  lemma ReaderSound(m: Metadata)
    ensures forall s: Option<string>, lines: seq<string>, i: nat, t: Row | i < |lines| && Reader(m)(s, lines, i).Some? && t in Reader(m)(s, lines, i).value.1 :: Sound(m, t)
  {
    forall s: Option<string>, lines: seq<string>, i: nat, t: Row | i < |lines| && Reader(m)(s, lines, i).Some? && t in Reader(m)(s, lines, i).value.1
      ensures Sound(m, t)
    {
      StepSound(m, s, Strip(lines[i]));
    }
  }

  /** One amount that does not convert on a full-date transaction line raises, whatever the current date. */
  lemma BadAmountRaises(m: Metadata, date: Option<string>, line: string)
    requires |line| > 0 && ReSearch(FullRe, line).Some?
    requires BrFloat(Group(line, ReSearch(FullRe, line).value, 3)).None?
    ensures Step(m, date, line).None?
  {
  }

  /**
   * Every row `extract_daycoval_data` returns is `Sound` for the metadata as
   * read from the first page, there is at most one row per line of text,
   * and only the branch, account and period differ from the defaults.
   */
  lemma ExtractSound(doc: Document)
    ensures var r := Extract(doc);
      && (forall t | t in r.rows :: Sound(r.meta, t))
      && (doc.pages.Some? ==> |r.rows| <= Scan.SumOf(doc.pages.value, TextLines))
      && r.meta == Bank.(agencia := r.meta.agencia, conta := r.meta.conta, periodo := r.meta.periodo)
  {
    forall m: Metadata {
      ReaderSound(m);
    }
    GuardedAll(doc, Bank, Fill, Reader, None, Sound);
    if doc.pages.Some? {
      GuardedBound(doc, Bank, Fill, Reader, None);
    }
  }
}
