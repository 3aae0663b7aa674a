/**
 * `ScriptAbc`: `extract_abc_data` of the standalone Banco ABC Brasil
 * script. The texts of all pages are joined, six patterns are run over the
 * whole text in order, and the first pattern that yields any transaction
 * decides. How a match is read depends on how many groups its pattern
 * has; a match whose numbers `float` refuses is skipped.
 */
module ScriptAbc {
  import opened Wrappers
  import opened Text
  import opened Numbers
  import opened Regex
  import opened Patterns
  import opened Pdf
  import opened Scripts
  import Scan
  import Generico

  const Bank: Metadata := Defaults("Banco ABC Brasil", "246")

  /** The first page's branch, account and period (`"<start> a <end>"`), each where its pattern is found; nothing else changes. */
  function Fill(m: Metadata, text: string): (r: Metadata)
    ensures r == m.(agencia := r.agencia, conta := r.conta, periodo := r.periodo)
    ensures ReSearch(Generico.AgenciaRe, text).None? ==> r.agencia == m.agencia
    ensures ReSearch(Generico.AccountRe, text).None? ==> r.conta == m.conta
    ensures ReSearch(Generico.PeriodRe, text).None? ==> r.periodo == m.periodo
  {
    m.(agencia := Generico.First(Generico.AgenciaRe, text).GetOr(m.agencia),
       conta := Generico.First(Generico.AccountRe, text).GetOr(m.conta),
       periodo := Generico.Between(Generico.PeriodRe, text).GetOr(m.periodo))
  }

  /**
   * `all_text`: the text of every page that has some, each followed by a
   * line break; `None` when a page's text raises.
   */
  function AllText(pages: seq<Page>): (r: Option<string>)
    ensures r.Some? ==> forall j | 0 <= j < |pages| :: !pages[j].text.Raises?
  {
    if |pages| == 0 then Some("")
    else
      var front := AllText(pages[..|pages| - 1]);
      var last := pages[|pages| - 1].text;
      if front.None? || last.Raises? then None
      else if HasText(last) then Some(front.value + last.s + "\n")
      else front
  }

  /** The loop that joins the page texts. */
  method JoinTexts(pages: seq<Page>) returns (r: Option<string>)
    ensures r == AllText(pages)
  {
    var text := "";
    var i := 0;
    while i < |pages|
      invariant 0 <= i <= |pages|
      invariant AllText(pages[..i]) == Some(text)
    {
      assert pages[..i + 1][..i] == pages[..i];
      var t := pages[i].text;
      if t.Raises? {
        return None;
      }
      if HasText(t) {
        text := text + t.s + "\n";
      }
      i := i + 1;
    }
    assert pages[..i] == pages;
    r := Some(text);
  }

  // ---------------------------------------------------------------------
  // The patterns.

  const CD: Re := Chr(Among("DC"))

  /** `(\d{2}/\d{2}/\d{4})\s+(.+?)\s+([\d.,]+)\s+([DC])\s+([\d.,]+)` */
  const FullRe: Re := Cats([Grp(1, FullDate), Spaces, Grp(2, LazyAny), Spaces, Grp(3, BrAmount), Spaces, Grp(4, CD), Spaces, Grp(5, BrAmount)])
  /** `(\d{2}/\d{2}/\d{4})\s+(\d+)\s+(.+?)\s+([\d.,]+)\s+([\d.,]+)` */
  const DocRe: Re := Cats([Grp(1, FullDate), Spaces, Grp(2, Plus(Digit)), Spaces, Grp(3, LazyAny), Spaces, Grp(4, BrAmount), Spaces, Grp(5, BrAmount)])
  /** `(\d{2}/\d{2})\s+(.+?)\s+([\d.,]+)\s+([DC])` */
  const ShortRe: Re := Cats([Grp(1, ShortDate), Spaces, Grp(2, LazyAny), Spaces, Grp(3, BrAmount), Spaces, Grp(4, CD)])
  /** `(\d{2}/\d{2}(?:/\d{4})?)\s+(.+?)\s+([\d.,]+)` */
  const AnyDateRe: Re := Cats([Grp(1, Cat(ShortDate, Opt(Cat(Chr(Among("/")), Times(Digit, 4))))), Spaces, Grp(2, LazyAny), Spaces, Grp(3, BrAmount)])
  /** `(.+?)\s+([\d.,]+)\s+([DC])\s+([\d.,]+)` */
  const UndatedRe: Re := Cats([Grp(1, LazyAny), Spaces, Grp(2, BrAmount), Spaces, Grp(3, CD), Spaces, Grp(4, BrAmount)])
  /** `(\d{2}/\d{2}/\d{4})\s+(.+?)\s+([\d.,]+)` */
  const DatedRe: Re := Cats([Grp(1, FullDate), Spaces, Grp(2, LazyAny), Spaces, Grp(3, BrAmount)])

  /** The six patterns, in the order they are tried. */
  const Cascade: seq<Pattern> := [Pattern(FullRe, 5), Pattern(DocRe, 5), Pattern(ShortRe, 4), Pattern(AnyDateRe, 3), Pattern(UndatedRe, 4), Pattern(DatedRe, 3)]

  // ---------------------------------------------------------------------
  // One match.

  /** The strings a match gives, before validation and conversion. */
  datatype Fields = Fields(data: string, documento: string, descricao: string, valor: string, tipo: string, saldo: string)

  /** `groups[3] if groups[3] in ['D', 'C'] else 'C'` */
  function Letter(g: string): (t: string)
    ensures t == "D" || t == "C"
    ensures t == "D" <==> g == "D"
  {
    if g == "D" || g == "C" then g else "C"
  }

  /**
   * The fields of a match of a pattern with `n` groups (`g(k)` is group
   * `k`). With five groups, an all-digit second group is the document and
   * the later fields shift by one (the direction stays the one read from
   * the fourth group); with four, only a first group holding two slashes is
   * read; with three, the direction is 'C' and the balance '0'.
   */
  function Read(n: nat, text: string, x: Match): (f: Option<Fields>)
    ensures f.Some? ==> 3 <= n <= 5
    ensures f.Some? ==> f.value.tipo == "D" || f.value.tipo == "C"
    ensures n == 5 ==>
      && f.Some? && f.value.data == Group(text, x, 1) && f.value.saldo == BrText(Group(text, x, 5))
      && f.value.tipo == Letter(Group(text, x, 4))
      && (IsDigits(Group(text, x, 2)) ==>
        f.value.documento == Group(text, x, 2) && f.value.descricao == Strip(Group(text, x, 3)) && f.value.valor == BrText(Group(text, x, 4)))
      && (!IsDigits(Group(text, x, 2)) ==>
        f.value.documento == "" && f.value.descricao == Strip(Group(text, x, 2)) && f.value.valor == BrText(Group(text, x, 3)))
    ensures n == 4 ==> (f.Some? <==> multiset(Group(text, x, 1))['/'] == 2)
    ensures n == 4 && f.Some? ==> f.value == Fields(Group(text, x, 1), "", Strip(Group(text, x, 2)), BrText(Group(text, x, 3)), Letter(Group(text, x, 4)), "0")
    ensures n == 3 ==> f == Some(Fields(Group(text, x, 1), "", Strip(Group(text, x, 2)), BrText(Group(text, x, 3)), "C", "0"))
  {
    var g := k => Group(text, x, k);
    if n == 5 then
      if IsDigits(g(2)) then Some(Fields(g(1), g(2), Strip(g(3)), BrText(g(4)), Letter(g(4)), BrText(g(5))))
      else Some(Fields(g(1), "", Strip(g(2)), BrText(g(3)), Letter(g(4)), BrText(g(5))))
    else if n == 4 then
      if multiset(g(1))['/'] == 2 then Some(Fields(g(1), "", Strip(g(2)), BrText(g(3)), Letter(g(4)), "0")) else None
    else if n == 3 then Some(Fields(g(1), "", Strip(g(2)), BrText(g(3)), "C", "0"))
    else None
  }

  /** The validation: a description longer than two that does not start with DATA or SALDO, and an amount that is digits once its points are gone. */
  predicate Valid(f: Fields)
  {
    && |f.descricao| > 2
    && !StartsWith(Upper(f.descricao), "DATA") && !StartsWith(Upper(f.descricao), "SALDO")
    && IsDigits(Drop(f.valor, '.'))
  }

  /** `float(saldo_str) if saldo_str != '0' else 0.0` */
  function Balance(saldo: string): (r: Option<int>)
    ensures saldo == "0" ==> r == Some(0)
  {
    if saldo == "0" then Some(0) else Float(saldo)
  }

  /** The metadata, the joined text and the group count of the pattern being run. */
  datatype Ctx = Ctx(meta: Metadata, text: string, groups: nat)

  /**
   * The row of one match: `None` when the pattern's group count is not read,
   * when validation fails, or when `float` raises on the amount or the
   * balance (the exception skips the match).
   */
  function MatchRow(c: Ctx, x: Match): (r: Option<Row>)
    ensures r.Some? <==> var f := Read(c.groups, c.text, x);
      f.Some? && Valid(f.value) && Float(f.value.valor).Some? && Balance(f.value.saldo).Some?
    ensures r.Some? ==> var f := Read(c.groups, c.text, x).value;
      r.value == Entry(Accented, c.meta, f.data, f.documento, f.descricao, Cents(Float(f.valor).value), f.tipo, Cents(Balance(f.saldo).value))
  {
    match Read(c.groups, c.text, x)
    case None => None
    case Some(f) =>
      if !Valid(f) then None
      else
        match (Float(f.valor), Balance(f.saldo))
        case (Some(v), Some(s)) => Some(Entry(Accented, c.meta, f.data, f.documento, f.descricao, Cents(v), f.tipo, Cents(s)))
        case _ => None
  }

  /** The rows one pattern yields over the joined text, in the order of its matches. */
  function PatternRows(c: (Metadata, string), p: Pattern): seq<Row>
  {
    Scan.Collect(Ctx(c.0, c.1, p.groups), FindIter(p.re, c.1), MatchRow)
  }

  /** The rows of the first pattern that yields any. */
  function Rows(m: Metadata, text: string): seq<Row>
  {
    Scan.FirstNonEmpty((m, text), Cascade, PatternRows)
  }

  /**
   * The rows are those of the first pattern that yields any, every earlier
   * pattern yielding none; there are none exactly when no pattern yields
   * any.
   */
  lemma RowsFirst(m: Metadata, text: string) returns (k: nat)
    ensures Rows(m, text) == [] <==> forall j | 0 <= j < |Cascade| :: PatternRows((m, text), Cascade[j]) == []
    ensures Rows(m, text) != [] ==>
      && k < |Cascade| && Rows(m, text) == PatternRows((m, text), Cascade[k])
      && forall j | 0 <= j < k :: PatternRows((m, text), Cascade[j]) == []
  {
    Scan.FirstNonEmptyEmpty((m, text), Cascade, PatternRows);
    k := 0;
    if Rows(m, text) != [] {
      Scan.FirstNonEmptyFound((m, text), Cascade, PatternRows);
      k :| k < |Cascade| && Rows(m, text) == PatternRows((m, text), Cascade[k])
        && forall j | 0 <= j < k :: PatternRows((m, text), Cascade[j]) == [];
    }
  }

  /** The loop over the patterns that stops after the first one that yields. */
  method RunCascade(m: Metadata, text: string) returns (rows: seq<Row>)
    ensures rows == Rows(m, text)
  {
    rows := [];
    var k := 0;
    while k < |Cascade|
      invariant 0 <= k <= |Cascade|
      invariant rows == [] && Rows(m, text) == Scan.FirstNonEmpty((m, text), Cascade[k..], PatternRows)
    {
      var p := Cascade[k];
      var found := Scan.CollectLoop(Ctx(m, text, p.groups), FindIter(p.re, text), MatchRow);
      assert found == PatternRows((m, text), p);
      Scan.FirstNonEmptyAt((m, text), Cascade, PatternRows, k);
      rows := rows + found;
      if rows != [] {
        return;
      }
      k := k + 1;
    }
  }

  // ---------------------------------------------------------------------
  // The run.

  /**
   * `extract_abc_data`: the metadata of the first page, then the rows of
   * the joined text; an exception while reading the pages returns no rows
   * and the metadata as far as it got.
   */
  function Extract(doc: Document): (r: Run<Row>)
    ensures r.raised ==> r.rows == []
    ensures doc.pages.None? ==> r.raised && r.meta == Bank
  {
    if doc.pages.None? then Run([], Bank, true)
    else
      match FirstPageMeta(Bank, doc.pages.value, Fill)
      case None => Run([], Bank, true)
      case Some(m) =>
        match AllText(doc.pages.value)
        case None => Run([], m, true)
        case Some(text) => Run(Rows(m, text), m, false)
  }

  method ExtractAbcData(doc: Document) returns (r: Run<Row>)
    ensures r == Extract(doc)
  {
    if doc.pages.None? {
      return Run([], Bank, true);
    }
    var pages := doc.pages.value;
    var first := FirstPageMeta(Bank, pages, Fill);
    if first.None? {
      return Run([], Bank, true);
    }
    var metadata := first.value;
    var text := JoinTexts(pages);
    if text.None? {
      return Run([], metadata, true);
    }
    var rows := RunCascade(metadata, text.value);
    r := Run(rows, metadata, false);
  }

  // ---------------------------------------------------------------------
  // What the rows satisfy.

  /**
   * A row of this script: accented keys, the bank, code, branch and account
   * of `m`, a description longer than two that does not start with DATA or
   * SALDO, the direction 'D' or 'C', and a non-negative amount.
   */
  predicate Sound(m: Metadata, t: Row)
  {
    && t.spelling == Accented && t.arquivo.None?
    && t.banco == m.banco && t.codigo == m.codigoBanco && t.agencia == m.agencia && t.conta == m.conta
    && |t.descricao| > 2 && !StartsWith(Upper(t.descricao), "DATA") && !StartsWith(Upper(t.descricao), "SALDO")
    && (t.tipo == "D" || t.tipo == "C")
    && t.valor.Cents? && t.valor.value >= 0 && t.saldo.Cents?
  }

  /** An amount that is digits once its points are gone has no minus sign, so it never reads as negative. */
  lemma ValidUnsigned(v: string)
    requires IsDigits(Drop(v, '.'))
    ensures Float(v).Some? ==> Float(v).value >= 0
  {
    FloatNoMinus(v);
  }

  lemma MatchRowSound(c: Ctx, x: Match)
    ensures MatchRow(c, x).Some? ==> Sound(c.meta, MatchRow(c, x).value)
  {
    if MatchRow(c, x).Some? {
      ValidUnsigned(Read(c.groups, c.text, x).value.valor);
    }
  }

  /** Every row of every pattern is `Sound`. */
  lemma PatternRowsSound(c: (Metadata, string), p: Pattern)
    ensures forall t | t in PatternRows(c, p) :: Sound(c.0, t)
  {
    var ctx := Ctx(c.0, c.1, p.groups);
    var ms := FindIter(p.re, c.1);
    forall t | t in PatternRows(c, p) ensures Sound(c.0, t) {
      var i :| 0 <= i < |ms| && MatchRow(ctx, ms[i]) == Some(t);
      MatchRowSound(ctx, ms[i]);
    }
  }

  /**
   * Every row `extract_abc_data` returns is `Sound` for the metadata as
   * read from the first page, the rows are those of the first pattern that
   * yields any, and only the branch, account and period differ from the
   * defaults.
   */
  lemma ExtractSound(doc: Document)
    ensures var r := Extract(doc);
      && (forall t | t in r.rows :: Sound(r.meta, t))
      && (!r.raised ==> doc.pages.Some? && AllText(doc.pages.value).Some? && r.rows == Rows(r.meta, AllText(doc.pages.value).value))
      && r.meta == Bank.(agencia := r.meta.agencia, conta := r.meta.conta, periodo := r.meta.periodo)
  {
    var r := Extract(doc);
    if !r.raised {
      var text := AllText(doc.pages.value).value;
      assert r.rows == Rows(r.meta, text);
      var k := RowsFirst(r.meta, text);
      if r.rows != [] {
        PatternRowsSound((r.meta, text), Cascade[k]);
      }
    }
  }
}
