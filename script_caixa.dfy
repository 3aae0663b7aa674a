/**
 * `ScriptCaixa`: `extract_caixa_data` of the standalone Caixa script. A
 * line is read with its document number when it has one, otherwise
 * without; amount and balance each carry a C/D suffix, and the amount's
 * suffix is the row's direction.
 */
module ScriptCaixa {
  import opened Wrappers
  import opened Text
  import opened Numbers
  import opened Regex
  import opened Patterns
  import opened Pdf
  import opened Scripts
  import Scan
  import Generico
  import GenericoSound

  const Bank: Metadata := Defaults("Caixa Economica Federal", "104")

  /** `Conta[:\s]*(\d+[/-]\d+[/-]\d+[-]\d+)` */
  const ContaRe: Re := Cats([Lit("Conta"), Generico.ColonGap, Grp(1, Cats([Plus(Digit), Chr(Among("/-")), Plus(Digit), Chr(Among("/-")), Plus(Digit), Lit("-"), Plus(Digit)]))])

  /** The first page's account and period (`"<start> a <end>"`), each where its pattern is found; nothing else changes. */
  function Fill(m: Metadata, text: string): (r: Metadata)
    ensures r == m.(conta := r.conta, periodo := r.periodo)
    ensures ReSearch(ContaRe, text).None? ==> r.conta == m.conta
    ensures ReSearch(Generico.PeriodRe, text).None? ==> r.periodo == m.periodo
  {
    m.(conta := Generico.First(ContaRe, text).GetOr(m.conta), periodo := Generico.Between(Generico.PeriodRe, text).GetOr(m.periodo))
  }

  /** Empty lines and the lines starting with `Data`, `Página` or `Consulta`. */
  predicate Skipped(line: string)
  {
    |line| == 0 || StartsWith(line, "Data") || StartsWith(line, "Página") || StartsWith(line, "Consulta")
  }

  const CD: Re := Chr(Among("DC"))

  /** `(\d{2}/\d{2}/\d{4})\s+(\d+)\s+(.+?)\s+([\d.,]+)([DC])\s+([\d.,]+)([DC])` */
  const DocParts := [Grp(1, FullDate), Spaces, Grp(2, Plus(Digit)), Spaces, Grp(3, LazyAny), Spaces, Grp(4, BrAmount), Grp(5, CD), Spaces, Grp(6, BrAmount), Grp(7, CD)]
  const DocRe: Re := Cats(DocParts)

  /** `(\d{2}/\d{2}/\d{4})\s+(.+?)\s+([\d.,]+)([DC])\s+([\d.,]+)([DC])` */
  const SimpleParts := [Grp(1, FullDate), Spaces, Grp(2, LazyAny), Spaces, Grp(3, BrAmount), Grp(4, CD), Spaces, Grp(5, BrAmount), Grp(6, CD)]
  const SimpleRe: Re := Cats(SimpleParts)

  /**
   * A row from a match of `r` whose groups `d`, `a`, `t`, `b` are the
   * description, amount, direction and balance, with `documento` as the
   * document; `None` when either number does not convert.
   */
  function MatchRow(m: Metadata, line: string, x: Match, documento: string, d: nat, a: nat, t: nat, b: nat): (r: Option<Row>)
    ensures r.Some? <==> BrFloat(Group(line, x, a)).Some? && BrFloat(Group(line, x, b)).Some?
  {
    match (BrFloat(Group(line, x, a)), BrFloat(Group(line, x, b)))
    case (Some(v), Some(s)) => Some(Entry(Plain, m, Group(line, x, 1), documento, Strip(Group(line, x, d)), Comma(v), Group(line, x, t), Comma(s)))
    case _ => None
  }

  /**
   * The row a stripped line gives. The pattern with a document is tried
   * first; when it matches, its numbers decide, and a number that does not
   * convert skips the line without trying the other pattern.
   */
  function ReadLine(m: Metadata, line: string): (r: Option<Row>)
    ensures Skipped(line) ==> r.None?
    ensures !Skipped(line) && ReSearch(DocRe, line).Some? ==>
      var x := ReSearch(DocRe, line).value;
      (r.Some? <==> BrFloat(Group(line, x, 4)).Some? && BrFloat(Group(line, x, 6)).Some?)
      && (r.Some? ==> r.value.documento == Group(line, x, 2))
    ensures !Skipped(line) && ReSearch(DocRe, line).None? ==>
      (r.Some? <==> (ReSearch(SimpleRe, line).Some? &&
        BrFloat(Group(line, ReSearch(SimpleRe, line).value, 3)).Some? && BrFloat(Group(line, ReSearch(SimpleRe, line).value, 5)).Some?))
      && (r.Some? ==> r.value.documento == "")
  {
    if Skipped(line) then None
    else
      match ReSearch(DocRe, line)
      case Some(x) => MatchRow(m, line, x, Group(line, x, 2), 3, 4, 5, 6)
      case None =>
        match ReSearch(SimpleRe, line)
        case None => None
        case Some(x) => MatchRow(m, line, x, "", 2, 3, 4, 5)
  }

  function Reader(m: Metadata): LineRead<(), Row>
  {
    (s: (), lines: seq<string>, i: nat) => Some(((), if i < |lines| then Emit(ReadLine(m, Strip(lines[i]))) else []))
  }

  /** `extract_caixa_data`: the rows, the metadata and the log. */
  function Extract(doc: Document): (Run<Row>, Log)
  {
    var r := Guarded(doc, Bank, Fill, Reader, ());
    (r, Logged(doc, r))
  }

  method ExtractCaixaData(doc: Document) returns (r: Run<Row>, log: Log)
    ensures (r, log) == Extract(doc)
  {
    r := RunGuarded(doc, Bank, Fill, Reader, ());
    log := Log(doc.name, 0, 0);
    if doc.pages.Some? {
      log := log.(paginas := |doc.pages.value|);
    }
    if !r.raised {
      log := log.(transacoes := |r.rows|);
    }
  }

  // ---------------------------------------------------------------------
  // What the rows satisfy.

  /**
   * A row of this script: unaccented keys, the bank, code, branch and
   * account of `m`, a direction made of the letters C and D, and amount and
   * balance each the two-decimal rendering of the non-negative number it
   * reads back as.
   */
  predicate Sound(m: Metadata, t: Row)
  {
    && t.spelling == Plain && t.arquivo.None?
    && t.banco == m.banco && t.codigo == m.codigoBanco && t.agencia == m.agencia && t.conta == m.conta
    && (forall j | 0 <= j < |t.tipo| :: t.tipo[j] == 'C' || t.tipo[j] == 'D')
    && TwoDecimals(t.valor) && BrFloat(t.valor.text).value >= 0
    && TwoDecimals(t.saldo) && BrFloat(t.saldo.text).value >= 0
  }

  lemma DocAmount(id: nat)
    requires id == 4 || id == 6
    ensures GroupWithin(DocRe, id, AmountClass)
  {
    PiecesWithin();
    GenericoSound.DateNoGroups(id, AmountClass);
    CatsGroupWithin(DocParts, id, AmountClass);
  }

  lemma DocDirection()
    ensures GroupWithin(DocRe, 5, GenericoSound.CD)
  {
    PiecesWithin();
    assert Subclass(Among("DC"), GenericoSound.CD);
    GenericoSound.DateNoGroups(5, GenericoSound.CD);
    CatsGroupWithin(DocParts, 5, GenericoSound.CD);
  }

  lemma SimpleAmount(id: nat)
    requires id == 3 || id == 5
    ensures GroupWithin(SimpleRe, id, AmountClass)
  {
    PiecesWithin();
    GenericoSound.DateNoGroups(id, AmountClass);
    CatsGroupWithin(SimpleParts, id, AmountClass);
  }

  lemma SimpleDirection()
    ensures GroupWithin(SimpleRe, 4, GenericoSound.CD)
  {
    PiecesWithin();
    assert Subclass(Among("DC"), GenericoSound.CD);
    GenericoSound.DateNoGroups(4, GenericoSound.CD);
    CatsGroupWithin(SimpleParts, 4, GenericoSound.CD);
  }

  /**
   * The row of a match holds the amount's direction letter (the balance's
   * letter is not read), and its amount and balance read back as the
   * numbers on the line.
   */
  lemma MatchRowOf(m: Metadata, line: string, x: Match, documento: string, d: nat, a: nat, t: nat, b: nat)
    requires MatchRow(m, line, x, documento, d, a, t, b).Some?
    ensures var r := MatchRow(m, line, x, documento, d, a, t, b).value;
      && r.tipo == Group(line, x, t) && r.data == Group(line, x, 1) && r.descricao == Strip(Group(line, x, d))
      && TwoDecimals(r.valor) && BrFloat(r.valor.text) == BrFloat(Group(line, x, a))
      && TwoDecimals(r.saldo) && BrFloat(r.saldo.text) == BrFloat(Group(line, x, b))
  {
    CommaTwoDecimals(BrFloat(Group(line, x, a)).value);
    CommaTwoDecimals(BrFloat(Group(line, x, b)).value);
  }

  lemma DocSound(m: Metadata, line: string)
    requires ReSearch(DocRe, line).Some?
    ensures var x := ReSearch(DocRe, line).value; var r := MatchRow(m, line, x, Group(line, x, 2), 3, 4, 5, 6);
      r.Some? ==> Sound(m, r.value)
  {
    var x := ReSearch(DocRe, line).value;
    if MatchRow(m, line, x, Group(line, x, 2), 3, 4, 5, 6).Some? {
      MatchRowOf(m, line, x, Group(line, x, 2), 3, 4, 5, 6);
      DocAmount(4);
      DocAmount(6);
      DocDirection();
      GenericoSound.UnsignedGroup(DocRe, line, 4);
      GenericoSound.UnsignedGroup(DocRe, line, 6);
      GenericoSound.DirectionGroup(DocRe, line, 5);
    }
  }

  lemma SimpleSound(m: Metadata, line: string)
    requires ReSearch(SimpleRe, line).Some?
    ensures var x := ReSearch(SimpleRe, line).value; var r := MatchRow(m, line, x, "", 2, 3, 4, 5);
      r.Some? ==> Sound(m, r.value)
  {
    var x := ReSearch(SimpleRe, line).value;
    if MatchRow(m, line, x, "", 2, 3, 4, 5).Some? {
      MatchRowOf(m, line, x, "", 2, 3, 4, 5);
      SimpleAmount(3);
      SimpleAmount(5);
      SimpleDirection();
      GenericoSound.UnsignedGroup(SimpleRe, line, 3);
      GenericoSound.UnsignedGroup(SimpleRe, line, 5);
      GenericoSound.DirectionGroup(SimpleRe, line, 4);
    }
  }

  lemma ReadLineSound(m: Metadata, line: string)
    ensures ReadLine(m, line).Some? ==> Sound(m, ReadLine(m, line).value)
  {
    if !Skipped(line) {
      if ReSearch(DocRe, line).Some? {
        DocSound(m, line);
      } else if ReSearch(SimpleRe, line).Some? {
        SimpleSound(m, line);
      }
    }
  }

  /**
   * Every row `extract_caixa_data` returns is `Sound` for the metadata as
   * read from the first page, there is at most one row per line of text,
   * and the log's `transacoes` is the number of rows.
   */
  lemma ExtractSound(doc: Document)
    ensures var (r, log) := Extract(doc);
      && (forall t | t in r.rows :: Sound(r.meta, t))
      && (doc.pages.Some? ==> |r.rows| <= Scan.SumOf(doc.pages.value, TextLines))
      && log.transacoes == |r.rows|
      && r.meta == Bank.(conta := r.meta.conta, periodo := r.meta.periodo)
  {
    forall m: Metadata, s: (), lines: seq<string>, i: nat, t: Row | i < |lines| && Reader(m)(s, lines, i).Some? && t in Reader(m)(s, lines, i).value.1
      ensures Sound(m, t)
    {
      ReadLineSound(m, Strip(lines[i]));
    }
    GuardedAll(doc, Bank, Fill, Reader, (), Sound);
    if doc.pages.Some? {
      GuardedBound(doc, Bank, Fill, Reader, ());
    }
  }
}
