/**
 * `ScriptBb`: `extract_bb_data` of the standalone Banco do Brasil script.
 * Every stripped line that is not a heading is searched for
 * "date description amount C|D"; the amount is written back as a
 * two-decimal text with a decimal comma, and a line whose amount does not
 * convert is skipped.
 */
module ScriptBb {
  import opened Wrappers
  import opened Text
  import opened Numbers
  import opened Regex
  import opened Patterns
  import opened Pdf
  import opened Scripts
  import Scan
  import Generico
  import GenericoSound

  const Bank: Metadata := Defaults("Banco do Brasil", "001")

  /** `Agência:\s*(\d+-\d+)` */
  const AgenciaRe: Re := Cats([Lit("Agência:"), Star(Space), Grp(1, Generico.DashNumber)])

  /** `Conta Corrente:\s*(\d+-\d+)` */
  const ContaRe: Re := Cats([Lit("Conta Corrente:"), Star(Space), Grp(1, Generico.DashNumber)])

  /** The first page's branch and account, each where its pattern is found; nothing else changes. */
  function Fill(m: Metadata, text: string): (r: Metadata)
    ensures r == m.(agencia := r.agencia, conta := r.conta)
    ensures ReSearch(AgenciaRe, text).None? ==> r.agencia == m.agencia
    ensures ReSearch(ContaRe, text).None? ==> r.conta == m.conta
  {
    m.(agencia := Generico.First(AgenciaRe, text).GetOr(m.agencia), conta := Generico.First(ContaRe, text).GetOr(m.conta))
  }

  /** Empty lines and the lines starting with `Dt.`, `Ag.` or `Página`. */
  predicate Skipped(line: string)
  {
    |line| == 0 || StartsWith(line, "Dt.") || StartsWith(line, "Ag.") || StartsWith(line, "Página")
  }

  /** `(\d{2}/\d{2}/\d{4})\s+(.+?)\s+([\d.,]+)\s+([CD])` */
  const LineRe: Re := Cats([Grp(1, FullDate), Spaces, Grp(2, LazyAny), Spaces, Grp(3, BrAmount), Spaces, Grp(4, Chr(Among("CD")))])

  /** The row a stripped line gives: `None` for a heading, a line without the pattern, or an amount that does not convert. */
  function ReadLine(m: Metadata, line: string): (r: Option<Row>)
    ensures r.Some? <==> !Skipped(line) && ReSearch(LineRe, line).Some? && BrFloat(Group(line, ReSearch(LineRe, line).value, 3)).Some?
  {
    if Skipped(line) then None
    else
      match ReSearch(LineRe, line)
      case None => None
      case Some(x) =>
        match BrFloat(Group(line, x, 3))
        case None => None
        case Some(v) => Some(Entry(Plain, m, Group(line, x, 1), "", Strip(Group(line, x, 2)), Comma(v), Group(line, x, 4), ZeroComma))
  }

  function Reader(m: Metadata): LineRead<(), Row>
  {
    (s: (), lines: seq<string>, i: nat) => Some(((), if i < |lines| then Emit(ReadLine(m, Strip(lines[i]))) else []))
  }

  /** `extract_bb_data`: the rows, the metadata and the log. */
  function Extract(doc: Document): (Run<Row>, Log)
  {
    var r := Guarded(doc, Bank, Fill, Reader, ());
    (r, Logged(doc, r))
  }

  method ExtractBbData(doc: Document) returns (r: Run<Row>, log: Log)
    ensures (r, log) == Extract(doc)
  {
    r := RunGuarded(doc, Bank, Fill, Reader, ());
    log := Log(doc.name, 0, 0);
    if doc.pages.Some? {
      log := log.(paginas := |doc.pages.value|);
    }
    if !r.raised {
      log := log.(transacoes := |r.rows|);
    }
  }

  // ---------------------------------------------------------------------
  // What the rows satisfy.

  /**
   * A row of this script: written with unaccented keys, the bank, code,
   * branch and account of the metadata `m`, no document, a balance of
   * '0,00', a direction made of the letters C and D, and an amount text
   * that is the two-decimal rendering of the non-negative number it reads
   * back as.
   */
  predicate Sound(m: Metadata, t: Row)
  {
    && t.spelling == Plain && t.documento == "" && t.saldo == ZeroComma && t.arquivo.None?
    && t.banco == m.banco && t.codigo == m.codigoBanco && t.agencia == m.agencia && t.conta == m.conta
    && (forall j | 0 <= j < |t.tipo| :: t.tipo[j] == 'C' || t.tipo[j] == 'D')
    && TwoDecimals(t.valor) && BrFloat(t.valor.text).value >= 0
  }

  lemma LineWithin()
    ensures GroupWithin(LineRe, 3, AmountClass) && GroupWithin(LineRe, 4, GenericoSound.CD)
  {
    PiecesWithin();
    var parts := [Grp(1, FullDate), Spaces, Grp(2, LazyAny), Spaces, Grp(3, BrAmount), Spaces, Grp(4, Chr(Among("CD")))];
    GenericoSound.DateNoGroups(3, AmountClass);
    GenericoSound.DateNoGroups(4, GenericoSound.CD);
    CatsGroupWithin(parts, 3, AmountClass);
    CatsGroupWithin(parts, 4, GenericoSound.CD);
  }

  /**
   * The row of a line holds the line's date, its trimmed description and
   * its direction letter, and its `Valor` text reads back as exactly the
   * amount on the line.
   */
  lemma ReadLineRow(m: Metadata, line: string)
    requires ReadLine(m, line).Some?
    ensures var t := ReadLine(m, line).value; var x := ReSearch(LineRe, line).value;
      && t.data == Group(line, x, 1) && t.descricao == Strip(Group(line, x, 2)) && t.tipo == Group(line, x, 4)
      && t.valor.Written? && BrFloat(t.valor.text) == BrFloat(Group(line, x, 3))
  {
    var x := ReSearch(LineRe, line).value;
    CommaTwoDecimals(BrFloat(Group(line, x, 3)).value);
  }

  lemma ReadLineSound(m: Metadata, line: string)
    ensures ReadLine(m, line).Some? ==> Sound(m, ReadLine(m, line).value)
  {
    if ReadLine(m, line).Some? {
      var x := ReSearch(LineRe, line).value;
      var v := BrFloat(Group(line, x, 3)).value;
      var t := ReadLine(m, line).value;
      assert t == Entry(Plain, m, Group(line, x, 1), "", Strip(Group(line, x, 2)), Comma(v), Group(line, x, 4), ZeroComma);
      CommaTwoDecimals(v);
      LineWithin();
      GenericoSound.UnsignedGroup(LineRe, line, 3);
      GenericoSound.DirectionGroup(LineRe, line, 4);
      assert v >= 0;
    }
  }

  /**
   * Every row `extract_bb_data` returns is `Sound` for the bank's metadata
   * as read from the first page, there is at most one row per line of
   * text, and the log's `transacoes` is the number of rows whether or not
   * an exception ended the run.
   */
  lemma ExtractSound(doc: Document)
    ensures var (r, log) := Extract(doc);
      && (forall t | t in r.rows :: Sound(r.meta, t))
      && (doc.pages.Some? ==> |r.rows| <= Scan.SumOf(doc.pages.value, TextLines))
      && log.transacoes == |r.rows|
      && r.meta == Bank.(agencia := r.meta.agencia, conta := r.meta.conta)
  {
    forall m: Metadata, s: (), lines: seq<string>, i: nat, t: Row | i < |lines| && Reader(m)(s, lines, i).Some? && t in Reader(m)(s, lines, i).value.1
      ensures Sound(m, t)
    {
      ReadLineSound(m, Strip(lines[i]));
    }
    GuardedAll(doc, Bank, Fill, Reader, (), Sound);
    if doc.pages.Some? {
      GuardedBound(doc, Bank, Fill, Reader, ());
    }
  }
}
