/**
 * The enhanced generic extractor: four bank-specific strategies (Safra,
 * Daycoval, BV, Citibank), then a generic table strategy and a generic
 * line strategy, all run in turn; the one with the most rows wins.
 */
module EnhancedGeneric {
  import opened Wrappers
  import opened Text
  import opened Numbers
  import opened Dates
  import opened Regex
  import opened Frames
  import opened Pdf
  import opened BaseExtractor
  import opened Patterns
  import opened GenericRows
  import opened Best
  import Scan

  /** The strategies that read page texts, in the order they are tried; `Lines` is the generic line strategy. */
  datatype Kind = Safra | Daycoval | Bv | Citi | Lines(bank: string)

  /** A strategy applied to one document. */
  datatype StratEnv = StratEnv(kind: Kind, ctx: Ctx)

  /** How many of a page's first lines the strategy reads for header fields. */
  function HeaderLines(k: Kind): nat
  {
    match k
    case Safra => 10
    case Lines(_) => 0
    case _ => 15
  }

  /** Whether the strategy's dictionaries carry `documento` and `saldo`. */
  function Wide(k: Kind): bool
  {
    !k.Lines?
  }

  /** `lines[:n]` */
  function Take(lines: seq<string>, n: nat): (r: seq<string>)
    ensures |r| <= n && |r| <= |lines|
  {
    if |lines| <= n then lines else lines[..n]
  }

  /** Descriptions that name a balance rather than a movement. */
  const BalanceWords: seq<string> := ["SALDO", "DISPONIVEL"]

  // ---------------------------------------------------------------------
  // Header fields.

  /** `(\d+[-.]?\d*)`: an account number. */
  const AccountNumber: Re := Grp(1, Cat(Plus(Digit), Cat(Opt(Chr(Among("-."))), Star(Digit))))

  /** `(\d+)` */
  const Number: Re := Grp(1, Plus(Digit))

  /** One header line read by a strategy: the fields it sets. */
  function HeaderStep(k: Kind, info: Info, line: string): (r: Info)
    ensures r.Keys <= info.Keys + HeaderKeys(k)
    ensures "banco" in r && "banco" !in info ==> r["banco"] == BankName(k)
    ensures "banco" in r && "banco" in info ==> r["banco"] in {info["banco"], BankName(k)}
  {
    var u := Upper(line);
    match k
    case Safra =>
      if Contains(u, "SAFRA") then info["banco" := "BANCO SAFRA"]
      else if Contains(u, "CONTA") && ReSearch(Plus(Digit), line).Some? then
        match ReSearch(AccountNumber, line)
        case Some(m) => info["conta" := Group(line, m, 1)]
        case None => info
      else info
    case Daycoval =>
      if Contains(u, "DAYCOVAL") then info["banco" := "BANCO DAYCOVAL"]
      else if Contains(u, "AGÊNCIA") || Contains(u, "AG.") then
        match ReSearch(Number, line)
        case Some(m) => info["agencia" := Group(line, m, 1)]
        case None => info
      else info
    case Bv =>
      if ContainsAny(u, ["BANCO BV", "BV S/A", "VOTORANTIM"]) then info["banco" := "BANCO BV"] else info
    case Citi =>
      if ContainsAny(u, ["CITIBANK", "CITI"]) then info["banco" := "CITIBANK"] else info
    case Lines(_) => info
  }

  /** The header keys a strategy may set. */
  function HeaderKeys(k: Kind): set<string>
  {
    match k
    case Safra => {"banco", "conta"}
    case Daycoval => {"banco", "agencia"}
    case Lines(_) => {}
    case _ => {"banco"}
  }

  /** The bank name a strategy writes, in its header and in its rows. */
  function BankName(k: Kind): string
  {
    match k
    case Safra => "BANCO SAFRA"
    case Daycoval => "BANCO DAYCOVAL"
    case Bv => "BANCO BV"
    case Citi => "CITIBANK"
    case Lines(bank) => bank
  }

  /** The header lines of one page read in order. */
  function LinesHeader(k: Kind, info: Info, lines: seq<string>): (r: Info)
    ensures r.Keys <= info.Keys + HeaderKeys(k)
    ensures "banco" in r ==> r["banco"] == BankName(k) || ("banco" in info && r["banco"] == info["banco"])
  {
    if |lines| == 0 then info
    else HeaderStep(k, LinesHeader(k, info, lines[..|lines| - 1]), lines[|lines| - 1])
  }

  /** The header fields after all pages: each page with text contributes its first lines. */
  function PagesHeader(k: Kind, pages: seq<Page>): (r: Info)
    ensures r.Keys <= HeaderKeys(k)
    ensures "banco" in r ==> r["banco"] == BankName(k)
  {
    if |pages| == 0 then map[]
    else
      var info := PagesHeader(k, pages[..|pages| - 1]);
      var p := pages[|pages| - 1];
      if HasText(p.text) then LinesHeader(k, info, Take(PageLines(p.text), HeaderLines(k))) else info
  }

  // ---------------------------------------------------------------------
  // Safra.

  const SafraSkips: seq<string> := ["SALDO INICIAL", "SALDO DISP", "SALDO ANTERIOR", "SALDO CONTA"]

  /**
   * A Safra line: balance lines are skipped; the stripped line must be
   * `dd/mm description 1234,56`; the date takes the current year, the
   * amount has a decimal comma, and a description naming a balance is
   * skipped.
   */
  function SafraTxn(c: Ctx, line: string): (r: Option<Txn>)
    ensures r.Some? ==> r.value.banco == "BANCO SAFRA" && r.value.saldo.None?
    ensures r.Some? ==> !ContainsAny(Upper(line), SafraSkips) && !ContainsAny(Upper(r.value.historico), BalanceWords)
  {
    if ContainsAny(Upper(line), SafraSkips) then None
    else
      var s := Strip(line);
      match ReMatch(SafraLine, s)
      case None => None
      case Some(m) =>
        var desc := Strip(Group(s, m, 2));
        if ContainsAny(Upper(desc), BalanceWords) then None
        else
          var d := Strptime(Group(s, m, 1) + "/" + NatToString(c.year));
          var v := CommaFloat(Group(s, m, 3));
          if d.None? || v.None? then None
          else Some(Txn(d.value, desc, v.value, None, "BANCO SAFRA"))
  }

  /** A Safra amount is never negative: the pattern reads only digits and a comma. */
  lemma SafraUnsigned(c: Ctx, line: string)
    ensures SafraTxn(c, line).Some? ==> SafraTxn(c, line).value.valor >= 0
  {
    var s := Strip(line);
    if ReMatch(SafraLine, s).Some? {
      LinesWithin();
      MatchAmountUnsigned(SafraLine, s, 3);
      UnsignedReadings(Group(s, ReMatch(SafraLine, s).value, 3));
    }
  }

  // ---------------------------------------------------------------------
  // Daycoval.

  /** `[\d.,]+$`, a cell that looks like an amount. */
  const AmountOnly: Re := Cat(BrAmount, Eol)

  /** What the loop over a row's cells has gathered: the amount read last and the description parts. */
  datatype Gathered = Gathered(value: int, parts: seq<string>)

  /**
   * The cells after the date: each non-blank cell either sets the amount
   * (when it looks like one and parses in the Brazilian convention) or is
   * added to the description.
   */
  function CellsRead(cells: seq<Cell>): (g: Gathered)
    ensures |g.parts| <= |cells|
  {
    if |cells| == 0 then Gathered(0, [])
    else
      var prev := CellsRead(cells[..|cells| - 1]);
      var cell := cells[|cells| - 1];
      if !Filled(cell) || Strip(cell.value) == "" then prev
      else
        var s := Strip(cell.value);
        if ReMatch(AmountOnly, s).Some? && BrFloat(s).Some? then Gathered(BrFloat(s).value, prev.parts)
        else Gathered(prev.value, prev.parts + [s])
  }

  /** The amount gathered is never negative: a cell that looks like an amount has no minus sign. */
  lemma {:induction false} CellsReadUnsigned(cells: seq<Cell>)
    ensures CellsRead(cells).value >= 0
  {
    if |cells| > 0 {
      CellsReadUnsigned(cells[..|cells| - 1]);
      var cell := cells[|cells| - 1];
      if Filled(cell) && ReMatch(AmountOnly, Strip(cell.value)).Some? {
        AmountOnlyUnsigned(Strip(cell.value));
      }
    }
  }

  /** A text that `[\d.,]+$` matches as a whole has no minus sign, so it never reads as a negative amount. */
  lemma AmountOnlyUnsigned(s: string)
    requires ReMatch(AmountOnly, s).Some?
    ensures BrFloat(s).Some? ==> BrFloat(s).value >= 0
  {
    AmountOnlyNoMinus(s);
    UnsignedReadings(s);
  }

  /** A line the amount-only pattern matches holds no minus sign. */
  lemma AmountOnlyNoMinus(s: string)
    requires ReMatch(AmountOnly, s).Some?
    ensures '-' !in s
  {
    var hs := Run(AmountOnly, s, 0, map[]);
    AmountOnlyEnds(s);
    AmountOnlySpans(s);
    assert hs[0] in hs;
    AmountSpan(s, hs[0].end);
  }

  /** Every way the amount-only pattern matches ends at the end of the text or before a final newline. */
  lemma AmountOnlyEnds(s: string)
    ensures forall h | h in Run(AmountOnly, s, 0, map[]) :: h.end == |s| || (h.end + 1 == |s| && s[h.end] == '\n')
  {
    assert Run(AmountOnly, s, 0, map[]) == RunAll(Eol, s, Run(BrAmount, s, 0, map[]), 0);
    RunAllEol(s, Run(BrAmount, s, 0, map[]), 0);
  }

  /** Every way the amount-only pattern matches consumes only `[\d.,]`. */
  lemma AmountOnlySpans(s: string)
    ensures forall h | h in Run(AmountOnly, s, 0, map[]) :: SpanIn(s, 0, h.end, AmountClass)
  {
    AmountsWithin();
    RunWithin(AmountOnly, s, 0, map[], 0, AmountClass);
  }

  /** Text within `[\d.,]` up to its end, or up to a final newline, has no minus sign. */
  lemma AmountSpan(s: string, e: nat)
    requires e <= |s| && SpanIn(s, 0, e, AmountClass) && (e == |s| || (e + 1 == |s| && s[e] == '\n'))
    ensures '-' !in s
  {
    assert !In('-', AmountClass) by {
      assert !In('-', Among(".,")) && !In('-', Digit);
    }
    forall t | 0 <= t < |s| ensures s[t] != '-' {
      if t < e {
        assert In(s[t], AmountClass);
      }
    }
  }

  /**
   * A Daycoval table row: at least three cells, a first cell starting with
   * dd/mm/yyyy that is a date as a whole, and a non-zero amount among the
   * other cells; the description is the other non-blank cells joined by
   * spaces.
   */
  function DaycovalRow(c: Ctx, row: TableRow): (r: Option<Txn>)
    ensures r.Some? ==> r.value.banco == "BANCO DAYCOVAL" && r.value.saldo.None?
    ensures r.Some? ==> |row| >= 3 && r.value.valor == CellsRead(row[1..]).value != 0
  {
    if |row| < 3 then None
    else
      var ds := Strip(CellText(row[0]));
      if ReMatch(FullDate, ds).None? then None
      else
        var g := CellsRead(row[1..]);
        if g.value == 0 then None
        else
          match Strptime(ds)
          case None => None
          case Some(d) => Some(Txn(d, Join(" ", g.parts), g.value, None, "BANCO DAYCOVAL"))
  }

  /** Daycoval rows are always credits: the amount is never negative and a zero amount drops the row. */
  lemma DaycovalCredits(c: Ctx, row: TableRow)
    ensures DaycovalRow(c, row).Some? ==> DaycovalRow(c, row).value.valor > 0
  {
    if |row| >= 3 {
      CellsReadUnsigned(row[1..]);
    }
  }

  /** A Daycoval table: the rows after the first row with a cell mentioning "DATA". */
  function DaycovalTable(c: Ctx, table: Table): seq<Txn>
  {
    if |table| < 2 then []
    else
      match HeaderRow(table, ["DATA"])
      case None => []
      case Some(h) => Scan.Collect(c, table[h + 1..], DaycovalRow)
  }

  // ---------------------------------------------------------------------
  // BV.

  /** One BV pattern tried on a stripped line; a balance description or a bad date or amount gives nothing. */
  function BvRead(c: Ctx, s: string, r: Re): (t: Option<Txn>)
    ensures t.Some? ==> t.value.banco == "BANCO BV" && t.value.saldo.None? && !ContainsAny(Upper(t.value.historico), BalanceWords)
  {
    match ReMatch(r, s)
    case None => None
    case Some(m) =>
      var desc := Strip(Group(s, m, 2));
      if ContainsAny(Upper(desc), BalanceWords) then None
      else
        var ds := Group(s, m, 1);
        var full := if |ds| == 5 then ds + "/" + NatToString(c.year) else ds;
        var d := Strptime(full);
        var v := BrFloat(Group(s, m, 3));
        if d.None? || v.None? then None
        else Some(Txn(d.value, desc, v.value, None, "BANCO BV"))
  }

  /** A BV line: the full-date pattern, and when it gives nothing, the short-date pattern. */
  function BvTxn(c: Ctx, line: string): (t: Option<Txn>)
    ensures t.Some? ==> t.value.banco == "BANCO BV" && !ContainsAny(Upper(t.value.historico), BalanceWords)
  {
    var s := Strip(line);
    match BvRead(c, s, FullLine)
    case Some(t) => Some(t)
    case None => BvRead(c, s, ShortLine)
  }

  lemma BvReadUnsigned(c: Ctx, s: string, r: Re)
    requires GroupWithin(r, 3, AmountClass)
    ensures BvRead(c, s, r).Some? ==> BvRead(c, s, r).value.valor >= 0
  {
    MatchAmountUnsigned(r, s, 3);
    if ReMatch(r, s).Some? {
      UnsignedReadings(Group(s, ReMatch(r, s).value, 3));
    }
  }

  /** A BV amount is never negative. */
  lemma BvUnsigned(c: Ctx, line: string)
    ensures BvTxn(c, line).Some? ==> BvTxn(c, line).value.valor >= 0
  {
    LinesWithin();
    BvReadUnsigned(c, Strip(line), FullLine);
    BvReadUnsigned(c, Strip(line), ShortLine);
  }

  // ---------------------------------------------------------------------
  // Citibank.

  /** The Citibank header classification, first rule first. */
  function CitiClassify(u: string): Option<string>
  {
    if Contains(u, "DATE") then Some("data")
    else if ContainsAny(u, ["DESCRIPTION", "TRANSACTION"]) then Some("historico")
    else if Contains(u, "AMOUNT") then Some("valor")
    else if Contains(u, "BALANCE") then Some("saldo")
    else None
  }

  const CitiKeywords: seq<string> := ["DATE", "DESCRIPTION", "AMOUNT", "BALANCE"]

  datatype CitiEnv = CitiEnv(ctx: Ctx, cols: ColMap)

  /**
   * The balance of a Citibank row: nothing without a balance column or
   * with an empty cell, the amount reading of the cell otherwise (nothing
   * when it does not parse); `None` outside the row, which drops the row.
   */
  function CitiSaldo(row: TableRow, cols: ColMap): Option<Option<int>>
  {
    if "saldo" !in cols then Some(None)
    else if cols["saldo"] >= |row| then None
    else
      var cell := row[cols["saldo"]];
      if Filled(cell) then Some(CellAmount(Strip(cell.value))) else Some(None)
  }

  /**
   * A Citibank row: at least three cells, mapped date and amount columns, a
   * date cell that starts with dd/mm/yyyy and is a date as a whole, and an
   * amount that parses; the balance is optional.
   */
  function CitiRow(env: CitiEnv, row: TableRow): (r: Option<Txn>)
    ensures r.Some? ==> r.value.banco == "CITIBANK" && |row| >= 3
    ensures r.Some? ==> "data" in env.cols && "valor" in env.cols
    ensures r.Some? && "saldo" !in env.cols ==> r.value.saldo.None?
  {
    if |row| < 3 || "data" !in env.cols || "valor" !in env.cols then None
    else
      var ds := Column(row, env.cols, "data");
      var hs := if "historico" in env.cols then Column(row, env.cols, "historico") else Some("");
      var vs := Column(row, env.cols, "valor");
      var saldo := CitiSaldo(row, env.cols);
      if ds.None? || hs.None? || vs.None? || saldo.None? || ReMatch(FullDate, ds.value).None? then None
      else
        var d := Strptime(ds.value);
        var v := CellAmount(vs.value);
        if d.None? || v.None? then None
        else Some(Txn(d.value, hs.value, v.value, saldo.value, "CITIBANK"))
  }

  /** A Citibank table: header row by the English keywords, then the rows after it. */
  function CitiTable(c: Ctx, table: Table): seq<Txn>
  {
    if |table| < 2 then []
    else
      match HeaderRow(table, CitiKeywords)
      case None => []
      case Some(h) => Scan.Collect(CitiEnv(c, MapColumns(table[h], CitiClassify)), table[h + 1..], CitiRow)
  }

  // ---------------------------------------------------------------------
  // Generic line strategy.

  datatype LineEnv = LineEnv(ctx: Ctx, bank: string)

  const LineSkips: seq<string> := ["SALDO INICIAL", "SALDO ANTERIOR"]

  /** One matched generic line: a short date takes the current year, the amount is read in the Brazilian convention. */
  function LineRead(env: LineEnv, s: string, m: Match): (t: Option<Txn>)
    ensures t.Some? ==> t.value.banco == env.bank && t.value.saldo.None?
  {
    var ds := Group(s, m, 1);
    var full := if |ds| <= 5 then ds + "/" + NatToString(env.ctx.year) else ds;
    var d := Strptime(full);
    var v := BrFloat(Group(s, m, 3));
    if d.None? || v.None? then None
    else Some(Txn(d.value, Strip(Group(s, m, 2)), v.value, None, env.bank))
  }

  /**
   * `_parse_line_transaction`: balance lines are skipped; the first of the
   * full-date and short-date patterns that matches the stripped line
   * decides, and a date or amount that does not parse gives nothing.
   */
  function LineTxn(env: LineEnv, line: string): (t: Option<Txn>)
    ensures t.Some? ==> t.value.banco == env.bank && !ContainsAny(Upper(line), LineSkips)
  {
    if ReMatch(LineStart, line).None? || ContainsAny(Upper(line), LineSkips) then None
    else
      var s := Strip(line);
      match ReMatch(FullLine, s)
      case Some(m) => LineRead(env, s, m)
      case None =>
        match ReMatch(ShortLine, s)
        case Some(m) => LineRead(env, s, m)
        case None => None
  }

  lemma LineReadUnsigned(env: LineEnv, s: string, r: Re)
    requires GroupWithin(r, 3, AmountClass) && ReMatch(r, s).Some?
    ensures LineRead(env, s, ReMatch(r, s).value).Some? ==> LineRead(env, s, ReMatch(r, s).value).value.valor >= 0
  {
    MatchAmountUnsigned(r, s, 3);
    UnsignedReadings(Group(s, ReMatch(r, s).value, 3));
  }

  /** A generic line amount is never negative. */
  lemma LineUnsigned(env: LineEnv, line: string)
    ensures LineTxn(env, line).Some? ==> LineTxn(env, line).value.valor >= 0
  {
    var s := Strip(line);
    if ReMatch(FullLine, s).Some? {
      LineReadsUnsigned(env, s, true);
    } else if ReMatch(ShortLine, s).Some? {
      LineReadsUnsigned(env, s, false);
    }
  }

  /** The full or the short line pattern, whichever matched, reads an amount that is not negative. */
  lemma LineReadsUnsigned(env: LineEnv, s: string, full: bool)
    requires ReMatch(if full then FullLine else ShortLine, s).Some?
    ensures var r := if full then FullLine else ShortLine;
      LineRead(env, s, ReMatch(r, s).value).Some? ==> LineRead(env, s, ReMatch(r, s).value).value.valor >= 0
  {
    LinesWithin();
    LineReadUnsigned(env, s, if full then FullLine else ShortLine);
  }

  // ---------------------------------------------------------------------
  // The strategies over pages.

  /** The rows one strategy reads from a page with text. */
  function KindRows(e: StratEnv, p: Page): (ts: seq<Txn>)
    requires HasText(p.text)
  {
    var lines := PageLines(p.text);
    match e.kind
    case Safra => Scan.Collect(e.ctx, lines, SafraTxn)
    case Daycoval => Scan.FlatMap(e.ctx, p.tables, DaycovalTable)
    case Bv => Scan.Collect(e.ctx, lines, BvTxn)
    case Citi => Scan.FlatMap(e.ctx, p.tables, CitiTable)
    case Lines(bank) => Scan.Collect(LineEnv(e.ctx, bank), lines, LineTxn)
  }

  /** Pages without text are skipped (`if not text: continue`). */
  function PageRows(e: StratEnv, p: Page): seq<Txn>
  {
    if HasText(p.text) then KindRows(e, p) else []
  }

  /** Some page's `extract_text()` raises. */
  predicate AnyRaises(pages: seq<Page>)
  {
    exists i | 0 <= i < |pages| :: pages[i].text.Raises?
  }

  /** A text strategy over a document: it raises when the file does not open or a page's text cannot be read. */
  function TextStrategy(k: Kind, doc: Document, year: nat): (o: Outcome)
    ensures o.Raised? <==> doc.pages.None? || AnyRaises(doc.pages.value)
    ensures o.Produced? ==> WellFormed(o.frame) && o.info.Keys <= HeaderKeys(k)
  {
    if doc.pages.None? || AnyRaises(doc.pages.value) then Raised
    else
      var e := StratEnv(k, Ctx(doc.name, year));
      Produced(TxnFrame(e.ctx, Scan.FlatMap(e, doc.pages.value, PageRows), Wide(k)), PagesHeader(k, doc.pages.value))
  }

  /** The generic table strategy with its own column classification and skip list. */
  function EnhancedClassify(u: string): Option<string>
  {
    if ContainsAny(u, ["DATA", "DATE", "LANÇAMENTO"]) then Some("data")
    else if ContainsAny(u, ["HISTÓRICO", "HISTORICO", "DESCRIÇÃO", "DESCRIPTION"]) then Some("historico")
    else if Contains(u, "VALOR") || Contains(u, "AMOUNT") then Some("valor")
    else if Contains(u, "SALDO") || Contains(u, "BALANCE") then Some("saldo")
    else if ContainsAny(u, ["DOCUMENTO", "DOC", "NÚMERO"]) then Some("documento")
    else None
  }

  function EnhancedTable(bank: string): TableSpec
  {
    TableSpec(["DATA", "VALOR", "HISTÓRICO", "SALDO"], EnhancedClassify, ["SALDO INICIAL", "SALDO ANTERIOR"], bank)
  }

  /** The six strategies' outcomes, in the order they are tried. */
  function Outcomes(doc: Document, year: nat, bank: string): (outs: seq<Outcome>)
    ensures |outs| == 6 && AllWellFormed(outs)
  {
    [TextStrategy(Safra, doc, year), TextStrategy(Daycoval, doc, year), TextStrategy(Bv, doc, year),
     TextStrategy(Citi, doc, year), TableStrategy(EnhancedTable(bank), doc, year), TextStrategy(Lines(bank), doc, year)]
  }

  /** `extract_statement` */
  function ExtractStatement(doc: Document, year: nat, bank: string): (Frame, Info)
  {
    Conclude(Outcomes(doc, year, bank), map["banco" := bank])
  }

  // ---------------------------------------------------------------------
  // The loops.

  /** The loop over a page's first lines that fills the header fields. */
  method ReadHeader(k: Kind, info: Info, lines: seq<string>) returns (r: Info)
    ensures r == LinesHeader(k, info, lines)
  {
    r := info;
    var i := 0;
    while i < |lines|
      invariant 0 <= i <= |lines|
      invariant r == LinesHeader(k, info, lines[..i])
    {
      LinesHeaderSnoc(k, info, lines, i);
      r := HeaderStep(k, r, lines[i]);
      i := i + 1;
    }
    assert lines[..i] == lines;
  }

  lemma LinesHeaderSnoc(k: Kind, info: Info, lines: seq<string>, i: nat)
    requires i < |lines|
    ensures LinesHeader(k, info, lines[..i + 1]) == HeaderStep(k, LinesHeader(k, info, lines[..i]), lines[i])
  {
    assert lines[..i + 1][..i] == lines[..i];
  }

  /** The loop over a Daycoval row's cells after the date. */
  method ReadCells(cells: seq<Cell>) returns (g: Gathered)
    ensures g == CellsRead(cells)
  {
    var value := 0;
    var parts: seq<string> := [];
    var i := 0;
    while i < |cells|
      invariant 0 <= i <= |cells|
      invariant Gathered(value, parts) == CellsRead(cells[..i])
    {
      assert cells[..i + 1][..i] == cells[..i];
      var cell := cells[i];
      if Filled(cell) && Strip(cell.value) != "" {
        var s := Strip(cell.value);
        if ReMatch(AmountOnly, s).Some? && BrFloat(s).Some? {
          value := BrFloat(s).value;
        } else {
          parts := parts + [s];
        }
      }
      i := i + 1;
    }
    assert cells[..i] == cells;
    g := Gathered(value, parts);
  }

  method ReadDaycovalRow(c: Ctx, row: TableRow) returns (t: Option<Txn>)
    ensures t == DaycovalRow(c, row)
  {
    if |row| < 3 {
      return None;
    }
    var ds := Strip(CellText(row[0]));
    if ReMatch(FullDate, ds).None? {
      return None;
    }
    var g := ReadCells(row[1..]);
    if g.value == 0 {
      return None;
    }
    var d := Strptime(ds);
    if d.None? {
      return None;
    }
    return Some(Txn(d.value, Join(" ", g.parts), g.value, None, "BANCO DAYCOVAL"));
  }

  method ScanDaycovalTable(c: Ctx, table: Table) returns (ts: seq<Txn>)
    ensures ts == DaycovalTable(c, table)
  {
    if |table| < 2 {
      return [];
    }
    var h := FindHeaderRow(table, ["DATA"]);
    if h.None? {
      return [];
    }
    ts := ReadDaycovalRows(c, table[h.value + 1..]);
  }

  /** The loop over the rows below a Daycoval header row. */
  method ReadDaycovalRows(c: Ctx, rows: seq<TableRow>) returns (ts: seq<Txn>)
    ensures ts == Scan.Collect(c, rows, DaycovalRow)
  {
    ts := [];
    var i := 0;
    while i < |rows|
      invariant 0 <= i <= |rows|
      invariant ts == Scan.Collect(c, rows[..i], DaycovalRow)
    {
      ts := ReadDaycovalNext(c, rows, i, ts);
      i := i + 1;
    }
    assert rows[..i] == rows;
  }

  /** One turn of the row loop: the row's transaction, when it reads, joins those of the rows before it. */
  method ReadDaycovalNext(c: Ctx, rows: seq<TableRow>, i: nat, ts: seq<Txn>) returns (more: seq<Txn>)
    requires i < |rows| && ts == Scan.Collect(c, rows[..i], DaycovalRow)
    ensures more == Scan.Collect(c, rows[..i + 1], DaycovalRow)
  {
    var t := ReadDaycovalRow(c, rows[i]);
    Scan.CollectStep(c, rows, i, DaycovalRow, ts, t);
    more := ts + if t.Some? then [t.value] else [];
  }

  method ScanCitiTable(c: Ctx, table: Table) returns (ts: seq<Txn>)
    ensures ts == CitiTable(c, table)
  {
    if |table| < 2 {
      return [];
    }
    var h := FindHeaderRow(table, CitiKeywords);
    if h.None? {
      return [];
    }
    var cols := MapColumnsLoop(table[h.value], CitiClassify);
    ts := Scan.CollectLoop(CitiEnv(c, cols), table[h.value + 1..], CitiRow);
  }

  /** The loop over a page's tables, for Daycoval. */
  method ScanDaycovalTables(c: Ctx, tables: seq<Table>) returns (ts: seq<Txn>)
    ensures ts == Scan.FlatMap(c, tables, DaycovalTable)
  {
    ts := [];
    var j := 0;
    while j < |tables|
      invariant 0 <= j <= |tables|
      invariant ts == Scan.FlatMap(c, tables[..j], DaycovalTable)
    {
      assert tables[..j + 1][..j] == tables[..j];
      var more := ScanDaycovalTable(c, tables[j]);
      ts := ts + more;
      j := j + 1;
    }
    assert tables[..j] == tables;
  }

  /** The loop over a page's tables, for Citibank. */
  method ScanCitiTables(c: Ctx, tables: seq<Table>) returns (ts: seq<Txn>)
    ensures ts == Scan.FlatMap(c, tables, CitiTable)
  {
    ts := [];
    var j := 0;
    while j < |tables|
      invariant 0 <= j <= |tables|
      invariant ts == Scan.FlatMap(c, tables[..j], CitiTable)
    {
      assert tables[..j + 1][..j] == tables[..j];
      var more := ScanCitiTable(c, tables[j]);
      ts := ts + more;
      j := j + 1;
    }
    assert tables[..j] == tables;
  }

  /** The rows of one page with text, by the strategy's own loop. */
  method ReadPage(e: StratEnv, p: Page) returns (ts: seq<Txn>)
    requires HasText(p.text)
    ensures ts == KindRows(e, p)
  {
    var lines := PageLines(p.text);
    match e.kind
    case Safra => ts := Scan.CollectLoop(e.ctx, lines, SafraTxn);
    case Bv => ts := Scan.CollectLoop(e.ctx, lines, BvTxn);
    case Lines(bank) => ts := Scan.CollectLoop(LineEnv(e.ctx, bank), lines, LineTxn);
    case Daycoval => ts := ScanDaycovalTables(e.ctx, p.tables);
    case Citi => ts := ScanCitiTables(e.ctx, p.tables);
  }

  /** One page of the loop: the header lines it reads and the rows it yields. */
  method ReadPageStep(e: StratEnv, info: Info, p: Page) returns (info': Info, more: seq<Txn>)
    ensures info' == (if HasText(p.text) then LinesHeader(e.kind, info, Take(PageLines(p.text), HeaderLines(e.kind))) else info)
    ensures more == PageRows(e, p)
  {
    info', more := info, [];
    if HasText(p.text) {
      info' := ReadHeader(e.kind, info, Take(PageLines(p.text), HeaderLines(e.kind)));
      more := ReadPage(e, p);
    }
  }

  /** One more page extends the rows and the header by that page's own. */
  lemma PagesSnoc(e: StratEnv, pages: seq<Page>, i: nat)
    requires i < |pages| && !AnyRaises(pages[..i]) && !pages[i].text.Raises?
    ensures !AnyRaises(pages[..i + 1])
    ensures Scan.FlatMap(e, pages[..i + 1], PageRows) == Scan.FlatMap(e, pages[..i], PageRows) + PageRows(e, pages[i])
    ensures PagesHeader(e.kind, pages[..i + 1])
         == (if HasText(pages[i].text) then LinesHeader(e.kind, PagesHeader(e.kind, pages[..i]), Take(PageLines(pages[i].text), HeaderLines(e.kind)))
             else PagesHeader(e.kind, pages[..i]))
  {
    assert pages[..i + 1][..i] == pages[..i];
  }

  /** The loop over pages: it stops at the first page whose text raises. */
  method ReadPages(e: StratEnv, pages: seq<Page>) returns (raised: bool, ts: seq<Txn>, info: Info)
    ensures raised == AnyRaises(pages)
    ensures !raised ==> ts == Scan.FlatMap(e, pages, PageRows) && info == PagesHeader(e.kind, pages)
  {
    ts, info := [], map[];
    var i := 0;
    while i < |pages|
      invariant 0 <= i <= |pages|
      invariant !AnyRaises(pages[..i])
      invariant ts == Scan.FlatMap(e, pages[..i], PageRows)
      invariant info == PagesHeader(e.kind, pages[..i])
    {
      if pages[i].text.Raises? {
        assert AnyRaises(pages);
        return true, ts, info;
      }
      PagesSnoc(e, pages, i);
      var more;
      info, more := ReadPageStep(e, info, pages[i]);
      ts := ts + more;
      i := i + 1;
    }
    assert pages[..i] == pages;
    raised := false;
  }

  /** A text strategy run by its loops: a page whose text raises ends it, a page without text is skipped. */
  method RunTextStrategy(k: Kind, doc: Document, year: nat) returns (o: Outcome)
    ensures o == TextStrategy(k, doc, year)
  {
    if doc.pages.None? {
      return Raised;
    }
    var e := StratEnv(k, Ctx(doc.name, year));
    var raised, ts, info := ReadPages(e, doc.pages.value);
    if raised {
      return Raised;
    }
    o := Produced(TxnFrame(e.ctx, ts, Wide(k)), info);
  }

  /** `extract_statement`: the six strategies in turn, then the selection. */
  method RunExtractStatement(doc: Document, year: nat, bank: string) returns (df: Frame, info: Info)
    ensures (df, info) == ExtractStatement(doc, year, bank)
  {
    var safra := RunTextStrategy(Safra, doc, year);
    var daycoval := RunTextStrategy(Daycoval, doc, year);
    var bv := RunTextStrategy(Bv, doc, year);
    var citi := RunTextStrategy(Citi, doc, year);
    var byTable := RunTableStrategy(EnhancedTable(bank), doc, year);
    var byLine := RunTextStrategy(Lines(bank), doc, year);
    var outs := [safra, daycoval, bv, citi, byTable, byLine];
    assert outs == Outcomes(doc, year, bank);
    df, info := Finish(outs, map["banco" := bank]);
  }

  /** Each strategy reports at most the bank name, an account and a branch number. */
  lemma OutcomeKeys(doc: Document, year: nat, bank: string)
    ensures forall k | 0 <= k < 6 && Outcomes(doc, year, bank)[k].Produced? ::
      Outcomes(doc, year, bank)[k].info.Keys <= {"banco", "conta", "agencia"}
  {
    var outs := Outcomes(doc, year, bank);
    forall k | 0 <= k < 6 && outs[k].Produced? ensures outs[k].info.Keys <= {"banco", "conta", "agencia"} {
      if k == 4 {
        assert outs[k].info == map[];
      } else {
        var kind := [Safra, Daycoval, Bv, Citi, Safra, Lines(bank)][k];
        assert outs[k] == TextStrategy(kind, doc, year);
        KindKeys(kind);
      }
    }
  }

  lemma KindKeys(k: Kind)
    ensures HeaderKeys(k) <= {"banco", "conta", "agencia"}
  {
  }

  /** The header holds the bank name and at most an account and a branch number: no strategy reports anything else. */
  lemma HeaderKeysBound(doc: Document, year: nat, bank: string)
    ensures ExtractStatement(doc, year, bank).1.Keys <= {"banco", "conta", "agencia"}
    ensures "banco" in ExtractStatement(doc, year, bank).1
  {
    var outs := Outcomes(doc, year, bank);
    var header := map["banco" := bank];
    OutcomeKeys(doc, year, bank);
    HeaderWithin(outs, header, {"banco", "conta", "agencia"});
    HeaderKept(outs, header);
  }
}
