/**
 * The smart generic extractor for banks without a dedicated parser: three
 * strategies (tables, regular expressions over the whole text, line by
 * line) run in turn and the one with the most rows wins.
 */
module GenericSmart {
  import opened Wrappers
  import opened Text
  import opened Numbers
  import opened Dates
  import opened Regex
  import opened Frames
  import opened Pdf
  import opened BaseExtractor
  import opened Patterns
  import opened GenericRows
  import opened Best
  import Scan

  /** The bank name of every row and of the header. */
  const Banco: string := "GENÉRICO"

  // ---------------------------------------------------------------------
  // Table strategy.

  const DataWords: seq<string> := ["DATA", "LANÇAMENTO"]
  const HistoricoWords: seq<string> := ["HISTÓRICO", "HISTORICO", "DESCRIÇÃO", "DESCRICAO", "COMPLEMENTO"]
  const DocumentoWords: seq<string> := ["DOCUMENTO", "DOC", "NÚMERO"]

  /** `_map_columns`: the key an upper-cased header cell is given, first rule first. */
  function SmartClassify(u: string): Option<string>
  {
    if ContainsAny(u, DataWords) then Some("data")
    else if ContainsAny(u, HistoricoWords) then Some("historico")
    else if Contains(u, "VALOR") && Contains(u, "R$") then Some("valor")
    else if Contains(u, "SALDO") then Some("saldo")
    else if ContainsAny(u, DocumentoWords) then Some("documento")
    else None
  }

  const SmartTable: TableSpec := TableSpec(
    ["DATA", "VALOR", "HISTÓRICO", "SALDO"],
    SmartClassify,
    ["SALDO INICIAL", "SALDO DISP", "SALDO ANTERIOR", "SALDO CONTA"],
    Banco)

  /**
   * The amount column must say both "VALOR" and "R$": a table none of whose
   * cells mentions "R$" has no amount column, so the table strategy reads
   * no row from it.
   */
  lemma NoCurrencyNoRows(ctx: Ctx, table: Table)
    requires forall r, j | 0 <= r < |table| && 0 <= j < |table[r]| && Filled(table[r][j]) :: !Contains(Upper(table[r][j].value), "R$")
    ensures TableTxns(TableEnv(SmartTable, ctx), table) == []
  {
    var h := HeaderRow(table, SmartTable.keywords);
    if |table| >= 2 && h.Some? {
      var header := table[h.value];
      var cols := MapColumns(header, SmartClassify);
      MappedLabelled(header, SmartClassify);
      assert "valor" !in cols;
      var renv := RowEnv(ctx, cols, SmartTable.skips, SmartTable.banco);
      Scan.CollectNone(renv, table[h.value + 1..], RowTxn);
    }
  }

  // ---------------------------------------------------------------------
  // Pattern strategy.

  /** The text of all pages, each followed by a newline (`text += page.extract_text() + "\n"`). */
  function JoinedText(pages: seq<Page>): (t: string)
    requires AllExtracted(pages)
    ensures |t| >= |pages|
  {
    if |pages| == 0 then ""
    else JoinedText(pages[..|pages| - 1]) + pages[|pages| - 1].text.s + "\n"
  }

  /** `(\d{2}/\d{2}/\d{4})\s+(.+?)\s+([\d.,]+)\s+([\d.,]+)`: date, description, amount, balance. */
  const BalancePattern: Re := Cat(DescAmount(FullDate, BrAmount), Cat(Spaces, Grp(4, BrAmount)))

  /** `(\d{2}/\d{2})\s+(.+?)\s+([\d.,]+)` */
  const ShortPattern: Re := DescAmount(ShortDate, BrAmount)

  /** `(\d{2}/\d{2})\s+(.+?)\s+(\d+,\d{2})` */
  const CentsPattern: Re := DescAmount(ShortDate, CentsAmount)

  /** `(\d{2}-\d{2}-\d{4})\s+(.+?)\s+([\d.,]+)` */
  const DashPattern: Re := DescAmount(DashDate, BrAmount)

  /** The four patterns, in the order they are tried. */
  const TextPatterns: seq<Re> := [BalancePattern, ShortPattern, CentsPattern, DashPattern]

  /** The text being searched, with the context the rows need. */
  datatype TextEnv = TextEnv(ctx: Ctx, text: string)

  /** One `findall` match made a transaction: a five-character date gets the year, then the date and the Brazilian amount must parse. */
  function MatchTxn(env: TextEnv, m: Match): (r: Option<Txn>)
    ensures r.Some? ==> r.value.banco == Banco && r.value.saldo.None?
    ensures r.Some? ==> r.value.historico == Strip(Group(env.text, m, 2))
  {
    var ds := Group(env.text, m, 1);
    var full := if |ds| == 5 then ds + "/" + NatToString(env.ctx.year) else ds;
    var d := Strptime(Swap(full, '-', '/'));
    var v := BrFloat(Group(env.text, m, 3));
    if d.None? || v.None? then None
    else Some(Txn(d.value, Strip(Group(env.text, m, 2)), v.value, None, Banco))
  }

  /** The transactions one pattern yields over the whole text. */
  function PatternTxns(env: TextEnv, r: Re): seq<Txn>
  {
    Scan.Collect(env, FindIter(r, env.text), MatchTxn)
  }

  /** The first pattern's non-empty yield; nothing when no pattern yields anything. */
  function FirstYield(env: TextEnv, rs: seq<Re>): seq<Txn>
  {
    Scan.FirstNonEmpty(env, rs, PatternTxns)
  }

  /** The yield is that of the first pattern with a non-empty yield, and is empty only when every pattern yields nothing. */
  lemma FirstYieldIsFirst(env: TextEnv, rs: seq<Re>)
    ensures FirstYield(env, rs) == [] <==> forall k | 0 <= k < |rs| :: PatternTxns(env, rs[k]) == []
    ensures FirstYield(env, rs) != [] ==>
      exists k | 0 <= k < |rs| ::
        && FirstYield(env, rs) == PatternTxns(env, rs[k])
        && forall j | 0 <= j < k :: PatternTxns(env, rs[j]) == []
  {
    Scan.FirstNonEmptyEmpty(env, rs, PatternTxns);
    if FirstYield(env, rs) != [] {
      Scan.FirstNonEmptyFound(env, rs, PatternTxns);
    }
  }

  /** `_extract_pattern_based`: a page without text makes `+` raise. */
  function PatternStrategy(doc: Document, year: nat): (o: Outcome)
    ensures o.Raised? <==> doc.pages.None? || !AllExtracted(doc.pages.value)
    ensures o.Produced? ==> o.info == map[] && WellFormed(o.frame)
  {
    if doc.pages.None? || !AllExtracted(doc.pages.value) then Raised
    else
      var env := TextEnv(Ctx(doc.name, year), JoinedText(doc.pages.value));
      Produced(TxnFrame(env.ctx, FirstYield(env, TextPatterns), false), map[])
  }

  /** Amounts matched by a pattern whose third group reads only `[\d.,]` are never negative. */
  lemma PatternTxnsUnsigned(env: TextEnv, r: Re)
    requires GroupWithin(r, 3, AmountClass)
    ensures forall t | t in PatternTxns(env, r) :: t.valor >= 0
  {
    var ms := FindIter(r, env.text);
    FindAmountUnsigned(r, env.text, 3);
    forall t | t in PatternTxns(env, r) ensures t.valor >= 0 {
      var i :| 0 <= i < |ms| && MatchTxn(env, ms[i]) == Some(t);
      MatchTxnUnsigned(env, ms[i]);
    }
  }

  lemma MatchTxnUnsigned(env: TextEnv, m: Match)
    requires '-' !in Group(env.text, m, 3)
    ensures MatchTxn(env, m).Some? ==> MatchTxn(env, m).value.valor >= 0
  {
    UnsignedReadings(Group(env.text, m, 3));
  }

  lemma TextPatternsUnsigned()
    ensures GroupWithin(BalancePattern, 3, AmountClass) && GroupWithin(ShortPattern, 3, AmountClass)
    ensures GroupWithin(CentsPattern, 3, AmountClass) && GroupWithin(DashPattern, 3, AmountClass)
  {
    PiecesWithin();
    assert GroupWithin(Cat(Spaces, Grp(4, BrAmount)), 3, AmountClass);
  }

  /** Whichever pattern yields first, its amounts are never negative when every pattern's third group reads only `[\d.,]`. */
  lemma FirstYieldUnsigned(env: TextEnv, rs: seq<Re>)
    requires forall r | r in rs :: GroupWithin(r, 3, AmountClass)
    ensures forall t | t in FirstYield(env, rs) :: t.valor >= 0 && t.banco == Banco
  {
    FirstYieldIsFirst(env, rs);
    if FirstYield(env, rs) != [] {
      var k :| 0 <= k < |rs| && FirstYield(env, rs) == PatternTxns(env, rs[k]);
      PatternTxnsUnsigned(env, rs[k]);
    }
  }

  /** The pattern strategy never reads a negative amount, so it never reports a debit other than zero. */
  lemma PatternRowsUnsigned(env: TextEnv)
    ensures forall t | t in FirstYield(env, TextPatterns) :: t.valor >= 0 && t.banco == Banco
  {
    TextPatternsUnsigned();
    FourWithin(BalancePattern, ShortPattern, CentsPattern, DashPattern);
    FirstYieldUnsigned(env, TextPatterns);
  }

  lemma FourWithin(a: Re, b: Re, c: Re, d: Re)
    requires GroupWithin(a, 3, AmountClass) && GroupWithin(b, 3, AmountClass)
    requires GroupWithin(c, 3, AmountClass) && GroupWithin(d, 3, AmountClass)
    ensures forall r | r in [a, b, c, d] :: GroupWithin(r, 3, AmountClass)
  {
  }

  /** The loop that joins the page texts; `None` when a page has no text. */
  method JoinPages(pages: seq<Page>) returns (text: Option<string>)
    ensures text.None? <==> !AllExtracted(pages)
    ensures text.Some? ==> text.value == JoinedText(pages)
  {
    var t := "";
    var i := 0;
    while i < |pages|
      invariant 0 <= i <= |pages|
      invariant AllExtracted(pages[..i]) && t == JoinedText(pages[..i])
    {
      assert pages[..i + 1][..i] == pages[..i];
      if !pages[i].text.Extracted? {
        return None;
      }
      t := t + pages[i].text.s + "\n";
      i := i + 1;
    }
    assert pages[..i] == pages;
    return Some(t);
  }

  /** The loop over the patterns that stops at the first one that yields. */
  method FirstYieldLoop(env: TextEnv, rs: seq<Re>) returns (ts: seq<Txn>)
    ensures ts == FirstYield(env, rs)
  {
    ts := [];
    var k := 0;
    while k < |rs|
      invariant 0 <= k <= |rs|
      invariant ts == [] && FirstYield(env, rs) == FirstYield(env, rs[k..])
    {
      var found := Scan.CollectLoop(env, FindIter(rs[k], env.text), MatchTxn);
      ts := ts + found;
      if ts != [] {
        return;
      }
      assert rs[k..][1..] == rs[k + 1..];
      k := k + 1;
    }
  }

  /** `_extract_pattern_based` */
  method RunPatternStrategy(doc: Document, year: nat) returns (o: Outcome)
    ensures o == PatternStrategy(doc, year)
  {
    if doc.pages.None? {
      return Raised;
    }
    var text := JoinPages(doc.pages.value);
    if text.None? {
      return Raised;
    }
    var env := TextEnv(Ctx(doc.name, year), text.value);
    var ts := FirstYieldLoop(env, TextPatterns);
    o := Produced(TxnFrame(env.ctx, ts, false), map[]);
  }

  // ---------------------------------------------------------------------
  // Line strategy.

  /** `^(\d{2}[/-]\d{2}(?:[/-]\d{4})?)\s+(.+?)\s+([\d.,]+)(?:\s|$)` */
  const GeneralLine: Re := Cat(Bol, Cat(DescAmount(DayMonthYear, BrAmount), Alt(Chr(Space), Eol)))

  const LineSkips: seq<string> := ["SALDO INICIAL", "SALDO DISP", "SALDO ANTERIOR"]

  /**
   * `_parse_line_transaction`: balance lines are skipped; a line of the
   * Safra shape is read with the current year and a decimal comma, and if
   * that fails the line gives nothing; otherwise the general shape is read
   * with the Brazilian amount convention.
   */
  function ParseLine(c: Ctx, line: string): (r: Option<Txn>)
    ensures r.Some? ==> r.value.banco == Banco && r.value.saldo.None?
    ensures r.Some? ==> !ContainsAny(Upper(line), LineSkips)
  {
    if ContainsAny(Upper(line), LineSkips) then None
    else
      match ReMatch(SafraLine, line)
      case Some(m) =>
        var d := Strptime(Group(line, m, 1) + "/" + NatToString(c.year));
        var v := CommaFloat(Group(line, m, 3));
        if d.None? || v.None? then None
        else Some(Txn(d.value, Strip(Group(line, m, 2)), v.value, None, Banco))
      case None =>
        match ReMatch(GeneralLine, line)
        case None => None
        case Some(m) =>
          var d := CellDate(Group(line, m, 1), c.year);
          var v := BrFloat(Group(line, m, 3));
          if d.None? || v.None? then None
          else Some(Txn(d.value, Strip(Group(line, m, 2)), v.value, None, Banco))
  }

  /** A line is parsed only when it starts with dd/dd or dd-dd. */
  function LineTxn(c: Ctx, line: string): Option<Txn>
  {
    if ReMatch(LineStart, line).Some? then ParseLine(c, line) else None
  }

  /** The transactions of one page's lines. */
  function PageLineTxns(c: Ctx, p: Page): seq<Txn>
  {
    if p.text.Extracted? then Scan.Collect(c, PageLines(p.text), LineTxn) else []
  }

  /** `_extract_line_based`: a page without text makes `split` raise. */
  function LineStrategy(doc: Document, year: nat): (o: Outcome)
    ensures o.Raised? <==> doc.pages.None? || !AllExtracted(doc.pages.value)
    ensures o.Produced? ==> o.info == map[] && WellFormed(o.frame)
  {
    if doc.pages.None? || !AllExtracted(doc.pages.value) then Raised
    else
      var ctx := Ctx(doc.name, year);
      Produced(TxnFrame(ctx, Scan.FlatMap(ctx, doc.pages.value, PageLineTxns), false), map[])
  }

  lemma LinePatternsWithin()
    ensures GroupWithin(SafraLine, 3, AmountClass) && GroupWithin(GeneralLine, 3, AmountClass)
  {
    LinesWithin();
    PiecesWithin();
    OpenEnded(DescAmount(DayMonthYear, BrAmount));
  }

  /** `^r(?:\s|$)` captures in group 3 only what `r` does. */
  lemma OpenEnded(r: Re)
    requires GroupWithin(r, 3, AmountClass)
    ensures GroupWithin(Cat(Bol, Cat(r, Alt(Chr(Space), Eol))), 3, AmountClass)
  {
  }

  lemma SafraAmountUnsigned(line: string)
    requires ReMatch(SafraLine, line).Some?
    ensures CommaFloat(Group(line, ReMatch(SafraLine, line).value, 3)).Some? ==>
      CommaFloat(Group(line, ReMatch(SafraLine, line).value, 3)).value >= 0
  {
    LinePatternsWithin();
    MatchAmountUnsigned(SafraLine, line, 3);
    UnsignedReadings(Group(line, ReMatch(SafraLine, line).value, 3));
  }

  lemma GeneralAmountUnsigned(line: string)
    requires ReMatch(GeneralLine, line).Some?
    ensures BrFloat(Group(line, ReMatch(GeneralLine, line).value, 3)).Some? ==>
      BrFloat(Group(line, ReMatch(GeneralLine, line).value, 3)).value >= 0
  {
    LinePatternsWithin();
    MatchAmountUnsigned(GeneralLine, line, 3);
    UnsignedReadings(Group(line, ReMatch(GeneralLine, line).value, 3));
  }

  /** A line never reads as a negative amount: both shapes capture only digits, '.' and ','. */
  lemma ParseLineUnsigned(c: Ctx, line: string)
    ensures ParseLine(c, line).Some? ==> ParseLine(c, line).value.valor >= 0
  {
    if ReMatch(SafraLine, line).Some? {
      SafraAmountUnsigned(line);
    } else if ReMatch(GeneralLine, line).Some? {
      GeneralAmountUnsigned(line);
    }
  }

  /** Every row of the line strategy has a non-negative amount and the generic bank name. */
  lemma LineRowsUnsigned(ctx: Ctx, pages: seq<Page>)
    ensures forall t | t in Scan.FlatMap(ctx, pages, PageLineTxns) :: t.valor >= 0 && t.banco == Banco
  {
    var ok := (t: Txn) => t.valor >= 0 && t.banco == Banco;
    forall i, t | 0 <= i < |pages| && t in PageLineTxns(ctx, pages[i]) ensures ok(t) {
      var lines := PageLines(pages[i].text);
      var k :| 0 <= k < |lines| && LineTxn(ctx, lines[k]) == Some(t);
      ParseLineUnsigned(ctx, lines[k]);
    }
    Scan.FlatMapAll(ctx, pages, PageLineTxns, ok);
  }

  /** The loop over pages and their lines; `None` when a page has no text. */
  method ScanLines(ctx: Ctx, pages: seq<Page>) returns (ts: Option<seq<Txn>>)
    ensures ts.None? <==> !AllExtracted(pages)
    ensures ts.Some? ==> ts.value == Scan.FlatMap(ctx, pages, PageLineTxns)
  {
    var acc: seq<Txn> := [];
    var i := 0;
    while i < |pages|
      invariant 0 <= i <= |pages|
      invariant AllExtracted(pages[..i]) && acc == Scan.FlatMap(ctx, pages[..i], PageLineTxns)
    {
      if !pages[i].text.Extracted? {
        return None;
      }
      ExtractedSnoc(pages, i);
      Scan.FlatMapNext(ctx, pages, i, PageLineTxns);
      var found := Scan.CollectLoop(ctx, PageLines(pages[i].text), LineTxn);
      acc := acc + found;
      i := i + 1;
    }
    assert pages[..i] == pages;
    return Some(acc);
  }

  /** `_extract_line_based` */
  method RunLineStrategy(doc: Document, year: nat) returns (o: Outcome)
    ensures o == LineStrategy(doc, year)
  {
    if doc.pages.None? {
      return Raised;
    }
    var ctx := Ctx(doc.name, year);
    var ts := ScanLines(ctx, doc.pages.value);
    if ts.None? {
      return Raised;
    }
    o := Produced(TxnFrame(ctx, ts.value, false), map[]);
  }

  // ---------------------------------------------------------------------
  // The extractor.

  /** The three strategies' outcomes, in the order they are tried. */
  function Outcomes(doc: Document, year: nat): (outs: seq<Outcome>)
    ensures |outs| == 3 && AllWellFormed(outs)
  {
    [TableStrategy(SmartTable, doc, year), PatternStrategy(doc, year), LineStrategy(doc, year)]
  }

  /** `extract_statement` */
  function ExtractStatement(doc: Document, year: nat): (Frame, Info)
  {
    Conclude(Outcomes(doc, year), map["banco" := Banco])
  }

  /** The header is exactly `{'banco': 'GENÉRICO'}`: no strategy contributes header fields. */
  lemma SmartHeader(doc: Document, year: nat)
    ensures ExtractStatement(doc, year).1 == map["banco" := Banco]
  {
    SilentStrategies(Outcomes(doc, year), map["banco" := Banco]);
  }

  /** When the tables give at least as many rows as each text strategy, and some, the result is the standardised table rows. */
  lemma TablesWinTies(doc: Document, year: nat)
    requires doc.pages.Some?
    requires var outs := Outcomes(doc, year);
      && |outs[0].frame.rows| > 0
      && (outs[1].Produced? ==> |outs[1].frame.rows| <= |outs[0].frame.rows|)
      && (outs[2].Produced? ==> |outs[2].frame.rows| <= |outs[0].frame.rows|)
    ensures ExtractStatement(doc, year).0 == Standardize(Outcomes(doc, year)[0].frame)
  {
    var outs := Outcomes(doc, year);
    var header := map["banco" := Banco];
    BestCovers(outs, header);
    BestIsFirstLargest(outs, header);
    var best := BestOf(outs, header).0;
    var k :| 0 <= k < |outs| && outs[k].Produced? && outs[k].frame == best
      && forall j | 0 <= j < k && outs[j].Produced? :: |outs[j].frame.rows| < |outs[k].frame.rows|;
    assert k == 0;
  }

  /** `extract_statement`: the three strategies, then the selection. */
  method RunExtractStatement(doc: Document, year: nat) returns (df: Frame, info: Info)
    ensures (df, info) == ExtractStatement(doc, year)
  {
    var byTable := RunTableStrategy(SmartTable, doc, year);
    var byPattern := RunPatternStrategy(doc, year);
    var byLine := RunLineStrategy(doc, year);
    df, info := Finish([byTable, byPattern, byLine], map["banco" := Banco]);
  }
}
