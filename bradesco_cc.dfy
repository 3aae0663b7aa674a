/**
 * `extract_bradesco_conta_corrente` and `BradescoCCAdapter`: a Bradesco
 * current-account statement read line by line. The header fields come from
 * the first fifteen lines of every page and accumulate across pages; each
 * transaction is a block of lines opened by a line that begins with a full
 * date, whose last two numbers are the balance and the amount.
 */
module BradescoCc {
  import opened Wrappers
  import opened Text
  import opened Numbers
  import opened Dates
  import opened Regex
  import opened Frames
  import opened Pdf
  import opened Patterns
  import opened BaseExtractor
  import Scan

  // ---------------------------------------------------------------------
  // The header.

  /** `header_info`: each field absent until a line sets it; the period is kept as text. */
  datatype Header = Header(
    cliente: Option<string>,
    cnpj: Option<string>,
    agencia: Option<string>,
    conta: Option<string>,
    periodoInicio: Option<string>,
    periodoFim: Option<string>,
    usuario: Option<string>)

  const NoHeader: Header := Header(None, None, None, None, None, None, None)

  /** `(\d{3}\.\d{3}\.\d{3}/\d{4}-\d{2})` */
  const CnpjRe: Re :=
    Grp(1, Cats([Times(Digit, 3), Lit("."), Times(Digit, 3), Lit("."), Times(Digit, 3), Lit("/"), Times(Digit, 4), Lit("-"), Times(Digit, 2)]))

  /** `Ag:\s*(\d+)` */
  const AgRe: Re := Cats([Lit("Ag:"), Star(Space), Grp(1, Plus(Digit))])

  /** `CC:\s*([\d-]+)` */
  const CcRe: Re := Cats([Lit("CC:"), Star(Space), Grp(1, Plus(Union(Digit, Among("-"))))])

  /** `Entre\s+(\d{2}/\d{2}/\d{4})\s+e\s+(\d{2}/\d{2}/\d{4})` */
  const EntreRe: Re := Cats([Lit("Entre"), Spaces, Grp(1, FullDate), Spaces, Lit("e"), Spaces, Grp(2, FullDate)])

  const UserLabel: string := "Nome do usuário:"

  /** `Nome do usuário:\s*(.+)` */
  const UserRe: Re := Cats([Lit(UserLabel), Star(Space), Grp(1, Rep(Chr(Dot), 1, Inf, true))])

  /** The line that carries agency, account and period: it mentions 'Ag:', 'CC:' and 'Entre'. */
  predicate AccountLine(line: string)
  {
    Contains(line, "Ag:") && Contains(line, "CC:") && Contains(line, "Entre")
  }

  /** `if m: field = m.group(id)`: the group of the first match, or the field as it was. */
  function Searched(r: Re, s: string, id: nat, field: Option<string>): Option<string>
  {
    match ReSearch(r, s)
    case None => field
    case Some(m) => Some(Group(s, m, id))
  }

  /** The client and CNPJ line: the name is what precedes the first '|', the CNPJ is searched after it. */
  function CnpjLine(h: Header, line: string): (out: Header)
    ensures out.(cliente := h.cliente, cnpj := h.cnpj) == h
    ensures '|' in line ==> out.cliente == Some(Strip(Split(line, '|')[0])) && '|' !in out.cliente.value
    ensures '|' !in line ==> out == h
  {
    var parts := Split(line, '|');
    JoinSplit(line, '|');
    if |parts| >= 2 then
      var cnpjPart := Strip(parts[1]);
      h.(cliente := Some(Strip(parts[0])), cnpj := Searched(CnpjRe, cnpjPart, 1, h.cnpj))
    else
      assert '|' !in line by { assert Join("|", parts) == parts[0]; }
      h
  }

  /** The agency, account and period line: each field set only when its own pattern is found. */
  function AccountFields(h: Header, line: string): (out: Header)
    ensures out.(agencia := h.agencia, conta := h.conta, periodoInicio := h.periodoInicio, periodoFim := h.periodoFim) == h
    ensures out.periodoInicio != h.periodoInicio || out.periodoFim != h.periodoFim ==> ReSearch(EntreRe, line).Some?
  {
    var p := ReSearch(EntreRe, line);
    h.(agencia := Searched(AgRe, line, 1, h.agencia),
       conta := Searched(CcRe, line, 1, h.conta),
       periodoInicio := if p.Some? then Some(Group(line, p.value, 1)) else h.periodoInicio,
       periodoFim := if p.Some? then Some(Group(line, p.value, 2)) else h.periodoFim)
  }

  /**
   * One header line, tested in the source's order: a CNPJ line only sets the
   * client and CNPJ, an account line (without 'CNPJ:') only agency, account
   * and period, and a user line (neither of those) only the user.
   */
  function HeaderLine(h: Header, line: string): (out: Header)
    ensures out.cliente != h.cliente || out.cnpj != h.cnpj ==> Contains(line, "CNPJ:")
    ensures out.agencia != h.agencia || out.conta != h.conta || out.periodoInicio != h.periodoInicio || out.periodoFim != h.periodoFim
      ==> !Contains(line, "CNPJ:") && AccountLine(line)
    ensures out.usuario != h.usuario ==> !Contains(line, "CNPJ:") && !AccountLine(line) && Contains(line, UserLabel)
    ensures Contains(line, "CNPJ:") && '|' in line ==> out.cliente == Some(Strip(Split(line, '|')[0]))
    ensures out.cliente != h.cliente ==> out.cliente == Some(Strip(Split(line, '|')[0])) && '|' !in out.cliente.value
    ensures out.usuario != h.usuario && out.usuario.Some? && |out.usuario.value| > 0 ==> !IsSpace(out.usuario.value[0])
  {
    if Contains(line, "CNPJ:") then CnpjLine(h, line)
    else if AccountLine(line) then AccountFields(h, line)
    else if Contains(line, UserLabel) then
      match ReSearch(UserRe, line)
      case None => h
      case Some(m) => h.(usuario := Some(Strip(Group(line, m, 1))))
    else h
  }

  /** `lines[:15]` */
  function HeaderLines(lines: seq<string>): (hs: seq<string>)
    ensures |hs| <= 15 && hs <= lines
  {
    if |lines| <= 15 then lines else lines[..15]
  }

  /** Every field that is set came from one of `lines` that is allowed to set it. */
  predicate Sourced(h: Header, lines: seq<string>)
  {
    && (h.cliente.Some? ==> exists l | l in lines :: Contains(l, "CNPJ:") && h.cliente.value == Strip(Split(l, '|')[0]))
    && (h.cnpj.Some? ==> exists l | l in lines :: Contains(l, "CNPJ:"))
    && (h.agencia.Some? ==> exists l | l in lines :: !Contains(l, "CNPJ:") && AccountLine(l))
    && (h.conta.Some? ==> exists l | l in lines :: !Contains(l, "CNPJ:") && AccountLine(l))
    && (h.periodoInicio.Some? ==> exists l | l in lines :: !Contains(l, "CNPJ:") && AccountLine(l))
    && (h.periodoFim.Some? ==> exists l | l in lines :: !Contains(l, "CNPJ:") && AccountLine(l))
    && (h.usuario.Some? ==> exists l | l in lines :: !Contains(l, "CNPJ:") && !AccountLine(l) && Contains(l, UserLabel))
  }

  /** A longer list of lines still sources every field. */
  lemma SourcedGrow(h: Header, lines: seq<string>, line: string)
    requires Sourced(h, lines)
    ensures Sourced(h, lines + [line])
  {
    assert forall l | l in lines :: l in lines + [line];
  }

  /** Reading one more line keeps every field sourced. */
  lemma HeaderLineSourced(h: Header, lines: seq<string>, line: string)
    requires Sourced(h, lines)
    ensures Sourced(HeaderLine(h, line), lines + [line])
  {
    var ls := lines + [line];
    SourcedGrow(h, lines, line);
    assert line in ls;
    ChangedSourced(h, HeaderLine(h, line), line, ls);
  }

  /** A header changed only as `HeaderLine` may change it, by a line of `all`, stays sourced in `all`. */
  lemma ChangedSourced(h: Header, out: Header, line: string, all: seq<string>)
    requires Sourced(h, all) && line in all
    requires out.cliente != h.cliente ==> Contains(line, "CNPJ:") && out.cliente == Some(Strip(Split(line, '|')[0]))
    requires out.cnpj != h.cnpj ==> Contains(line, "CNPJ:")
    requires out.agencia != h.agencia || out.conta != h.conta || out.periodoInicio != h.periodoInicio || out.periodoFim != h.periodoFim
      ==> !Contains(line, "CNPJ:") && AccountLine(line)
    requires out.usuario != h.usuario ==> !Contains(line, "CNPJ:") && !AccountLine(line) && Contains(line, UserLabel)
    ensures Sourced(out, all)
  {
  }

  lemma {:induction false} ThreadSourced(ls: seq<string>)
    ensures Sourced(Scan.Thread(NoHeader, ls, HeaderLine), ls)
  {
    if |ls| > 0 {
      var front := ls[..|ls| - 1];
      ThreadSourced(front);
      HeaderLineSourced(Scan.Thread(NoHeader, front, HeaderLine), front, ls[|ls| - 1]);
      assert front + [ls[|ls| - 1]] == ls;
    }
  }

  /** The header loop over `lines[:15]`, continuing from what earlier pages set. */
  method ReadHeader(h0: Header, lines: seq<string>) returns (h: Header)
    ensures h == Scan.Thread(h0, HeaderLines(lines), HeaderLine)
  {
    var hs := HeaderLines(lines);
    h := h0;
    var i := 0;
    while i < |hs|
      invariant 0 <= i <= |hs|
      invariant h == Scan.Thread(h0, hs[..i], HeaderLine)
    {
      Scan.ThreadNext(h0, hs, i, HeaderLine);
      h := HeaderLine(h, hs[i]);
      i := i + 1;
    }
    assert hs[..i] == hs;
  }

  // ---------------------------------------------------------------------
  // Transaction blocks.

  /** `re.match(r'^\d{2}/\d{2}/\d{4}', s)`: the text begins with a full date. */
  predicate Dated(s: string)
  {
    ReMatch(FullDate, s).Some?
  }

  /** `s[k:]` */
  function Tail(s: string, k: nat): string
  {
    if k <= |s| then s[k..] else ""
  }

  /**
   * Where the inner loop stops when it starts at `j`: the first line from
   * `j` on that, as it stands, begins with a date, or the end of the page.
   */
  function BlockEnd(lines: seq<string>, j: nat): (e: nat)
    requires j <= |lines|
    ensures j <= e <= |lines|
    decreases |lines| - j
  {
    if j == |lines| || Dated(lines[j]) then j else BlockEnd(lines, j + 1)
  }

  lemma BlockEndHere(lines: seq<string>, j: nat)
    requires j < |lines| && Dated(lines[j])
    ensures BlockEnd(lines, j) == j
  {
  }

  lemma BlockEndNext(lines: seq<string>, j: nat)
    requires j < |lines| && !Dated(lines[j])
    ensures BlockEnd(lines, j) == BlockEnd(lines, j + 1)
  {
  }

  /** A block runs up to, and not including, the first later line that begins with a date. */
  lemma {:induction false} BlockEndStops(lines: seq<string>, j: nat)
    requires j <= |lines|
    ensures BlockEnd(lines, j) < |lines| ==> Dated(lines[BlockEnd(lines, j)])
    ensures forall k | j <= k < BlockEnd(lines, j) :: !Dated(lines[k])
    decreases |lines| - j
  {
    if j < |lines| && !Dated(lines[j]) {
      BlockEndStops(lines, j + 1);
    }
  }

  /** The stripped non-empty lines among `lines[a..b]`, in order. */
  function Continuation(lines: seq<string>, a: nat, b: nat): (ls: seq<string>)
    requires a <= b <= |lines|
    ensures |ls| <= b - a
    ensures forall l | l in ls :: l != ""
    decreases b - a
  {
    if a == b then []
    else
      var front := Continuation(lines, a, b - 1);
      var l := Strip(lines[b - 1]);
      if l == "" then front else front + [l]
  }

  /** One more line of the block: kept, stripped, unless it is blank. */
  lemma ContinuationSnoc(lines: seq<string>, a: nat, b: nat)
    requires a <= b < |lines|
    ensures Continuation(lines, a, b + 1) ==
      if Strip(lines[b]) == "" then Continuation(lines, a, b) else Continuation(lines, a, b) + [Strip(lines[b])]
  {
  }

  /** `texto_completo`: the rest of the opening line after its date, then the block's other lines, joined by blanks. */
  function BlockText(lines: seq<string>, i: nat): string
    requires i < |lines|
  {
    Join(" ", [Strip(Tail(Strip(lines[i]), 10))] + Continuation(lines, i + 1, BlockEnd(lines, i + 1)))
  }

  /** `([\d.,]+)` */
  const NumberRun: Re := Grp(1, BrAmount)

  /** `re.findall(r'([\d.,]+)', s)`: the numeric tokens of `s`, none of which can carry a minus sign. */
  function Tokens(s: string): (vs: seq<string>)
    ensures forall k | 0 <= k < |vs| :: '-' !in vs[k]
  {
    var ms := FindIter(NumberRun, s);
    assert GroupWithin(NumberRun, 1, AmountClass) by { PiecesWithin(); }
    FindAmountUnsigned(NumberRun, s, 1);
    seq(|ms|, k requires 0 <= k < |ms| => Group(s, ms[k], 1))
  }

  /** A character that `re.sub(r'[\d.,]+', '', s)` keeps. */
  predicate Kept(c: char)
  {
    !(IsDigit(c) || c == '.' || c == ',')
  }

  /** The block's description: its text without numbers, runs of blanks collapsed, and '-' removed. */
  function Historico(texto: string): (h: string)
    ensures forall c | c in h :: Kept(c) && c != '-' && (c in texto || c == ' ')
  {
    var kept := Strip(KeepIf(texto, Kept));
    var collapsed := CollapseSpaces(kept);
    var dropped := Drop(collapsed, '-');
    var r := Strip(dropped);
    assert forall c | c in r :: Kept(c) && c != '-' && (c in texto || c == ' ') by {
      forall c | c in r
        ensures Kept(c) && c != '-' && (c in texto || c == ' ')
      {
        assert c in dropped;
        assert c in collapsed;
        if c != ' ' {
          assert c in kept;
          assert c in KeepIf(texto, Kept);
        }
      }
    }
    r
  }

  /** A block is a debit when its text has a '-' anywhere or mentions a cheque. */
  predicate Debit(texto: string)
  {
    '-' in texto || Contains(Upper(texto), "CHEQUE")
  }

  /** One transaction; `valor` is the unsigned amount, which goes to `credito` or to `debito` by `credit`. */
  datatype CcTxn = CcTxn(
    date: CalendarDate,
    historico: string,
    documento: string,
    valor: int,
    saldo: int,
    credit: bool,
    header: Header)

  /** What the `try` makes of a line that begins with a date. */
  datatype BlockRead =
    | Undated          // the line does not begin with a date
    | Raised           // the date or one of the two numbers does not convert
    | OpeningBalance   // a SALDO ANTERIOR line
    | Block(t: Option<CcTxn>)   // the block was read; a transaction only when it has two numbers

  /** The date text a dated line begins with. */
  function DateText(line: string): string
    requires Dated(line)
  {
    Whole(line, ReMatch(FullDate, line).value)
  }

  /** The `try` body for the dated line `i`, with the header as it stands. */
  function ReadBlock(h: Header, lines: seq<string>, i: nat): BlockRead
    requires i < |lines| && Dated(Strip(lines[i]))
  {
    var line := Strip(lines[i]);
    var d := Strptime(DateText(line));
    if d.None? then Raised
    else if Contains(Upper(line), "SALDO ANTERIOR") then OpeningBalance
    else ReadAmounts(h, d.value, BlockText(lines, i))
  }

  /** The block's text once its date has converted: the transaction when its last two numbers convert. */
  function ReadAmounts(h: Header, d: CalendarDate, texto: string): BlockRead
  {
    FromTokens(h, d, texto, Tokens(texto))
  }

  /** `ReadAmounts` once the numbers `vs` of the text are found. */
  function FromTokens(h: Header, d: CalendarDate, texto: string, vs: seq<string>): BlockRead
  {
    if |vs| < 2 then Block(None)
    else
      var saldo := BrFloat(vs[|vs| - 1]);
      var valor := BrFloat(vs[|vs| - 2]);
      if saldo.Some? && valor.Some? then
        Block(Some(CcTxn(d, Historico(texto), if |vs| >= 3 then vs[0] else "", valor.value, saldo.value, !Debit(texto), h)))
      else Raised
  }

  /** What the loop makes of line `i`. */
  function Reading(h: Header, lines: seq<string>, i: nat): BlockRead
    requires i < |lines|
  {
    if Dated(Strip(lines[i])) then ReadBlock(h, lines, i) else Undated
  }

  /** The reading of each of the first `n` lines of the page. */
  /** `Reading`, with the lines after the page read as undated. */
  function ReadingAt(h: Header, lines: seq<string>, i: nat): BlockRead
  {
    if i < |lines| then Reading(h, lines, i) else Undated
  }

  function Readings(h: Header, lines: seq<string>, n: nat): (rs: seq<BlockRead>)
    requires n <= |lines|
    ensures |rs| == n
  {
    Scan.Snocs(n, i => ReadingAt(h, lines, i))
  }

  lemma ReadingsAt(h: Header, lines: seq<string>, n: nat, k: nat)
    requires k < n <= |lines|
    ensures Readings(h, lines, n)[k] == Reading(h, lines, k)
  {
    Scan.SnocsAt(n, i => ReadingAt(h, lines, i), k);
  }

  /** Each jump goes forward and stays within the page. */
  predicate Forward(es: seq<nat>)
  {
    forall k | 0 <= k < |es| :: k < es[k] <= |es|
  }

  /** For every line, where the block it would open ends. */
  function Ends(lines: seq<string>): (es: seq<nat>)
    ensures |es| == |lines| && Forward(es)
  {
    seq(|lines|, k requires 0 <= k < |lines| => BlockEnd(lines, k + 1))
  }

  lemma EndsAt(lines: seq<string>, k: nat)
    requires k < |lines|
    ensures Ends(lines)[k] == BlockEnd(lines, k + 1)
  {
  }

  /**
   * The `while` loop from line `i`, given what it makes of each line and
   * where each block ends: a block read jumps past its end (`i = j - 1`,
   * then `i += 1`), any other line moves on by one.
   */
  function Walk(rs: seq<BlockRead>, es: seq<nat>, i: nat): seq<CcTxn>
    requires |es| == |rs| && Forward(es) && i <= |rs|
    decreases |rs| - i
  {
    if i == |rs| then []
    else if rs[i].Block? then (if rs[i].t.Some? then [rs[i].t.value] else []) + Walk(rs, es, es[i])
    else Walk(rs, es, i + 1)
  }

  /** The line each transaction of `Walk` was opened by. */
  ghost function WalkStarts(rs: seq<BlockRead>, es: seq<nat>, i: nat): seq<nat>
    requires |es| == |rs| && Forward(es) && i <= |rs|
    decreases |rs| - i
  {
    if i == |rs| then []
    else if rs[i].Block? then (if rs[i].t.Some? then [i] else []) + WalkStarts(rs, es, es[i])
    else WalkStarts(rs, es, i + 1)
  }

  /**
   * Each transaction of the walk comes from a block read at its own line,
   * and the next one opens no earlier than the end of the previous block.
   */
  lemma {:induction false} WalkBlocks(rs: seq<BlockRead>, es: seq<nat>, i: nat)
    requires |es| == |rs| && Forward(es) && i <= |rs|
    ensures var ts := Walk(rs, es, i); var ss := WalkStarts(rs, es, i);
      && |ss| == |ts|
      && (forall k | 0 <= k < |ss| :: i <= ss[k] < |rs| && rs[ss[k]] == Block(Some(ts[k])))
      && forall k | 0 <= k < |ss| :: OpensAfter(es, ss, k)
    decreases |rs| - i
  {
    if i < |rs| {
      var next := if rs[i].Block? then es[i] else i + 1;
      WalkBlocks(rs, es, next);
      var rest := WalkStarts(rs, es, next);
      var rts := Walk(rs, es, next);
      WalkStep(rs, es, i);
      WalkStartsStep(rs, es, i);
      if rs[i].Block? && rs[i].t.Some? {
        StartsCons(rs, es, i, rs[i].t.value, rest, rts);
      } else {
        assert WalkStarts(rs, es, i) == rest && Walk(rs, es, i) == rts;
        assert i < next;
      }
    }
  }

  /** The block opened at the `k`-th start ends no later than the next start. */
  predicate OpensAfter(es: seq<nat>, ss: seq<nat>, k: nat)
  {
    k + 1 < |ss| && ss[k] < |es| ==> es[ss[k]] <= ss[k + 1]
  }

  /** A block read at line `i` in front of the walk from the end of that block keeps the walk's description. */
  lemma StartsCons(rs: seq<BlockRead>, es: seq<nat>, i: nat, t: CcTxn, rest: seq<nat>, rts: seq<CcTxn>)
    requires |es| == |rs| && i < |rs| && i < es[i] && rs[i] == Block(Some(t)) && |rest| == |rts|
    requires forall k | 0 <= k < |rest| :: es[i] <= rest[k] < |rs| && rs[rest[k]] == Block(Some(rts[k]))
    requires forall k | 0 <= k < |rest| :: OpensAfter(es, rest, k)
    ensures var ss, ts := [i] + rest, [t] + rts;
      && (forall k | 0 <= k < |ss| :: i <= ss[k] < |rs| && rs[ss[k]] == Block(Some(ts[k])))
      && forall k | 0 <= k < |ss| :: OpensAfter(es, ss, k)
  {
    var ss, ts := [i] + rest, [t] + rts;
    forall k | 0 <= k < |ss|
      ensures i <= ss[k] < |rs| && rs[ss[k]] == Block(Some(ts[k]))
      ensures OpensAfter(es, ss, k)
    {
      if k > 0 {
        assert ss[k] == rest[k - 1] && ts[k] == rts[k - 1];
        assert OpensAfter(es, rest, k - 1);
      }
      if k + 1 < |ss| {
        assert ss[k + 1] == rest[k];
      }
    }
  }

  /** One turn of the walk. */
  lemma WalkStep(rs: seq<BlockRead>, es: seq<nat>, i: nat)
    requires |es| == |rs| && Forward(es) && i < |rs|
    ensures Walk(rs, es, i) ==
      (if rs[i].Block? && rs[i].t.Some? then [rs[i].t.value] else []) + Walk(rs, es, if rs[i].Block? then es[i] else i + 1)
  {
  }

  lemma WalkStartsStep(rs: seq<BlockRead>, es: seq<nat>, i: nat)
    requires |es| == |rs| && Forward(es) && i < |rs|
    ensures WalkStarts(rs, es, i) ==
      (if rs[i].Block? && rs[i].t.Some? then [i] else []) + WalkStarts(rs, es, if rs[i].Block? then es[i] else i + 1)
  {
  }

  /** A turn that appends what the walk reads at `i` and jumps where it jumps keeps the loop's invariant. */
  lemma WalkTurn(rs: seq<BlockRead>, es: seq<nat>, i: nat, t: Option<CcTxn>, next: nat, ts: seq<CcTxn>, whole: seq<CcTxn>)
    requires |es| == |rs| && Forward(es) && i < |rs|
    requires rs[i].Block? ==> t == rs[i].t && next == es[i]
    requires !rs[i].Block? ==> t.None? && next == i + 1
    requires ts + Walk(rs, es, i) == whole
    ensures next <= |rs|
    ensures (if t.Some? then ts + [t.value] else ts) + Walk(rs, es, next) == whole
  {
    WalkStep(rs, es, i);
    if t.Some? {
      assert ts + Walk(rs, es, i) == (ts + [t.value]) + Walk(rs, es, next);
    }
  }

  /** The transactions the loop appends for one page. */
  function Txns(h: Header, lines: seq<string>): seq<CcTxn>
  {
    Walk(Readings(h, lines, |lines|), Ends(lines), 0)
  }

  /** The lines that open the page's transactions. */
  ghost function Starts(h: Header, lines: seq<string>): seq<nat>
  {
    WalkStarts(Readings(h, lines, |lines|), Ends(lines), 0)
  }

  /** The dated line `s` opens a block that reads into the transaction `t`. */
  predicate ReadAt(h: Header, lines: seq<string>, s: nat, t: CcTxn)
  {
    s < |lines| && Dated(Strip(lines[s])) && ReadBlock(h, lines, s) == Block(Some(t))
  }

  /**
   * Every transaction of a page was read from the block opened by its own
   * dated line, and the blocks follow one another without overlapping: the
   * next one opens no earlier than where the previous one ends, so no line
   * is read into two transactions.
   */
  lemma TxnsFromBlocks(h: Header, lines: seq<string>)
    ensures var ts := Txns(h, lines); var ss := Starts(h, lines);
      && |ss| == |ts|
      && forall k | 0 <= k < |ss| ::
        && ss[k] < |lines|
        && ReadAt(h, lines, ss[k], ts[k])
        && (k + 1 < |ss| ==> BlockEnd(lines, ss[k] + 1) <= ss[k + 1])
  {
    var rs := Readings(h, lines, |lines|);
    var es := Ends(lines);
    WalkBlocks(rs, es, 0);
    forall k | 0 <= k < |Starts(h, lines)|
      ensures ReadAt(h, lines, Starts(h, lines)[k], Txns(h, lines)[k])
      ensures k + 1 < |Starts(h, lines)| ==> BlockEnd(lines, Starts(h, lines)[k] + 1) <= Starts(h, lines)[k + 1]
    {
      var s := Starts(h, lines)[k];
      ReadingsAt(h, lines, |lines|, s);
      EndsAt(lines, s);
      assert OpensAfter(es, Starts(h, lines), k);
    }
  }

  /**
   * A block read into a transaction opens with a line that is not an
   * opening balance and has at least two numbers: the last is the balance,
   * the one before it the amount (both unsigned), the first is the document
   * when there are three or more; it is a credit exactly when its text has
   * no '-' and no CHEQUE.
   */
  lemma BlockTxn(h: Header, lines: seq<string>, i: nat, t: CcTxn)
    requires ReadAt(h, lines, i, t)
    ensures var texto := BlockText(lines, i); var vs := Tokens(texto);
      && !Contains(Upper(Strip(lines[i])), "SALDO ANTERIOR")
      && |vs| >= 2
      && BrFloat(vs[|vs| - 1]) == Some(t.saldo) && t.saldo >= 0
      && BrFloat(vs[|vs| - 2]) == Some(t.valor) && t.valor >= 0
      && t.documento == (if |vs| >= 3 then vs[0] else "")
      && (t.credit <==> !Debit(texto))
      && t.historico == Historico(texto)
      && Strptime(DateText(Strip(lines[i]))).Some? && Strptime(DateText(Strip(lines[i]))).value == t.date
      && t.header == h
  {
    var vs := Tokens(BlockText(lines, i));
    UnsignedReadings(vs[|vs| - 1]);
    UnsignedReadings(vs[|vs| - 2]);
  }

  /** Every transaction of a page carries the header it was read under, and unsigned amounts. */
  lemma TxnsUnsigned(h: Header, lines: seq<string>)
    ensures forall t | t in Txns(h, lines) :: t.header == h && t.valor >= 0 && t.saldo >= 0
  {
    var ts := Txns(h, lines);
    forall t | t in ts ensures t.header == h && t.valor >= 0 && t.saldo >= 0 {
      var k :| 0 <= k < |ts| && ts[k] == t;
      TxnUnsigned(h, lines, k);
    }
  }

  lemma TxnUnsigned(h: Header, lines: seq<string>, k: nat)
    requires k < |Txns(h, lines)|
    ensures var t := Txns(h, lines)[k]; t.header == h && t.valor >= 0 && t.saldo >= 0
  {
    TxnsFromBlocks(h, lines);
    BlockUnsigned(h, lines, Starts(h, lines)[k], Txns(h, lines)[k]);
  }

  lemma BlockUnsigned(h: Header, lines: seq<string>, i: nat, t: CcTxn)
    requires ReadAt(h, lines, i, t)
    ensures t.header == h && t.valor >= 0 && t.saldo >= 0
  {
    BlockTxn(h, lines, i, t);
  }

  /**
   * The inner loop: `head`, the rest of the opening line `i`, then the
   * block's lines from `i + 1` up to the next line that begins with a date.
   */
  method CollectBlock(lines: seq<string>, i: nat, head: string) returns (parts: seq<string>, j: nat)
    requires i < |lines|
    ensures j == BlockEnd(lines, i + 1)
    ensures parts == [head] + Continuation(lines, i + 1, j)
  {
    parts := [head];
    j := i + 1;
    while j < |lines|
      invariant i + 1 <= j <= |lines|
      invariant BlockEnd(lines, j) == BlockEnd(lines, i + 1)
      invariant parts == [head] + Continuation(lines, i + 1, j)
    {
      if Dated(lines[j]) {
        BlockEndHere(lines, j);
        break;
      }
      BlockEndNext(lines, j);
      ContinuationStep(lines, i + 1, j, head, parts);
      var l := Strip(lines[j]);
      if l != "" {
        parts := parts + [l];
      }
      j := j + 1;
    }
  }

  lemma ContinuationStep(lines: seq<string>, a: nat, j: nat, head: string, parts: seq<string>)
    requires a <= j < |lines| && parts == [head] + Continuation(lines, a, j)
    ensures (if Strip(lines[j]) != "" then parts + [Strip(lines[j])] else parts) == [head] + Continuation(lines, a, j + 1)
  {
    ContinuationSnoc(lines, a, j);
    if Strip(lines[j]) != "" {
      assert parts + [Strip(lines[j])] == [head] + (Continuation(lines, a, j) + [Strip(lines[j])]);
    }
  }

  /**
   * One turn of the loop body at line `i`, as the source writes it: the
   * transaction appended, if any, and the next `i`.
   */
  method Turn(h: Header, lines: seq<string>, i: nat) returns (t: Option<CcTxn>, next: nat)
    requires i < |lines|
    ensures var r := Reading(h, lines, i);
      && (if r.Block? then t == r.t && next == BlockEnd(lines, i + 1) else t.None? && next == i + 1)
  {
    var line := Strip(lines[i]);
    if ReMatch(FullDate, line).Some? {
      assert Reading(h, lines, i) == ReadBlock(h, lines, i);
      t, next := TurnDated(h, lines, i);
    } else {
      assert Reading(h, lines, i) == Undated;
      t, next := None, i + 1;
    }
  }

  /** The `try` body of `Turn` for a line that begins with a date. */
  method TurnDated(h: Header, lines: seq<string>, i: nat) returns (t: Option<CcTxn>, next: nat)
    requires i < |lines| && Dated(Strip(lines[i]))
    ensures var r := ReadBlock(h, lines, i);
      && (if r.Block? then t == r.t && next == BlockEnd(lines, i + 1) else t.None? && next == i + 1)
  {
    var line := Strip(lines[i]);
    var d := Strptime(DateText(line));
    // A date that does not convert raises; the handler only lets `i` advance.
    if d.None? {
      assert ReadBlock(h, lines, i) == Raised;
      t, next := None, i + 1;
    } else if Contains(Upper(line), "SALDO ANTERIOR") {
      assert ReadBlock(h, lines, i) == OpeningBalance;
      t, next := None, i + 1;
    } else {
      t, next := TurnBlock(h, lines, i, d.value);
    }
  }

  /** The rest of the `try` body, once the date has converted and the line is no opening balance. */
  method TurnBlock(h: Header, lines: seq<string>, i: nat, d: CalendarDate) returns (t: Option<CcTxn>, next: nat)
    requires i < |lines| && Dated(Strip(lines[i]))
    requires Strptime(DateText(Strip(lines[i]))).Some? && Strptime(DateText(Strip(lines[i]))).value == d
    requires !Contains(Upper(Strip(lines[i])), "SALDO ANTERIOR")
    ensures var r := ReadBlock(h, lines, i);
      && (if r.Block? then t == r.t && next == BlockEnd(lines, i + 1) else t.None? && next == i + 1)
  {
    var parts, j := CollectBlock(lines, i, Strip(Tail(Strip(lines[i]), 10)));
    var texto := Join(" ", parts);
    assert ReadBlock(h, lines, i) == ReadAmounts(h, d, texto);
    t, next := TurnAmounts(h, d, texto, i, j);
  }

  /** The numbers of the block's text; `i` jumps to `j - 1` when the block was read. */
  method TurnAmounts(h: Header, d: CalendarDate, texto: string, i: nat, j: nat) returns (t: Option<CcTxn>, next: nat)
    requires i < j
    ensures var r := ReadAmounts(h, d, texto);
      && (if r.Block? then t == r.t && next == j else t.None? && next == i + 1)
  {
    var vs := Tokens(texto);
    t, next := TurnTokens(h, d, texto, vs, i, j);
  }

  /** `TurnAmounts` once the numbers `vs` of the text are found. */
  method TurnTokens(h: Header, d: CalendarDate, texto: string, vs: seq<string>, i: nat, j: nat) returns (t: Option<CcTxn>, next: nat)
    requires i < j
    ensures var r := FromTokens(h, d, texto, vs);
      && (if r.Block? then t == r.t && next == j else t.None? && next == i + 1)
  {
    t := None;
    next := i;
    if |vs| >= 2 {
      var saldo := BrFloat(vs[|vs| - 1]);
      var valor := BrFloat(vs[|vs| - 2]);
      if saldo.Some? && valor.Some? {
        var documento := if |vs| >= 3 then vs[0] else "";
        t := Some(CcTxn(d, Historico(texto), documento, valor.value, saldo.value, !Debit(texto), h));
        next := j - 1;
      }
    } else {
      next := j - 1;
    }
    next := next + 1;
  }

  /** The line loop of one page, with the indices `i` and `j` of the source. */
  method ScanLines(h: Header, lines: seq<string>) returns (ts: seq<CcTxn>)
    ensures ts == Txns(h, lines)
  {
    ghost var rs := Readings(h, lines, |lines|);
    ghost var es := Ends(lines);
    ts := [];
    var i := 0;
    while i < |lines|
      invariant 0 <= i <= |lines|
      invariant ts + Walk(rs, es, i) == Txns(h, lines)
      decreases |lines| - i
    {
      var t, next := Turn(h, lines, i);
      ReadingsAt(h, lines, |lines|, i);
      EndsAt(lines, i);
      WalkTurn(rs, es, i, t, next, ts, Txns(h, lines));
      if t.Some? {
        ts := ts + [t.value];
      }
      i := next;
    }
  }

  // ---------------------------------------------------------------------
  // Pages and the document.

  /** What the page loop has built so far: the header and the transactions. */
  datatype Scanned = Scanned(header: Header, txns: seq<CcTxn>)

  /** One page: its first fifteen lines update the header, then its blocks are read under that header. */
  function PageStep(st: Scanned, p: Page): Scanned
    requires p.text.Extracted?
  {
    var lines := PageLines(p.text);
    var h := Scan.Thread(st.header, HeaderLines(lines), HeaderLine);
    Scanned(h, st.txns + Txns(h, lines))
  }

  function PagesScan(pages: seq<Page>): Scanned
    requires AllExtracted(pages)
  {
    if |pages| == 0 then Scanned(NoHeader, [])
    else PageStep(PagesScan(pages[..|pages| - 1]), pages[|pages| - 1])
  }

  /** The header lines of every page, one page after the other. */
  function AllHeaderLines(pages: seq<Page>): seq<string>
    requires AllExtracted(pages)
  {
    if |pages| == 0 then []
    else AllHeaderLines(pages[..|pages| - 1]) + HeaderLines(PageLines(pages[|pages| - 1].text))
  }

  /** The function's result: an exception when the file does not open or a page has no text. */
  function Extract(doc: Document): (r: Result<Scanned>)
    ensures r.Ok? <==> doc.pages.Some? && AllExtracted(doc.pages.value)
  {
    if doc.pages.None? then Err("cannot open PDF")
    else if !AllExtracted(doc.pages.value) then Err("page without text")
    else Ok(PagesScan(doc.pages.value))
  }

  /**
   * The header is one dictionary for the whole document: it is the header
   * lines of all pages applied in order, so a later page overwrites only the
   * fields its own lines set, and every field that is set came from a line
   * allowed to set it.
   */
  lemma {:induction false} PagesHeader(pages: seq<Page>)
    requires AllExtracted(pages)
    ensures PagesScan(pages).header == Scan.Thread(NoHeader, AllHeaderLines(pages), HeaderLine)
    ensures Sourced(PagesScan(pages).header, AllHeaderLines(pages))
  {
    if |pages| > 0 {
      var front := pages[..|pages| - 1];
      assert AllExtracted(front) by {
        forall k | 0 <= k < |front| ensures front[k].text.Extracted? { assert front[k] == pages[k]; }
      }
      PagesHeader(front);
      Scan.ThreadAppend(NoHeader, AllHeaderLines(front), HeaderLines(PageLines(pages[|pages| - 1].text)), HeaderLine);
    }
    ThreadSourced(AllHeaderLines(pages));
  }

  /** Every transaction of the document has unsigned amounts. */
  lemma {:induction false} PagesUnsigned(pages: seq<Page>)
    requires AllExtracted(pages)
    ensures forall t | t in PagesScan(pages).txns :: t.valor >= 0 && t.saldo >= 0
  {
    if |pages| > 0 {
      var front := pages[..|pages| - 1];
      assert AllExtracted(front) by {
        forall k | 0 <= k < |front| ensures front[k].text.Extracted? { assert front[k] == pages[k]; }
      }
      PagesUnsigned(front);
      var lines := PageLines(pages[|pages| - 1].text);
      TxnsUnsigned(Scan.Thread(PagesScan(front).header, HeaderLines(lines), HeaderLine), lines);
    }
  }

  lemma PagesSnoc(pages: seq<Page>, i: nat)
    requires i < |pages| && AllExtracted(pages[..i + 1])
    ensures AllExtracted(pages[..i])
    ensures PagesScan(pages[..i + 1]) == PageStep(PagesScan(pages[..i]), pages[i])
  {
    assert pages[..i + 1][..i] == pages[..i];
    assert forall k | 0 <= k < i :: pages[..i][k] == pages[..i + 1][k];
  }

  /** The page loop: `text.split` raises at the first page without text. */
  method ExtractCc(doc: Document) returns (r: Result<Scanned>)
    ensures r == Extract(doc)
  {
    if doc.pages.None? {
      return Err("cannot open PDF");
    }
    var pages := doc.pages.value;
    var h := NoHeader;
    var ts: seq<CcTxn> := [];
    var i := 0;
    while i < |pages|
      invariant 0 <= i <= |pages|
      invariant AllExtracted(pages[..i])
      invariant Scanned(h, ts) == PagesScan(pages[..i])
    {
      if !pages[i].text.Extracted? {
        return Err("page without text");
      }
      var lines := PageLines(pages[i].text);
      h := ReadHeader(h, lines);
      var more := ScanLines(h, lines);
      ExtractedSnoc(pages, i);
      PagesSnoc(pages, i);
      ts := ts + more;
      i := i + 1;
    }
    assert pages[..i] == pages;
    r := Ok(Scanned(h, ts));
  }

  // ---------------------------------------------------------------------
  // The DataFrame.

  /** The keys of a transaction dictionary, in order. */
  const Keys: seq<string> :=
    ["arquivo", "data_movimento", "historico", "documento", "credito", "debito", "saldo", "tipo",
     "cliente", "cnpj", "agencia", "conta", "periodo_inicio", "periodo_fim", "banco"]

  lemma KeysHave()
    ensures "credito" in Keys && "debito" in Keys
  {
    assert Keys[4] == "credito" && Keys[5] == "debito";
  }

  function Tipo(credit: bool): string
  {
    if credit then "credit" else "debit"
  }

  /** One cell of a transaction's dictionary; a header field not yet set reads as ''. */
  function Cell(arquivo: string, t: CcTxn, k: string): Value
  {
    if k == "arquivo" then Str(arquivo)
    else if k == "data_movimento" then Str(Strftime(t.date))
    else if k == "historico" then Str(t.historico)
    else if k == "documento" then Str(t.documento)
    else if k == "credito" then Num(if t.credit then t.valor else 0)
    else if k == "debito" then Num(if t.credit then 0 else t.valor)
    else if k == "saldo" then Num(t.saldo)
    else if k == "tipo" then Str(Tipo(t.credit))
    else if k == "cliente" then Str(t.header.cliente.GetOr(""))
    else if k == "cnpj" then Str(t.header.cnpj.GetOr(""))
    else if k == "agencia" then Str(t.header.agencia.GetOr(""))
    else if k == "conta" then Str(t.header.conta.GetOr(""))
    else if k == "periodo_inicio" then Str(t.header.periodoInicio.GetOr(""))
    else if k == "periodo_fim" then Str(t.header.periodoFim.GetOr(""))
    else Str("BRADESCO")
  }

  function ToRow(arquivo: string, t: CcTxn): (r: Row)
    ensures Shaped(r, Keys)
  {
    map k | k in Keys :: Cell(arquivo, t, k)
  }

  lemma RowGet(arquivo: string, t: CcTxn, k: string)
    requires k in Keys
    ensures Get(ToRow(arquivo, t), k) == Cell(arquivo, t, k)
  {
  }

  /** `pd.DataFrame(all_transactions)`: one row per transaction in order; no columns when there are none. */
  function TxnFrame(arquivo: string, ts: seq<CcTxn>): (f: Frame)
    ensures WellFormed(f) && |f.rows| == |ts|
    ensures f.columns == if |ts| == 0 then [] else Keys
    ensures forall i | 0 <= i < |ts| :: f.rows[i] == ToRow(arquivo, ts[i])
  {
    assert Distinct(Keys);
    Frame(if |ts| == 0 then [] else Keys, seq(|ts|, i requires 0 <= i < |ts| => ToRow(arquivo, ts[i])))
  }

  /** `return pd.DataFrame(all_transactions), header_info` */
  function ExtractFrame(doc: Document): Result<(Frame, Header)>
  {
    match Extract(doc)
    case Err(msg) => Err(msg)
    case Ok(st) => Ok((TxnFrame(doc.name, st.txns), st.header))
  }

  /**
   * In the extractor's table exactly one of `credito` and `debito` can hold
   * the amount — `credito` for a credit, `debito` for a debit — and the
   * other is 0; both, and the balance, are never negative.
   */
  lemma TxnCells(arquivo: string, t: CcTxn)
    requires t.valor >= 0 && t.saldo >= 0
    ensures var r := ToRow(arquivo, t);
      && (Get(r, "tipo") == Str("credit") <==> t.credit)
      && Get(r, "credito") == Num(if t.credit then t.valor else 0)
      && Get(r, "debito") == Num(if t.credit then 0 else t.valor)
      && Get(r, "credito").cents >= 0 && Get(r, "debito").cents >= 0
      && (Get(r, "credito").cents == 0 || Get(r, "debito").cents == 0)
      && Get(r, "saldo") == Num(t.saldo) && t.saldo >= 0
  {
    assert Get(ToRow(arquivo, t), "tipo") == Str(Tipo(t.credit)) by { RowGet(arquivo, t, "tipo"); }
    assert Get(ToRow(arquivo, t), "credito") == Cell(arquivo, t, "credito") by { RowGet(arquivo, t, "credito"); }
    assert Get(ToRow(arquivo, t), "debito") == Cell(arquivo, t, "debito") by { RowGet(arquivo, t, "debito"); }
    assert Get(ToRow(arquivo, t), "saldo") == Cell(arquivo, t, "saldo") by { RowGet(arquivo, t, "saldo"); }
  }

  // ---------------------------------------------------------------------
  // The adapter.

  /** `a - b` on two cells: a number when both are numbers, missing otherwise. */
  function Minus(a: Value, b: Value): Value
  {
    if a.Num? && b.Num? then Num(a.cents - b.cents) else Null
  }

  /** `df['valor'] = df['credito'] - df['debito']` */
  function Combined(f: Frame): (g: Frame)
    requires WellFormed(f) && "credito" in f.columns && "debito" in f.columns
    ensures WellFormed(g) && |g.rows| == |f.rows|
    ensures g.columns == if "valor" in f.columns then f.columns else f.columns + ["valor"]
    ensures forall i, c | 0 <= i < |f.rows| ::
      Get(g.rows[i], c) == if c == "valor" then Minus(Get(f.rows[i], "credito"), Get(f.rows[i], "debito")) else Get(f.rows[i], c)
  {
    var cs := if "valor" in f.columns then f.columns else f.columns + ["valor"];
    Frame(cs, seq(|f.rows|, i requires 0 <= i < |f.rows| => f.rows[i]["valor" := Minus(f.rows[i]["credito"], f.rows[i]["debito"])]))
  }

  /** The extractor's table after the adapter: an empty one as it is, otherwise combined, reduced and standardised. */
  function AdaptFrame(f: Frame): (g: Frame)
    requires WellFormed(f) && (!IsEmpty(f) ==> "credito" in f.columns && "debito" in f.columns)
    ensures WellFormed(g)
  {
    if IsEmpty(f) then f
    else Standardize(DropPresent(Combined(f), ["credito", "debito"]))
  }

  /** `BradescoCCAdapter.extract_statement`; the header comes back as the extractor returned it. */
  function AdapterExtract(doc: Document): (r: Result<(Frame, Header)>)
    ensures r.Err? <==> Extract(doc).Err?
    ensures r.Ok? ==> r.value.1 == Extract(doc).value.header
  {
    match ExtractFrame(doc)
    case Err(msg) => Err(msg)
    case Ok((f, h)) => Ok((AdaptFrame(f), h))
  }

  /**
   * A row of a non-empty table after the adapter: `valor` is its credit minus
   * its debit, and `tipo` and `arquivo` are carried over.
   */
  lemma AdaptRow(f: Frame, i: nat)
    requires WellFormed(f) && !IsEmpty(f) && "credito" in f.columns && "debito" in f.columns && i < |f.rows|
    ensures var g := AdaptFrame(f);
      && i < |g.rows|
      && Get(g.rows[i], "valor") == ToNumeric(Minus(Get(f.rows[i], "credito"), Get(f.rows[i], "debito")))
      && Get(g.rows[i], "tipo") == Get(f.rows[i], "tipo")
      && Get(g.rows[i], "arquivo") == Get(f.rows[i], "arquivo")
  {
    StandardHas();
    AdaptCell(f, i, "valor");
    AdaptCell(f, i, "tipo");
    AdaptCell(f, i, "arquivo");
  }

  /** A standard column other than `credito` and `debito`, after the adapter: its combined cell, coerced. */
  lemma AdaptCell(f: Frame, i: nat, col: string)
    requires WellFormed(f) && !IsEmpty(f) && "credito" in f.columns && "debito" in f.columns && i < |f.rows|
    requires col in StandardColumns && col != "credito" && col != "debito"
    ensures var g := AdaptFrame(f);
      && i < |g.rows|
      && Get(g.rows[i], col) == Coerced(col, Get(Combined(f).rows[i], col))
  {
    var c := Combined(f);
    var d := DropPresent(c, ["credito", "debito"]);
    assert col !in ["credito", "debito"];
    assert Get(d.rows[i], col) == Get(c.rows[i], col);
  }

  /** Credit minus debit is the amount for a credit and its negation for a debit. */
  lemma SignedAmount(t: CcTxn, credito: Value, debito: Value)
    requires credito == Num(if t.credit then t.valor else 0) && debito == Num(if t.credit then 0 else t.valor)
    ensures Minus(credito, debito) == Num(if t.credit then t.valor else -t.valor)
  {
  }

  /** Neither `credito` nor `debito` is a standard column. */
  lemma StandardLacksParts()
    ensures "credito" !in StandardColumns && "debito" !in StandardColumns
  {
    forall k | 0 <= k < |StandardColumns| ensures StandardColumns[k] != "credito" && StandardColumns[k] != "debito" {
      assert StandardColumns[k][0] != 'c' || StandardColumns[k] == "conta";
    }
  }

  /** The adapted table keeps the rows, loses `credito` and `debito`, and has every standard column. */
  lemma AdaptColumns(f: Frame)
    requires WellFormed(f) && !IsEmpty(f) && "credito" in f.columns && "debito" in f.columns
    ensures var g := AdaptFrame(f);
      && |g.rows| == |f.rows|
      && "credito" !in g.columns && "debito" !in g.columns
      && forall c | c in StandardColumns :: c in g.columns
  {
    var d := DropPresent(Combined(f), ["credito", "debito"]);
    assert "credito" !in d.columns && "debito" !in d.columns;
    StandardLacksParts();
  }

  /** One transaction's `valor` after the adapter: the amount for a credit, its negation for a debit. */
  lemma AdaptedValor(arquivo: string, ts: seq<CcTxn>, i: nat)
    requires 0 <= i < |ts| && ts[i].valor >= 0 && ts[i].saldo >= 0
    ensures var g := AdaptFrame(TxnFrame(arquivo, ts));
      && i < |g.rows|
      && Get(g.rows[i], "valor") == Num(if ts[i].credit then ts[i].valor else -ts[i].valor)
  {
    KeysHave();
    AdaptRow(TxnFrame(arquivo, ts), i);
    RowValor(arquivo, ts, i);
  }

  /** In the extractor's row, credit minus debit is the signed amount. */
  lemma RowValor(arquivo: string, ts: seq<CcTxn>, i: nat)
    requires 0 <= i < |ts|
    ensures var r := TxnFrame(arquivo, ts).rows[i];
      ToNumeric(Minus(Get(r, "credito"), Get(r, "debito"))) == Num(if ts[i].credit then ts[i].valor else -ts[i].valor)
  {
    var t := ts[i];
    var r := ToRow(arquivo, t);
    assert TxnFrame(arquivo, ts).rows[i] == r;
    CreditoCell(arquivo, t);
    DebitoCell(arquivo, t);
    SignedAmount(t, Get(r, "credito"), Get(r, "debito"));
  }

  lemma CreditoCell(arquivo: string, t: CcTxn)
    ensures Get(ToRow(arquivo, t), "credito") == Num(if t.credit then t.valor else 0)
  {
    KeysHave();
    RowGet(arquivo, t, "credito");
  }

  lemma DebitoCell(arquivo: string, t: CcTxn)
    ensures Get(ToRow(arquivo, t), "debito") == Num(if t.credit then 0 else t.valor)
  {
    KeysHave();
    RowGet(arquivo, t, "debito");
  }

  /** One transaction's `tipo` and `arquivo` after the adapter, as extracted. */
  lemma AdaptedTipo(arquivo: string, ts: seq<CcTxn>, i: nat)
    requires 0 <= i < |ts|
    ensures var g := AdaptFrame(TxnFrame(arquivo, ts));
      && i < |g.rows|
      && (Get(g.rows[i], "tipo") == Str("credit") <==> ts[i].credit)
      && Get(g.rows[i], "arquivo") == Str(arquivo)
  {
    var f := TxnFrame(arquivo, ts);
    var r := ToRow(arquivo, ts[i]);
    assert f.rows[i] == r;
    KeysHave();
    AdaptRow(f, i);
    RowGet(arquivo, ts[i], "tipo");
    RowGet(arquivo, ts[i], "arquivo");
  }

  /**
   * A transaction's row after the adapter: `valor` is the amount for a
   * credit and its negation for a debit, so it has the sign of `tipo`, and
   * the file name is in `arquivo`.
   */
  predicate RowAdapted(row: Row, t: CcTxn, arquivo: string)
  {
    && Get(row, "valor") == Num(if t.credit then t.valor else -t.valor)
    && (Get(row, "tipo") == Str("credit") <==> t.credit)
    && (if t.credit then Get(row, "valor").cents >= 0 else Get(row, "valor").cents <= 0)
    && Get(row, "arquivo") == Str(arquivo)
  }

  /** Row `i` of `g` holds transaction `i` of `ts`, for every transaction. */
  predicate RowsAdapted(g: Frame, ts: seq<CcTxn>, arquivo: string)
  {
    |g.rows| == |ts| && forall i | 0 <= i < |ts| :: RowAdapted(g.rows[i], ts[i], arquivo)
  }

  /** The adapted table of a non-empty list of transactions with unsigned amounts, row by row. */
  lemma AdaptedTable(arquivo: string, ts: seq<CcTxn>)
    requires |ts| > 0 && forall t | t in ts :: t.valor >= 0 && t.saldo >= 0
    ensures var g := AdaptFrame(TxnFrame(arquivo, ts));
      && |g.rows| == |ts|
      && "credito" !in g.columns && "debito" !in g.columns
      && (forall c | c in StandardColumns :: c in g.columns)
      && RowsAdapted(g, ts, arquivo)
  {
    var f := TxnFrame(arquivo, ts);
    KeysHave();
    AdaptColumns(f);
    var g := AdaptFrame(f);
    forall i | 0 <= i < |ts|
      ensures i < |g.rows| && RowAdapted(g.rows[i], ts[i], arquivo)
    {
      assert ts[i] in ts;
      AdaptedValor(arquivo, ts, i);
      AdaptedTipo(arquivo, ts, i);
    }
  }

  /**
   * After the adapter an empty table is unchanged; otherwise there is one
   * row per transaction, the `credito` and `debito` columns are gone, every
   * standard column is present, and each row's `valor` is its credit minus
   * its debit: the amount for a credit and its negation for a debit, so
   * `valor` has the sign of `tipo`.
   */
  lemma AdapterRows(doc: Document)
    requires Extract(doc).Ok?
    ensures var ts := Extract(doc).value.txns; var g := AdapterExtract(doc).value.0;
      && (|ts| == 0 ==> g == TxnFrame(doc.name, ts))
      && (|ts| > 0 ==>
        && |g.rows| == |ts|
        && "credito" !in g.columns && "debito" !in g.columns
        && (forall c | c in StandardColumns :: c in g.columns)
        && RowsAdapted(g, ts, doc.name))
  {
    var ts := Extract(doc).value.txns;
    var g := AdapterExtract(doc).value.0;
    assert g == AdaptFrame(TxnFrame(doc.name, ts));
    if |ts| > 0 {
      PagesUnsigned(doc.pages.value);
      assert forall t | t in ts :: t.valor >= 0 && t.saldo >= 0;
      AdaptedTable(doc.name, ts);
    }
  }

  /** The adapter's steps in order: extract, then for a non-empty table combine, drop and standardise. */
  method AdapterExtractStatement(doc: Document) returns (r: Result<(Frame, Header)>)
    ensures r == AdapterExtract(doc)
  {
    var e := ExtractCc(doc);
    if e.Err? {
      return Err(e.msg);
    }
    var f := TxnFrame(doc.name, e.value.txns);
    var h := e.value.header;
    if !IsEmpty(f) {
      f := Combined(f);
      f := DropPresent(f, ["credito", "debito"]);
      f := StandardizeOutput(f);
    }
    r := Ok((f, h));
  }
}
