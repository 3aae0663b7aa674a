/**
 * `extract_itau_statement`: an Itaú statement read line by line. The first
 * fifteen lines of every page update one header dictionary; every stripped
 * line that starts with a day and a month is a candidate transaction, dated
 * in the reference year, valued by its last number, and a debit unless its
 * description names a credit. The balance, when there is one, is the number
 * that ends the next line.
 */
module Itau {
  import opened Wrappers
  import opened Text
  import opened Numbers
  import opened Dates
  import opened Regex
  import opened Frames
  import opened Pdf
  import opened Patterns
  import Caixa
  import Scan

  /** The bank name every Itaú row carries. */
  const BankName: string := "ITAÚ"

  // ---------------------------------------------------------------------
  // The header dictionary.

  /** `header_info`: each field absent until a line sets it. */
  datatype Header = Header(banco: Option<string>, agencia: Option<string>, conta: Option<string>)

  const NoHeader: Header := Header(None, None, None)

  /** `(\d{4})` */
  const AgenciaRe: Re := Grp(1, Times(Digit, 4))

  /** The characters of an account number, `[\d.-]`. */
  const ContaClass: Class := Union(Digit, Among("-."))

  /** `(\d+[-.]?\d*)` */
  const ContaRe: Re := Grp(1, Cat(Plus(Digit), Cat(Opt(Chr(Among("-."))), Star(Digit))))

  /** A line naming the bank: 'ITAÚ' or 'ITAU' in the upper-cased line. */
  predicate BannerLine(line: string)
  {
    Contains(Upper(line), "ITAÚ") || Contains(Upper(line), "ITAU")
  }

  /** The agency line: 'AGÊNCIA' or 'AG.', on a line that does not name the bank. */
  predicate AgencyLine(line: string)
  {
    !BannerLine(line) && (Contains(Upper(line), "AGÊNCIA") || Contains(Upper(line), "AG."))
  }

  /** The account line: 'CONTA', on a line that is neither of the above. */
  predicate AccountLine(line: string)
  {
    && !BannerLine(line)
    && !(Contains(Upper(line), "AGÊNCIA") || Contains(Upper(line), "AG."))
    && Contains(Upper(line), "CONTA")
  }

  lemma HeaderPatternsWithin()
    ensures GroupWithin(AgenciaRe, 1, Digit)
    ensures GroupWithin(ContaRe, 1, ContaClass)
  {
    assert Subclass(Digit, Digit);
    assert Subclass(Digit, ContaClass);
    assert Subclass(Among("-."), ContaClass);
  }

  /**
   * One header line, in the source's `if`/`elif` order: a line naming the
   * bank sets the bank to the stripped line; the agency is the first four
   * digits of an agency line; the account is the first number (digits, an
   * optional dash or dot, digits) of an account line. A line whose search
   * finds nothing leaves its field as it was.
   */
  function HeaderLine(h: Header, line: string): (out: Header)
    ensures BannerLine(line) ==> out == h.(banco := Some(Strip(line)))
    ensures out.banco == h.banco || (BannerLine(line) && out.banco == Some(Strip(line)))
    ensures out.agencia == h.agencia || (AgencyLine(line) && out.agencia.Some? && Caixa.AllIn(out.agencia.value, Digit))
    ensures out.conta == h.conta || (AccountLine(line) && out.conta.Some? && Caixa.AllIn(out.conta.value, ContaClass))
  {
    HeaderPatternsWithin();
    if BannerLine(line) then h.(banco := Some(Strip(line)))
    else if Contains(Upper(line), "AGÊNCIA") || Contains(Upper(line), "AG.") then
      Caixa.SearchedWithin(AgenciaRe, line, h.agencia, Digit);
      h.(agencia := Caixa.Searched(AgenciaRe, line, h.agencia))
    else if Contains(Upper(line), "CONTA") then
      Caixa.SearchedWithin(ContaRe, line, h.conta, ContaClass);
      h.(conta := Caixa.Searched(ContaRe, line, h.conta))
    else h
  }

  /** `lines[:15]` */
  function HeaderLines(lines: seq<string>): (hs: seq<string>)
    ensures |hs| <= 15 && hs <= lines
  {
    if |lines| <= 15 then lines else lines[..15]
  }

  /** Every field that is set came from one of `lines` that may set it. */
  predicate Sourced(h: Header, lines: seq<string>)
  {
    && (h.banco.Some? ==> exists l | l in lines :: BannerLine(l) && h.banco.value == Strip(l))
    && (h.agencia.Some? ==> Caixa.AllIn(h.agencia.value, Digit) && exists l | l in lines :: AgencyLine(l))
    && (h.conta.Some? ==> Caixa.AllIn(h.conta.value, ContaClass) && exists l | l in lines :: AccountLine(l))
  }

  lemma HeaderLineSourced(h: Header, lines: seq<string>, line: string)
    requires Sourced(h, lines)
    ensures Sourced(HeaderLine(h, line), lines + [line])
  {
    assert forall l | l in lines :: l in lines + [line];
    assert line in lines + [line];
  }

  /** Threading header lines keeps every field sourced by a line, of this page or an earlier one. */
  lemma {:induction false} ThreadSourced(h: Header, seen: seq<string>, ls: seq<string>)
    requires Sourced(h, seen)
    ensures Sourced(Scan.Thread(h, ls, HeaderLine), seen + ls)
  {
    if |ls| > 0 {
      var front := ls[..|ls| - 1];
      ThreadSourced(h, seen, front);
      HeaderLineSourced(Scan.Thread(h, front, HeaderLine), seen + front, ls[|ls| - 1]);
      assert seen + front + [ls[|ls| - 1]] == seen + ls;
    }
  }

  // ---------------------------------------------------------------------
  // One line.

  /** `re.match(r'^(\d{2}/\d{2})', line)`: two digits, a slash, two digits. */
  predicate Dated(line: string)
  {
    |line| >= 5 && IsDigit(line[0]) && IsDigit(line[1]) && line[2] == '/' && IsDigit(line[3]) && IsDigit(line[4])
  }

  /** A balance line: 'SALDO ANTERIOR' or 'S A L D O' in the upper-cased line. */
  predicate BalanceLine(line: string)
  {
    ContainsAny(Upper(line), ["SALDO ANTERIOR", "S A L D O"])
  }

  /** A description naming a credit. */
  predicate CreditWords(historico: string)
  {
    ContainsAny(Upper(historico), ["CREDITO", "DEPOSITO", "VENDA"])
  }

  /** `([\d.,]+)` */
  const AmountRe: Re := Grp(1, BrAmount)

  /** `([\d.,]+)$` */
  const TrailingRe: Re := Cat(Grp(1, BrAmount), Eol)

  /** `(\d{7,})` */
  const DocRe: Re := Grp(1, Rep(Chr(Digit), 7, Inf, true))

  lemma LinePatternsWithin()
    ensures GroupWithin(AmountRe, 1, AmountClass) && GroupWithin(TrailingRe, 1, AmountClass)
    ensures GroupWithin(DocRe, 1, Digit)
  {
    PiecesWithin();
    assert Subclass(Digit, Digit);
  }

  /** `re.findall(r'([\d.,]+)', s)` */
  function Tokens(s: string): (ts: seq<string>)
    ensures forall t | t in ts :: '-' !in t
  {
    var ms := FindIter(AmountRe, s);
    LinePatternsWithin();
    FindAmountUnsigned(AmountRe, s, 1);
    seq(|ms|, i requires 0 <= i < |ms| => Group(s, ms[i], 1))
  }

  /** `s.replace(t, '')`; replacing the empty string by the empty string changes nothing. */
  function Remove(s: string, t: string): string
  {
    if |t| == 0 then s else Replace(s, t, "")
  }

  /** `for val in valores: historico = historico.replace(val, '')` */
  function RemoveAll(s: string, ts: seq<string>): string
  {
    if |ts| == 0 then s else Remove(RemoveAll(s, ts[..|ts| - 1]), ts[|ts| - 1])
  }

  /** `re.sub(r'[-\s]+$', '', s)`: the trailing run of dashes and white space removed. */
  function TrimTail(s: string): (r: string)
    ensures r <= s
    ensures |r| > 0 ==> !IsSpace(r[|r| - 1]) && r[|r| - 1] != '-'
    ensures forall i | |r| <= i < |s| :: IsSpace(s[i]) || s[i] == '-'
  {
    if |s| > 0 && (IsSpace(s[|s| - 1]) || s[|s| - 1] == '-') then TrimTail(s[..|s| - 1]) else s
  }

  /** The first run of at least seven digits of `s`, or '' when there is none. */
  function Documento(s: string): (d: string)
    ensures forall i | 0 <= i < |d| :: IsDigit(d[i])
  {
    var m := ReSearch(DocRe, s);
    LinePatternsWithin();
    SearchFromCaps(DocRe, s, 0, 1, Digit);
    if m.None? then "" else GroupIn(s, m.value, 1, Digit); Group(s, m.value, 1)
  }

  /** The number that ends the stripped next line, read the Brazilian way; `None` without one. */
  function NextSaldo(next: Option<string>): (r: Option<int>)
    ensures r.Some? ==> r.value >= 0
  {
    if next.None? then None
    else
      var s := Strip(next.value);
      var m := ReSearch(TrailingRe, s);
      if m.None? then None
      else
        LinePatternsWithin();
        SearchAmountUnsigned(TrailingRe, s, 1);
        UnsignedReadings(Group(s, m.value, 1));
        BrFloat(Group(s, m.value, 1))
  }

  /** One transaction and the header as it stood when its page was read. */
  datatype Txn = Txn(
    date: CalendarDate,
    historico: string,
    documento: string,
    valor: int,
    saldo: Option<int>,
    credit: bool,
    periodo: string,
    header: Header)

  /** What a line is read against: the reference year and the header so far. */
  datatype Ctx = Ctx(year: nat, header: Header)

  /** The description: the text after the date without its numbers, trailing dashes and blanks, and document number. */
  function Historico(rest: string, ts: seq<string>): string
  {
    var h := Strip(TrimTail(RemoveAll(rest, ts)));
    var doc := Documento(rest);
    if |doc| == 0 then h else Strip(Remove(h, doc))
  }

  /** `f"{date_str}/{current_year}"`: the line's day and month in the reference year. */
  function Periodo(year: nat, line: string): string
    requires |line| >= 5
  {
    line[..5] + "/" + NatToString(year)
  }

  /** The amount of a line: its last number, read the Brazilian way; `None` without a number or when `float` refuses it. */
  function Amount(ts: seq<string>): (r: Option<nat>)
    requires forall t | t in ts :: '-' !in t
    ensures r.Some? ==> |ts| >= 1 && BrFloat(ts[|ts| - 1]) == Some(r.value as int)
    ensures r.None? ==> |ts| == 0 || BrFloat(ts[|ts| - 1]).None?
  {
    if |ts| == 0 then None
    else
      var v := BrFloat(ts[|ts| - 1]);
      assert ts[|ts| - 1] in ts;
      UnsignedReadings(ts[|ts| - 1]);
      if v.None? then None else Some(v.value as nat)
  }

  /** A transaction from a dated line's parts; a debit is the negated amount. */
  function Make(d: CalendarDate, historico: string, documento: string, a: nat, saldo: Option<int>, periodo: string, h: Header): (t: Txn)
    ensures t.credit <==> CreditWords(t.historico)
    ensures t.credit ==> t.valor == a
    ensures !t.credit ==> t.valor == -(a as int)
    ensures t.historico == historico && t.documento == documento
    ensures t.date == d && t.saldo == saldo && t.periodo == periodo && t.header == h
  {
    var credit := CreditWords(historico);
    Txn(d, historico, documento, if credit then a as int else -(a as int), saldo, credit, periodo, h)
  }

  /**
   * The text after a dated line's date: its last number is the amount, and
   * a text without a number, or whose last number `float` refuses, gives
   * nothing. The transaction is a credit exactly when its description names
   * one; a debit carries the negated amount.
   */
  function RestTxn(d: CalendarDate, rest: string, next: Option<string>, periodo: string, h: Header): (r: Option<Txn>)
    ensures r.Some? ==> (r.value.credit <==> CreditWords(r.value.historico))
    ensures r.Some? ==> (r.value.credit ==> r.value.valor >= 0) && (!r.value.credit ==> r.value.valor <= 0)
  {
    var ts := Tokens(rest);
    var a := Amount(ts);
    if a.None? then None
    else Some(Make(d, Historico(rest, ts), Documento(rest), a.value, NextSaldo(next), periodo, h))
  }

  /**
   * The text after the date gives a transaction exactly when it has an
   * amount, and the transaction's value is that amount up to its sign.
   */
  lemma RestAmount(d: CalendarDate, rest: string, next: Option<string>, periodo: string, h: Header)
    ensures RestTxn(d, rest, next, periodo, h).Some? <==> Amount(Tokens(rest)).Some?
    ensures RestTxn(d, rest, next, periodo, h).Some? ==> Abs(RestTxn(d, rest, next, periodo, h).value.valor) == Amount(Tokens(rest)).value
  {
  }

  /** The other fields of a transaction read from the text after the date. */
  lemma RestFields(d: CalendarDate, rest: string, next: Option<string>, periodo: string, h: Header)
    requires RestTxn(d, rest, next, periodo, h).Some?
    ensures var t := RestTxn(d, rest, next, periodo, h).value;
      && t.historico == Historico(rest, Tokens(rest)) && t.documento == Documento(rest)
      && t.saldo == NextSaldo(next) && t.date == d && t.periodo == periodo && t.header == h
  {
  }

  /**
   * One stripped line with the line after it. Only a line starting with a
   * day and a month that is not a balance line, and whose date exists in
   * the reference year, is read further.
   */
  function LineTxn(c: Ctx, x: (string, Option<string>)): (r: Option<Txn>)
  {
    var line := Strip(x.0);
    if !Dated(line) || BalanceLine(line) then None
    else
      var d := Strptime(Periodo(c.year, line));
      if d.None? then None
      else RestTxn(d.value, Strip(line[5..]), x.1, Periodo(c.year, line), c.header)
  }

  /** A line gives a transaction only past the gate, and then gives what its text after the date gives. */
  lemma LineTxnSpec(c: Ctx, x: (string, Option<string>))
    requires LineTxn(c, x).Some?
    ensures var line := Strip(x.0);
      && Dated(line) && !BalanceLine(line)
      && Strptime(Periodo(c.year, line)).Some?
      && LineTxn(c, x) == RestTxn(Strptime(Periodo(c.year, line)).value, Strip(line[5..]), x.1, Periodo(c.year, line), c.header)
  {
  }

  /** A row's `periodo` is its own date as `strftime` writes it. */
  lemma PeriodoIsDate(c: Ctx, x: (string, Option<string>))
    requires LineTxn(c, x).Some?
    ensures LineTxn(c, x).value.periodo == Strftime(LineTxn(c, x).value.date)
  {
    var line := Strip(x.0);
    LineTxnSpec(c, x);
    var p := Periodo(c.year, line);
    RestFields(Strptime(p).value, Strip(line[5..]), x.1, p, c.header);
    StrftimeOfText(p, line[..5], NatToString(c.year));
  }

  /** `strftime` writes back a `dd/mm/yyyy` text that `strptime` accepted. */
  lemma StrftimeOfText(p: string, dm: string, y: string)
    requires |dm| == 5 && IsDigit(dm[0]) && IsDigit(dm[1]) && dm[2] == '/' && IsDigit(dm[3]) && IsDigit(dm[4])
    requires p == dm + "/" + y && Strptime(p).Some?
    ensures Strftime(Strptime(p).value) == p
  {
    var dd, mm := dm[..2], dm[3..];
    DayMonthSplit(dm, y);
    StrptimeFields(p, dd, mm, y);
    var d := Strptime(p).value;
    Pad2Digits(dd, d.day);
    Pad2Digits(mm, d.month);
    YearDigits(y, d.year);
    StrftimeParts(d, dd, mm, y);
  }

  lemma DayMonthSplit(dm: string, y: string)
    requires |dm| == 5 && IsDigit(dm[0]) && IsDigit(dm[1]) && dm[2] == '/' && IsDigit(dm[3]) && IsDigit(dm[4])
    ensures dm + "/" + y == dm[..2] + "/" + dm[3..] + "/" + y
    ensures AllDigits(dm[..2]) && AllDigits(dm[3..])
  {
    assert dm == dm[..2] + "/" + dm[3..];
  }

  lemma StrftimeParts(d: Date, dd: string, mm: string, y: string)
    requires Valid(d) && Pad2(d.day) == dd && Pad2(d.month) == mm && Pad2(d.year / 100) + Pad2(d.year % 100) == y
    ensures Strftime(d) == dd + "/" + mm + "/" + y
  {
  }

  /** `strptime` of `dd/mm/y` reads its day, month and year from the three fields. */
  lemma StrptimeFields(p: string, dd: string, mm: string, y: string)
    requires |dd| == 2 && |mm| == 2 && AllDigits(dd) && AllDigits(mm)
    requires p == dd + "/" + mm + "/" + y && Strptime(p).Some?
    ensures Strptime(p).value.day == 10 * DigitVal(dd[0]) + DigitVal(dd[1])
    ensures Strptime(p).value.month == 10 * DigitVal(mm[0]) + DigitVal(mm[1])
    ensures YearField(y) == Some(Strptime(p).value.year)
  {
    StrptimeSplit(dd, mm, y);
  }

  lemma Pad2Digits(x: string, n: nat)
    requires |x| == 2 && AllDigits(x) && n == 10 * DigitVal(x[0]) + DigitVal(x[1])
    ensures Pad2(n) == x
  {
  }

  lemma YearDigits(y: string, n: nat)
    requires YearField(y) == Some(n)
    ensures Pad2(n / 100) + Pad2(n % 100) == y
  {
    assert |y| == 4 && AllDigits(y);
    Pad2Digits(y[..2], n / 100);
    Pad2Digits(y[2..], n % 100);
  }

  /** `enumerate(lines)` with the line after each one. */
  function Neighbours(lines: seq<string>): (xs: seq<(string, Option<string>)>)
    ensures |xs| == |lines|
    ensures forall i | 0 <= i < |lines| :: xs[i] == (lines[i], if i + 1 < |lines| then Some(lines[i + 1]) else None)
  {
    seq(|lines|, i requires 0 <= i < |lines| => (lines[i], if i + 1 < |lines| then Some(lines[i + 1]) else None))
  }

  // ---------------------------------------------------------------------
  // Pages and the document.

  /** What the page loop carries: `all_transactions` and `header_info`. */
  datatype Scanned = Scanned(txns: seq<Txn>, header: Header)

  const Start: Scanned := Scanned([], NoHeader)

  /** The rows of one page's lines, read against the header after its first fifteen lines. */
  function PageRows(year: nat, h: Header, lines: seq<string>): (ts: seq<Txn>)
    ensures |ts| <= |lines|
  {
    Scan.Collect(Ctx(year, h), Neighbours(lines), LineTxn)
  }

  /** One page: the header lines, then every line. */
  function PageStep(year: nat, s: Scanned, p: Page): Scanned
  {
    var lines := Caixa.TextLines(p);
    var h := Scan.Thread(s.header, HeaderLines(lines), HeaderLine);
    Scanned(s.txns + PageRows(year, h, lines), h)
  }

  function Pages(year: nat, pages: seq<Page>): Scanned
  {
    if |pages| == 0 then Start else PageStep(year, Pages(year, pages[..|pages| - 1]), pages[|pages| - 1])
  }

  /** `extract_itau_statement` before the DataFrame: an exception when the file does not open or a page has no text. */
  function Extract(year: nat, doc: Document): (r: Result<Scanned>)
    ensures r.Ok? <==> doc.pages.Some? && AllExtracted(doc.pages.value)
  {
    if doc.pages.None? then Err("cannot open PDF")
    else if !AllExtracted(doc.pages.value) then Err("page without text")
    else Ok(Pages(year, doc.pages.value))
  }

  /** Every line gives at most one transaction: a document never has more transactions than lines. */
  lemma {:induction false} PagesBound(year: nat, pages: seq<Page>)
    ensures |Pages(year, pages).txns| <= LineCount(pages)
  {
    if |pages| > 0 {
      PagesBound(year, pages[..|pages| - 1]);
    }
  }

  /** The number of lines of the pages. */
  function LineCount(pages: seq<Page>): nat
  {
    if |pages| == 0 then 0 else LineCount(pages[..|pages| - 1]) + |Caixa.TextLines(pages[|pages| - 1])|
  }

  /** What every transaction of a line scan satisfies. */
  predicate Sound(t: Txn)
  {
    && (t.credit ==> t.valor >= 0) && (!t.credit ==> t.valor <= 0)
    && (t.credit <==> CreditWords(t.historico))
    && (forall i | 0 <= i < |t.documento| :: IsDigit(t.documento[i]))
    && (t.saldo.Some? ==> t.saldo.value >= 0)
    && t.periodo == Strftime(t.date)
  }

  lemma LineSound(c: Ctx, x: (string, Option<string>))
    requires LineTxn(c, x).Some?
    ensures Sound(LineTxn(c, x).value)
  {
    LineTxnSpec(c, x);
    PeriodoIsDate(c, x);
  }

  lemma PageSound(year: nat, h: Header, lines: seq<string>)
    ensures forall t | t in PageRows(year, h, lines) :: Sound(t)
  {
    var xs := Neighbours(lines);
    forall t | t in PageRows(year, h, lines) ensures Sound(t) {
      var i :| 0 <= i < |xs| && LineTxn(Ctx(year, h), xs[i]) == Some(t);
      LineSound(Ctx(year, h), xs[i]);
    }
  }

  /**
   * Every transaction of the document has an amount whose sign agrees with
   * its direction, a credit exactly when its description names one, a
   * document number of digits, an unsigned balance, and a period equal to
   * its own date.
   */
  lemma {:induction false} PagesSound(year: nat, pages: seq<Page>)
    ensures forall t | t in Pages(year, pages).txns :: Sound(t)
  {
    if |pages| > 0 {
      var front := pages[..|pages| - 1];
      PagesSound(year, front);
      var s := Pages(year, front);
      var lines := Caixa.TextLines(pages[|pages| - 1]);
      PageSound(year, Scan.Thread(s.header, HeaderLines(lines), HeaderLine), lines);
    }
  }

  /** The first fifteen lines of every page, in order. */
  function HeaderLinesOf(pages: seq<Page>): seq<string>
  {
    if |pages| == 0 then [] else HeaderLinesOf(pages[..|pages| - 1]) + HeaderLines(Caixa.TextLines(pages[|pages| - 1]))
  }

  /** The header after some pages: every field set was set by a line, among the first fifteen of one page, that may set it. */
  lemma {:induction false} PagesSourced(year: nat, pages: seq<Page>)
    ensures Sourced(Pages(year, pages).header, HeaderLinesOf(pages))
  {
    if |pages| > 0 {
      var front := pages[..|pages| - 1];
      PagesSourced(year, front);
      ThreadSourced(Pages(year, front).header, HeaderLinesOf(front), HeaderLines(Caixa.TextLines(pages[|pages| - 1])));
    }
  }

  // ---------------------------------------------------------------------
  // The loops.

  /** The replacement loop over the numbers of a line. */
  method RemoveTokens(s: string, ts: seq<string>) returns (r: string)
    ensures r == RemoveAll(s, ts)
  {
    r := s;
    var k := 0;
    while k < |ts|
      invariant 0 <= k <= |ts|
      invariant r == RemoveAll(s, ts[..k])
    {
      assert ts[..k + 1][..k] == ts[..k];
      if |ts[k]| > 0 {
        r := Replace(r, ts[k], "");
      }
      k := k + 1;
    }
    assert ts[..k] == ts;
  }

  /** The description of a dated line, rewritten step by step. */
  method ReadHistorico(rest: string, ts: seq<string>) returns (historico: string)
    ensures historico == Historico(rest, ts)
  {
    historico := RemoveTokens(rest, ts);
    historico := Strip(TrimTail(historico));
    var documento := Documento(rest);
    if |documento| > 0 {
      historico := Strip(Remove(historico, documento));
    }
  }

  /** The rest of the line loop's body. */
  method ReadRest(d: CalendarDate, rest: string, next: Option<string>, periodo: string, h: Header) returns (r: Option<Txn>)
    ensures r == RestTxn(d, rest, next, periodo, h)
  {
    var ts := Tokens(rest);
    var a := Amount(ts);
    if a.None? {
      return None;
    }
    var historico := ReadHistorico(rest, ts);
    r := Some(Make(d, historico, Documento(rest), a.value, NextSaldo(next), periodo, h));
  }

  /** The body of the line loop. */
  method ReadLine(c: Ctx, x: (string, Option<string>)) returns (r: Option<Txn>)
    ensures r == LineTxn(c, x)
  {
    var line := Strip(x.0);
    if !Dated(line) || BalanceLine(line) {
      return None;
    }
    var periodo := Periodo(c.year, line);
    var d := Strptime(periodo);
    if d.None? {
      return None;
    }
    r := ReadRest(d.value, Strip(line[5..]), x.1, periodo, c.header);
  }

  /** The line loop of one page. */
  method ReadPage(year: nat, h: Header, lines: seq<string>) returns (ts: seq<Txn>)
    ensures ts == PageRows(year, h, lines)
  {
    ts := Scan.CollectLoop(Ctx(year, h), Neighbours(lines), LineTxn);
  }

  lemma PagesSnoc(year: nat, pages: seq<Page>, i: nat)
    requires i < |pages|
    ensures Pages(year, pages[..i + 1]) == PageStep(year, Pages(year, pages[..i]), pages[i])
  {
    assert pages[..i + 1][..i] == pages[..i];
  }

  /** The page loop: the header lines, then the transaction lines. */
  method ExtractTxns(year: nat, doc: Document) returns (r: Result<Scanned>)
    ensures r == Extract(year, doc)
  {
    if doc.pages.None? {
      return Err("cannot open PDF");
    }
    var pages := doc.pages.value;
    var ts: seq<Txn> := [];
    var h := NoHeader;
    var i := 0;
    while i < |pages|
      invariant 0 <= i <= |pages|
      invariant AllExtracted(pages[..i])
      invariant Scanned(ts, h) == Pages(year, pages[..i])
    {
      if !pages[i].text.Extracted? {
        return Err("page without text");
      }
      var lines := PageLines(pages[i].text);
      assert lines == Caixa.TextLines(pages[i]);
      h := Scan.ThreadLoop(h, HeaderLines(lines), HeaderLine);
      var more := ReadPage(year, h, lines);
      ts := ts + more;
      PagesSnoc(year, pages, i);
      ExtractedSnoc(pages, i);
      i := i + 1;
    }
    assert pages[..i] == pages;
    r := Ok(Scanned(ts, h));
  }

  // ---------------------------------------------------------------------
  // The DataFrame.

  /** The keys of a transaction dictionary, in order. */
  const Keys: seq<string> :=
    ["arquivo", "data_movimento", "historico", "documento", "valor", "saldo", "tipo", "conta", "agencia", "banco", "periodo"]

  /** One cell of a transaction's dictionary: a header field not yet read is ''. */
  function Cell(arquivo: string, t: Txn, k: string): Value
  {
    if k == "arquivo" then Str(arquivo)
    else if k == "data_movimento" then Str(Strftime(t.date))
    else if k == "historico" then Str(t.historico)
    else if k == "documento" then Str(t.documento)
    else if k == "valor" then Num(t.valor)
    else if k == "saldo" then OptNum(t.saldo)
    else if k == "tipo" then Str(Caixa.Tipo(t.credit))
    else if k == "conta" then Str(t.header.conta.GetOr(""))
    else if k == "agencia" then Str(t.header.agencia.GetOr(""))
    else if k == "banco" then Str(BankName)
    else Str(t.periodo)
  }

  function ToRow(arquivo: string, t: Txn): (r: Row)
    ensures Shaped(r, Keys)
  {
    map k | k in Keys :: Cell(arquivo, t, k)
  }

  lemma RowGet(arquivo: string, t: Txn, k: string)
    requires k in Keys
    ensures Get(ToRow(arquivo, t), k) == Cell(arquivo, t, k)
  {
  }

  /** `pd.DataFrame(all_transactions)`: one row per transaction in order; no columns when there are none. */
  function TxnFrame(arquivo: string, ts: seq<Txn>): (f: Frame)
    ensures WellFormed(f) && |f.rows| == |ts|
    ensures f.columns == if |ts| == 0 then [] else Keys
    ensures forall i | 0 <= i < |ts| :: f.rows[i] == ToRow(arquivo, ts[i])
  {
    assert Distinct(Keys);
    Frame(if |ts| == 0 then [] else Keys, seq(|ts|, i requires 0 <= i < |ts| => ToRow(arquivo, ts[i])))
  }

  /** `extract_itau_statement`: the table named after the file, and the header dictionary. */
  function ExtractStatement(year: nat, doc: Document): (r: Result<(Frame, Header)>)
    ensures r.Ok? <==> Extract(year, doc).Ok?
    ensures r.Ok? ==> r.value.1 == Extract(year, doc).value.header
  {
    var e := Extract(year, doc);
    if e.Err? then Err(e.msg)
    else Ok((TxnFrame(doc.name, e.value.txns), e.value.header))
  }

  lemma KeysHave()
    ensures "arquivo" in Keys && "data_movimento" in Keys && "valor" in Keys && "tipo" in Keys
    ensures "periodo" in Keys && "banco" in Keys && "saldo" in Keys
  {
    assert Keys[0] == "arquivo" && Keys[1] == "data_movimento" && Keys[4] == "valor" && Keys[6] == "tipo";
    assert Keys[10] == "periodo" && Keys[9] == "banco" && Keys[5] == "saldo";
  }

  /** The cells of one sound transaction's row. */
  lemma TxnCells(arquivo: string, t: Txn)
    requires Sound(t)
    ensures var r := ToRow(arquivo, t);
      && Get(r, "arquivo") == Str(arquivo)
      && Get(r, "banco") == Str(BankName)
      && (Get(r, "tipo") == Str("credit") <==> t.credit)
      && Get(r, "valor") == Num(t.valor)
      && (if t.credit then t.valor >= 0 else t.valor <= 0)
      && Get(r, "periodo") == Get(r, "data_movimento")
  {
    KeysHave();
    RowGet(arquivo, t, "arquivo");
    RowGet(arquivo, t, "banco");
    RowGet(arquivo, t, "tipo");
    RowGet(arquivo, t, "valor");
    RowGet(arquivo, t, "periodo");
    RowGet(arquivo, t, "data_movimento");
  }

  /**
   * In the table every row names the file and the bank, its `tipo` is
   * 'credit' exactly for a credit, its `valor` has the sign of its `tipo`,
   * and its `periodo` is its `data_movimento`.
   */
  lemma StatementRows(year: nat, doc: Document)
    requires ExtractStatement(year, doc).Ok?
    ensures var f := ExtractStatement(year, doc).value.0; var ts := Extract(year, doc).value.txns;
      && |f.rows| == |ts|
      && forall i | 0 <= i < |f.rows| ::
        && Get(f.rows[i], "arquivo") == Str(doc.name)
        && Get(f.rows[i], "banco") == Str(BankName)
        && (Get(f.rows[i], "tipo") == Str("credit") <==> ts[i].credit)
        && Get(f.rows[i], "valor") == Num(ts[i].valor)
        && (if ts[i].credit then ts[i].valor >= 0 else ts[i].valor <= 0)
        && Get(f.rows[i], "periodo") == Get(f.rows[i], "data_movimento")
  {
    var ts := Extract(year, doc).value.txns;
    var f := TxnFrame(doc.name, ts);
    PagesSound(year, doc.pages.value);
    forall i | 0 <= i < |ts|
      ensures var r := f.rows[i];
        && Get(r, "arquivo") == Str(doc.name)
        && Get(r, "banco") == Str(BankName)
        && (Get(r, "tipo") == Str("credit") <==> ts[i].credit)
        && Get(r, "valor") == Num(ts[i].valor)
        && (if ts[i].credit then ts[i].valor >= 0 else ts[i].valor <= 0)
        && Get(r, "periodo") == Get(r, "data_movimento")
    {
      assert ts[i] in ts;
      TxnCells(doc.name, ts[i]);
    }
  }

  /** The same steps in order: the page loop, then the DataFrame. */
  method RunExtractStatement(year: nat, doc: Document) returns (r: Result<(Frame, Header)>)
    ensures r == ExtractStatement(year, doc)
  {
    var e := ExtractTxns(year, doc);
    if e.Err? {
      return Err(e.msg);
    }
    r := Ok((TxnFrame(doc.name, e.value.txns), e.value.header));
  }
}
