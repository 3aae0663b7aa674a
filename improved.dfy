/**
 * `ImprovedBankExtractor`, the superseded table-first extractor: a header
 * read from the first fifteen lines of text, transactions read from tables
 * whose first row names the columns, and a lenient amount reader that never
 * raises. The clock (`datetime.now()`, the movement date of a row when no
 * column holds one) is a parameter.
 */
module Improved {
  import opened Wrappers
  import opened Text
  import opened Numbers
  import opened Dates
  import opened Regex
  import opened Patterns
  import opened Pdf
  import opened Statement
  import Scan

  // ---------------------------------------------------------------------
  // `_parse_value`

  /** The text with surrounding white space, every `R$` and every blank removed. */
  function Cleaned(s: string): string
  {
    Drop(Replace(Strip(s), "R$", ""), ' ')
  }

  /** A leading '-' or '(' marks a negative amount (printed in red in the statement). */
  predicate Negative(s: string)
  {
    StartsWith(Cleaned(s), "-") || StartsWith(Cleaned(s), "(")
  }

  /** The cleaned text without any '-', '(' or ')'. */
  function Bare(s: string): (r: string)
    ensures '-' !in r
  {
    Drop(Drop(Drop(Cleaned(s), '-'), '('), ')')
  }

  /**
   * `_parse_value`: the empty text and a text `float` refuses give 0.0;
   * otherwise the three-way reading of the bare text, negated when the
   * text was marked negative. It never raises.
   */
  function ParseValue(s: string): (r: int)
    ensures s == "" ==> r == 0
    ensures MixedFloat(Bare(s)).None? ==> r == 0
    ensures MixedFloat(Bare(s)).Some? ==> Abs(r) == MixedFloat(Bare(s)).value
    ensures Negative(s) ==> r <= 0
    ensures !Negative(s) ==> r >= 0
  {
    if s == "" then 0
    else
      match MixedFloat(Bare(s))
      case None => 0
      case Some(a) => if Negative(s) then -a else a
  }

  /** Replacing a pattern whose first character never occurs changes nothing. */
  lemma {:induction false} ReplaceAbsent(s: string, pat: string, rep: string)
    requires |pat| > 0 && pat[0] !in s
    ensures Replace(s, pat, rep) == s
  {
    if |s| >= |pat| {
      assert s[..|pat|][0] == s[0];
      ReplaceAbsent(s[1..], pat, rep);
      assert s == [s[0]] + s[1..];
    }
  }

  /** The body of a Brazilian rendering: digits, '.' and ','. */
  lemma BodyChars(n: nat)
    ensures ShowBr(n) == Group3(n / 100) + "," + Pad2(n % 100)
    ensures |ShowBr(n)| > 0 && IsDigit(ShowBr(n)[0]) && IsDigit(ShowBr(n)[|ShowBr(n)| - 1])
    ensures forall x | x in ShowBr(n) :: IsDigit(x) || x == '.' || x == ','
  {
    ShowBrChars(n);
    var t := ShowBr(n);
    assert t[0] == Group3(n / 100)[0];
    assert t[|t| - 1] == Pad2(n % 100)[1];
    forall x | x in t ensures IsDigit(x) || x == '.' || x == ',' {
      var i :| 0 <= i < |t| && t[i] == x;
    }
  }

  /** Removing characters a text holds none of changes nothing. */
  lemma DropsAbsent(t: string)
    requires forall x | x in t :: IsDigit(x) || x == '.' || x == ','
    ensures Drop(t, ' ') == t && Drop(t, '-') == t && Drop(t, '(') == t && Drop(t, ')') == t
  {
    DropAbsent(t, ' ');
    DropAbsent(t, '-');
    DropAbsent(t, '(');
    DropAbsent(t, ')');
  }

  /** A text without blanks at its ends, `R$` or inner blanks is its own cleaning. */
  lemma CleanedKeeps(t: string)
    requires |t| > 0 && !IsSpace(t[0]) && !IsSpace(t[|t| - 1])
    requires 'R' !in t && ' ' !in t
    ensures Cleaned(t) == t
  {
    StripKeeps(t);
    ReplaceAbsent(t, "R$", "");
    DropAbsent(t, ' ');
  }

  /** The ends and characters of a signed body. */
  lemma SignedChars(sign: string, body: string)
    requires sign == "" || sign == "-"
    requires |body| > 0 && IsDigit(body[0]) && IsDigit(body[|body| - 1])
    requires forall x | x in body :: IsDigit(x) || x == '.' || x == ','
    ensures var t := sign + body; |t| > 0 && !IsSpace(t[0]) && !IsSpace(t[|t| - 1]) && 'R' !in t && ' ' !in t
    ensures var t := sign + body; (t[0] == '-' <==> sign == "-") && t[0] != '('
  {
    if sign == "" {
      assert sign + body == body;
    } else {
      var t := sign + body;
      assert t[|t| - 1] == body[|body| - 1];
      assert forall x | x in t :: x == '-' || x in body;
    }
  }

  /** Without its '-' a signed body is the body. */
  lemma SignedDrop(sign: string, body: string)
    requires sign == "" || sign == "-"
    requires '-' !in body
    ensures Drop(sign + body, '-') == body
  {
    DropConcat(sign, body, '-');
    DropAbsent(body, '-');
    assert Drop(sign, '-') == "";
  }

  /** A text that is its own cleaning has as bare text the text without its signs. */
  lemma CleanBare(t: string, body: string)
    requires Cleaned(t) == t
    requires Drop(t, '-') == body && '(' !in body && ')' !in body
    ensures Bare(t) == body
  {
    DropAbsent(body, '(');
    DropAbsent(body, ')');
  }

  /** A text that is its own cleaning is marked negative by its first character. */
  lemma CleanNegative(t: string)
    requires |t| > 0 && Cleaned(t) == t
    ensures Negative(t) <==> t[0] == '-' || t[0] == '('
  {
    assert StartsWith(t, "-") <==> t[..1] == "-";
    assert StartsWith(t, "(") <==> t[..1] == "(";
    assert t[..1] == [t[0]];
  }

  /** A signed body is its own cleaning. */
  lemma SignedClean(sign: string, body: string)
    requires sign == "" || sign == "-"
    requires |body| > 0 && IsDigit(body[0]) && IsDigit(body[|body| - 1])
    requires forall x | x in body :: IsDigit(x) || x == '.' || x == ','
    ensures Cleaned(sign + body) == sign + body
  {
    SignedChars(sign, body);
    CleanedKeeps(sign + body);
  }

  /** Without its signs and parentheses a signed body is the body. */
  lemma SignedBare(sign: string, body: string)
    requires sign == "" || sign == "-"
    requires |body| > 0 && IsDigit(body[0]) && IsDigit(body[|body| - 1])
    requires forall x | x in body :: IsDigit(x) || x == '.' || x == ','
    ensures Bare(sign + body) == body
  {
    SignedClean(sign, body);
    SignedDrop(sign, body);
    NoParens(body);
    CleanBare(sign + body, body);
  }

  /** A signed body is marked negative exactly when the sign is '-'. */
  lemma SignedNegative(sign: string, body: string)
    requires sign == "" || sign == "-"
    requires |body| > 0 && IsDigit(body[0]) && IsDigit(body[|body| - 1])
    requires forall x | x in body :: IsDigit(x) || x == '.' || x == ','
    ensures Negative(sign + body) <==> sign == "-"
  {
    SignedClean(sign, body);
    SignedChars(sign, body);
    CleanNegative(sign + body);
  }

  /** Digits and separators hold no parenthesis. */
  lemma NoParens(body: string)
    requires forall x | x in body :: IsDigit(x) || x == '.' || x == ','
    ensures '(' !in body && ')' !in body
  {
  }

  /** The bare text of a rendering is the rendering of its magnitude, and it is marked negative exactly when the amount is. */
  lemma BareSigned(c: int)
    ensures Bare(ShowBr(c)) == ShowBr(Abs(c))
    ensures Negative(ShowBr(c)) <==> c < 0
  {
    var body := ShowBr(Abs(c));
    BodyChars(Abs(c));
    assert ShowBr(c) == Sign(c) + body;
    SignedBare(Sign(c), body);
    SignedNegative(Sign(c), body);
  }

  /**
   * Every amount read back from its Brazilian rendering, `"1.234,56"` or
   * `"-12,30"`, is the amount itself: with both separators the dots are
   * dropped, with the comma alone it is the decimal point, and the '-'
   * makes it negative.
   */
  lemma ParseShowBr(c: int)
    ensures ParseValue(ShowBr(c)) == c
  {
    BareSigned(c);
    MixedShowBr(Abs(c));
  }

  /** `"(" + body + ")"` */
  function Parenthesised(body: string): string
  {
    "(" + body + ")"
  }

  lemma ParenthesisedText(n: nat)
    ensures var t := Parenthesised(ShowBr(n));
      |t| > 0 && t[0] == '(' && t[|t| - 1] == ')' && 'R' !in t && ' ' !in t && '-' !in t
  {
    var body := ShowBr(n);
    BodyChars(n);
    var t := Parenthesised(body);
    assert forall x | x in t :: x == '(' || x == ')' || x in body;
  }

  /** Without its parentheses the text is the rendering. */
  lemma Unparenthesise(body: string)
    requires '(' !in body && ')' !in body
    ensures Drop(Drop(Parenthesised(body), '('), ')') == body
  {
    DropConcat("(" + body, ")", '(');
    DropConcat("(", body, '(');
    DropAbsent(body, '(');
    assert Drop("(", '(') == "" && Drop(")", '(') == ")";
    assert Drop(Parenthesised(body), '(') == body + ")";
    DropConcat(body, ")", ')');
    DropAbsent(body, ')');
    assert Drop(")", ')') == "";
  }

  /** The bare text of a parenthesised rendering is the rendering. */
  lemma BareParenthesised(n: nat)
    ensures Bare(Parenthesised(ShowBr(n))) == ShowBr(n)
    ensures Negative(Parenthesised(ShowBr(n)))
  {
    var t := Parenthesised(ShowBr(n));
    ParenthesisedText(n);
    CleanedKeeps(t);
    DropAbsent(t, '-');
    BodyChars(n);
    Unparenthesise(ShowBr(n));
  }

  /** An amount in parentheses, `"(1.234,56)"`, reads as its negation. */
  lemma ParseParenthesised(n: nat)
    ensures ParseValue(Parenthesised(ShowBr(n))) == -(n as int)
  {
    BareParenthesised(n);
    MixedShowBr(n);
  }

  // ---------------------------------------------------------------------
  // `_looks_like_money`: three anchored patterns over the stripped text,
  // each a test on its characters.

  predicate MoneyChar(x: char)
  {
    IsDigit(x) || x == '.' || x == ','
  }

  predicate Separator(x: char)
  {
    x == '.' || x == ','
  }

  /** `^\d+[.,]\d{2}$` */
  predicate Decimal2(t: string)
  {
    |t| >= 4 && IsDigits(t[..|t| - 3]) && Separator(t[|t| - 3]) && IsDigits(t[|t| - 2..])
  }

  /** `^[\d.,]+$` */
  predicate MoneyChars(t: string)
  {
    |t| > 0 && forall i | 0 <= i < |t| :: MoneyChar(t[i])
  }

  /** `\d{1,3}(?:[.,]\d{3})*`: one to three digits, then groups of a separator and three digits. */
  predicate Thousands(t: string)
    decreases |t|
  {
    (1 <= |t| <= 3 && IsDigits(t))
    || (|t| >= 5 && Separator(t[|t| - 4]) && IsDigits(t[|t| - 3..]) && Thousands(t[..|t| - 4]))
  }

  /** `^\d{1,3}(?:[.,]\d{3})*[.,]\d{2}$` */
  predicate Grouped(t: string)
  {
    |t| >= 4 && Thousands(t[..|t| - 3]) && Separator(t[|t| - 3]) && IsDigits(t[|t| - 2..])
  }

  /** `_looks_like_money(text)`: one of the three patterns matches the stripped text. */
  predicate LooksLikeMoney(text: string)
  {
    var t := Strip(text);
    Decimal2(t) || MoneyChars(t) || Grouped(t)
  }

  lemma {:induction false} ThousandsChars(t: string)
    requires Thousands(t)
    ensures MoneyChars(t)
    decreases |t|
  {
    if !(1 <= |t| <= 3 && IsDigits(t)) {
      var a := t[..|t| - 4];
      ThousandsChars(a);
      forall i | 0 <= i < |t| ensures MoneyChar(t[i]) {
        if i < |a| {
          assert t[i] == a[i];
        } else if i > |t| - 4 {
          assert t[i] == t[|t| - 3..][i - (|t| - 3)];
        }
      }
    }
  }

  /**
   * The first and third patterns accept nothing the second does not: a
   * text looks like money exactly when, stripped, it is non-empty and made
   * only of digits, '.' and ','.
   */
  lemma MoneyIff(text: string)
    ensures LooksLikeMoney(text) <==> MoneyChars(Strip(text))
  {
    var t := Strip(text);
    if Grouped(t) {
      var a := t[..|t| - 3];
      ThousandsChars(a);
      forall i | 0 <= i < |t| ensures MoneyChar(t[i]) {
        if i < |a| {
          assert t[i] == a[i];
        } else if i > |t| - 3 {
          assert t[i] == t[|t| - 2..][i - (|t| - 2)];
        }
      }
    }
    if Decimal2(t) {
      var a := t[..|t| - 3];
      forall i | 0 <= i < |t| ensures MoneyChar(t[i]) {
        if i < |a| {
          assert t[i] == a[i];
        } else if i > |t| - 3 {
          assert t[i] == t[|t| - 2..][i - (|t| - 2)];
        }
      }
    }
  }

  // ---------------------------------------------------------------------
  // `extract_header_info`

  const BankWords: seq<string> := ["BANCO", "BRADESCO", "ITAU", "SANTANDER", "CAIXA"]
  const PeriodWords: seq<string> := ["PERÍODO", "PERIODO"]
  const HolderWords: seq<string> := ["CORRENTISTA", "TITULAR", "CLIENTE"]

  /** `\d+[-.]?\d*` */
  const NumberRe: Re := Cats([Plus(Digit), Opt(Chr(Among("-."))), Star(Digit)])

  /** `re.findall(r'\d+[-.]?\d*', line)` */
  function Found(line: string): (ns: seq<string>)
    ensures |ns| == |FindIter(NumberRe, line)|
  {
    var ms := FindIter(NumberRe, line);
    seq(|ms|, k requires 0 <= k < |ms| => Whole(line, ms[k]))
  }

  /** The branch a header line gives: its first number, on a line naming 'AG'. */
  function LineAgency(raw: string): Option<string>
  {
    var l := Strip(raw);
    var ns := Found(l);
    if Contains(Upper(l), "AG") && |ns| > 0 then Some(ns[0]) else None
  }

  /** The account a header line gives: its last number, on a line naming 'CONTA'. */
  function LineAccount(raw: string): Option<string>
  {
    var l := Strip(raw);
    var ns := Found(l);
    if Contains(Upper(l), "CONTA") && |ns| > 0 then Some(ns[|ns| - 1]) else None
  }

  /** `re.match(r'^\d+', part)` */
  predicate StartsWithDigit(part: string)
  {
    |part| > 0 && IsDigit(part[0])
  }

  /** The first word from `i` on that does not start with a digit and is longer than three, with every word after it. */
  function Holder(parts: seq<string>, i: nat): (r: Option<string>)
    requires i <= |parts|
    ensures r.Some? ==> exists j | i <= j < |parts| :: |parts[j]| > 3 && !StartsWithDigit(parts[j]) && r.value == Join(" ", parts[j..])
    ensures r.None? <==> forall j | i <= j < |parts| :: |parts[j]| <= 3 || StartsWithDigit(parts[j])
    decreases |parts| - i
  {
    if i == |parts| then None
    else if !StartsWithDigit(parts[i]) && |parts[i]| > 3 then Some(Join(" ", parts[i..]))
    else Holder(parts, i + 1)
  }

  /** The holder's loop over the words, which breaks at the first word that qualifies. */
  method HolderLoop(parts: seq<string>) returns (r: Option<string>)
    ensures r == Holder(parts, 0)
  {
    var i := 0;
    while i < |parts|
      invariant 0 <= i <= |parts|
      invariant Holder(parts, i) == Holder(parts, 0)
    {
      if !StartsWithDigit(parts[i]) && |parts[i]| > 3 {
        assert Holder(parts, i) == Some(Join(" ", parts[i..]));
        return Some(Join(" ", parts[i..]));
      }
      i := i + 1;
    }
    return None;
  }

  /** The bank's name: a stripped line naming a bank. */
  function BankName(h: Header, l: string): (r: Header)
    ensures r == h.(bankName := r.bankName)
    ensures ContainsAny(Upper(l), BankWords) ==> r.bankName == Some(l)
    ensures !ContainsAny(Upper(l), BankWords) ==> r.bankName == h.bankName
  {
    if ContainsAny(Upper(l), BankWords) then h.(bankName := Some(l)) else h
  }

  /** The branch and the account of a line naming either, each only when named. */
  function AccountFields(h: Header, raw: string): (r: Header)
    ensures r == h.(agency := r.agency, accountNumber := r.accountNumber)
    ensures r.agency == if LineAgency(raw).Some? then LineAgency(raw) else h.agency
    ensures r.accountNumber == if LineAccount(raw).Some? then LineAccount(raw) else h.accountNumber
  {
    var l := Strip(raw);
    var u := Upper(l);
    var ns := Found(l);
    if (Contains(u, "CONTA") || Contains(u, "AG")) && |ns| > 0 then
      h.(agency := if Contains(u, "AG") then Some(ns[0]) else h.agency,
         accountNumber := if Contains(u, "CONTA") then Some(ns[|ns| - 1]) else h.accountNumber)
    else h
  }

  /**
   * The period: with two full dates on a line naming the period, the start
   * from the first and the end from the second; a date `strptime` refuses
   * ends the update there, so a valid start with an invalid end sets only
   * the start.
   */
  function Period(h: Header, l: string): (r: Header)
    ensures r == h.(periodStart := r.periodStart, periodEnd := r.periodEnd)
    ensures r.periodEnd != h.periodEnd ==> r.periodStart.Some? && r.periodEnd.Some?
    ensures r.periodStart.Some? ==> Valid(r.periodStart.value) || r.periodStart == h.periodStart
  {
    var ds := FindIter(FullDate, l);
    if |ds| >= 2 && ContainsAny(Upper(l), PeriodWords) then
      match Strptime(Whole(l, ds[0]))
      case None => h
      case Some(a) =>
        match Strptime(Whole(l, ds[1]))
        case None => h.(periodStart := Some(a))
        case Some(b) => h.(periodStart := Some(a), periodEnd := Some(b))
    else h
  }

  /** The holder: on a line naming the holder, the words from the first that qualifies. */
  function AccountHolder(h: Header, l: string): (r: Header)
    ensures r == h.(accountHolder := r.accountHolder)
    ensures !ContainsAny(Upper(l), HolderWords) ==> r == h
  {
    if ContainsAny(Upper(l), HolderWords) then
      match Holder(Words(l), 0)
      case Some(x) => h.(accountHolder := Some(x))
      case None => h
    else h
  }

  /**
   * One of the first fifteen lines, stripped, read for the bank's name, the
   * branch and account, the period and the holder, in this order.
   */
  function HeaderLine(h: Header, raw: string): (r: Header)
    ensures r.agency == if LineAgency(raw).Some? then LineAgency(raw) else h.agency
    ensures r.accountNumber == if LineAccount(raw).Some? then LineAccount(raw) else h.accountNumber
    ensures r.bankName == if ContainsAny(Upper(Strip(raw)), BankWords) then Some(Strip(raw)) else h.bankName
    ensures r.initialBalance == h.initialBalance && r.finalBalance == h.finalBalance
  {
    var l := Strip(raw);
    AccountHolder(Period(AccountFields(BankName(h, l), raw), l), l)
  }

  /** `text.split('\n')[:15]` */
  function FirstLines(text: string): (ls: seq<string>)
    ensures |ls| <= 15
  {
    var all := Split(text, '\n');
    if |all| <= 15 then all else all[..15]
  }

  /** The header after reading `lines` in order, each updating it. */
  function HeaderOf(lines: seq<string>): Header
  {
    Scan.Thread(DefaultHeader, lines, HeaderLine)
  }

  /** `extract_header_info`: the header after its first fifteen lines. */
  function HeaderInfo(text: string): Header
  {
    HeaderOf(FirstLines(text))
  }

  method ExtractHeaderInfo(text: string) returns (h: Header)
    ensures h == HeaderInfo(text)
  {
    var lines := FirstLines(text);
    h := Scan.ThreadLoop(DefaultHeader, lines, HeaderLine);
  }

  /**
   * The branch is the one the last header line giving a branch gives (its
   * first number); with no such line it stays missing.
   */
  lemma AgencyLine(lines: seq<string>) returns (i: int)
    ensures -1 <= i < |lines|
    ensures i == -1 ==> HeaderOf(lines).agency.None? && forall j | 0 <= j < |lines| :: LineAgency(lines[j]).None?
    ensures i >= 0 ==> LineAgency(lines[i]).Some? && HeaderOf(lines).agency == LineAgency(lines[i])
    ensures i >= 0 ==> forall j | i < j < |lines| :: LineAgency(lines[j]).None?
  {
    i := Scan.ThreadLast(DefaultHeader, lines, HeaderLine, (h: Header) => h.agency, LineAgency);
  }

  /**
   * The account is the one the last header line giving an account gives
   * (its last number); with no such line it stays missing.
   */
  lemma AccountLine(lines: seq<string>) returns (i: int)
    ensures -1 <= i < |lines|
    ensures i == -1 ==> HeaderOf(lines).accountNumber.None? && forall j | 0 <= j < |lines| :: LineAccount(lines[j]).None?
    ensures i >= 0 ==> LineAccount(lines[i]).Some? && HeaderOf(lines).accountNumber == LineAccount(lines[i])
    ensures i >= 0 ==> forall j | i < j < |lines| :: LineAccount(lines[j]).None?
  {
    i := Scan.ThreadLast(DefaultHeader, lines, HeaderLine, (h: Header) => h.accountNumber, LineAccount);
  }

  /** No line ever sets the balances: the header leaves them missing. */
  lemma {:induction false} NoBalances(lines: seq<string>)
    ensures HeaderOf(lines).initialBalance.None? && HeaderOf(lines).finalBalance.None?
  {
    if |lines| > 0 {
      NoBalances(lines[..|lines| - 1]);
    }
  }

  // ---------------------------------------------------------------------
  // `extract_transactions_from_table`: the column mapping.

  /** The column a header cell names: its text lower-cased, tested in this order. */
  function Key(c: Cell): Option<string>
  {
    if !Filled(c) then None
    else
      var l := Lower(c.value);
      if Contains(l, "movimento") || Contains(l, "dt") then Some("movement_date")
      else if Contains(l, "balancete") then Some("balance_date")
      else if ContainsAny(l, ["histórico", "historico", "descrição"]) then Some("description")
      else if Contains(l, "documento") || Contains(l, "doc") then Some("document")
      else if Contains(l, "valor") && Contains(l, "r$") then Some("value")
      else if Contains(l, "saldo") then Some("balance")
      else None
  }

  type Columns = map<string, nat>

  /** The column mapping of a header row: each cell that names a key maps it to the cell's index. */
  function MapColumns(header: TableRow, key: Cell -> Option<string>): (m: Columns)
    ensures forall k | k in m :: m[k] < |header|
  {
    if |header| == 0 then map[]
    else
      var n := |header| - 1;
      match key(header[n])
      case None => MapColumns(header[..n], key)
      case Some(k) => MapColumns(header[..n], key)[k := n]
  }

  /** A mapped key sits at a cell that names it. */
  lemma {:induction false} MappedNamed(header: TableRow, key: Cell -> Option<string>)
    ensures forall k | k in MapColumns(header, key) :: key(header[MapColumns(header, key)[k]]) == Some(k)
  {
    if |header| > 0 {
      var n := |header| - 1;
      MappedNamed(header[..n], key);
      assert forall j | 0 <= j < n :: header[..n][j] == header[j];
    }
  }

  /** The last cell naming a key wins: no later cell names a mapped key. */
  lemma {:induction false} MappedLast(header: TableRow, key: Cell -> Option<string>)
    ensures forall k | k in MapColumns(header, key) :: forall j | MapColumns(header, key)[k] < j < |header| :: key(header[j]) != Some(k)
  {
    if |header| > 0 {
      var n := |header| - 1;
      MappedLast(header[..n], key);
      assert forall j | 0 <= j < n :: header[..n][j] == header[j];
    }
  }

  /** Every key some header cell names is mapped. */
  lemma {:induction false} NamedMapped(header: TableRow, key: Cell -> Option<string>)
    ensures forall j | 0 <= j < |header| && key(header[j]).Some? :: key(header[j]).value in MapColumns(header, key)
  {
    if |header| > 0 {
      var n := |header| - 1;
      NamedMapped(header[..n], key);
      assert forall j | 0 <= j < n :: header[..n][j] == header[j];
    }
  }

  /** The mapping loop over the header's cells. */
  method MapColumnsLoop(header: TableRow) returns (m: Columns)
    ensures m == MapColumns(header, Key)
  {
    m := map[];
    var i := 0;
    while i < |header|
      invariant 0 <= i <= |header|
      invariant m == MapColumns(header[..i], Key)
    {
      assert header[..i + 1][..i] == header[..i];
      var k := Key(header[i]);
      if k.Some? {
        m := m[k.value := i];
      }
      i := i + 1;
    }
    assert header[..i] == header;
  }

  // ---------------------------------------------------------------------
  // `extract_transactions_from_table`: one row.

  /** `str(row[i] or '').strip()`; `None` where the index raises. */
  function At(row: TableRow, i: nat): (r: Option<string>)
    ensures r.Some? <==> i < |row|
    ensures i < |row| ==> r.value == Strip(CellText(row[i]))
  {
    if i < |row| then Some(Strip(CellText(row[i]))) else None
  }

  /** A cell that reads as a full date: `re.match(r'\d{2}/\d{2}/\d{4}', s)` and `strptime`; `None` otherwise. */
  function DateOf(s: string): (r: Option<Date>)
    ensures r.Some? ==> ReMatch(FullDate, s).Some? && r == Strptime(s) && Valid(r.value)
  {
    if |s| > 0 && ReMatch(FullDate, s).Some? then Strptime(s) else None
  }

  /** The movement date: the clock when no column holds it; `None`, skipping the row, when the cell is not a full date or is missing. */
  function Movement(row: TableRow, cols: Columns, now: Date): (r: Option<Date>)
    ensures "movement_date" !in cols ==> r == Some(now)
    ensures "movement_date" in cols ==>
      (r.Some? <==> At(row, cols["movement_date"]).Some? && DateOf(At(row, cols["movement_date"]).value).Some?)
    ensures "movement_date" in cols && r.Some? ==> r == DateOf(At(row, cols["movement_date"]).value)
  {
    if "movement_date" !in cols then Some(now)
    else
      match At(row, cols["movement_date"])
      case None => None
      case Some(s) => DateOf(s)
  }

  /**
   * The balance date: missing when no column holds it or its cell is not
   * shaped as a full date; the outer `None` (a skipped row) when the cell
   * is missing or shaped as a date `strptime` refuses.
   */
  function BalanceDate(row: TableRow, cols: Columns): (r: Option<Option<Date>>)
    ensures r.Some? && r.value.Some? ==> Valid(r.value.value)
  {
    if "balance_date" !in cols then Some(None)
    else
      match At(row, cols["balance_date"])
      case None => None
      case Some(s) =>
        if |s| > 0 && ReMatch(FullDate, s).Some? then
          match Strptime(s)
          case None => None
          case Some(d) => Some(Some(d))
        else Some(None)
  }

  /** `re.match(r'^[\d.,+-]+$', doc)`: a cell that is an amount rather than a document. */
  predicate AmountLike(d: string)
  {
    |d| > 0 && forall i | 0 <= i < |d| :: MoneyChar(d[i]) || d[i] == '+' || d[i] == '-'
  }

  /** The document: kept only when it is not empty and not amount-like. */
  function Document(row: TableRow, cols: Columns): (r: Option<Option<string>>)
    ensures r.Some? && r.value.Some? ==> |r.value.value| > 0 && !AmountLike(r.value.value)
    ensures r.None? <==> "document" in cols && cols["document"] >= |row|
  {
    if "document" !in cols then Some(None)
    else
      match At(row, cols["document"])
      case None => None
      case Some(d) => Some(if |d| > 0 && !AmountLike(d) then Some(d) else None)
  }

  /** A mapped amount column's text, or none; the outer `None` when the index raises. */
  function Mapped(row: TableRow, cols: Columns, key: string): (r: Option<Option<string>>)
    ensures r.Some? && r.value.Some? ==> |r.value.value| > 0
    ensures r.None? <==> key in cols && cols[key] >= |row|
  {
    if key !in cols then Some(None)
    else
      match At(row, cols[key])
      case None => None
      case Some(v) => Some(if |v| > 0 then Some(v) else None)
  }

  /** A cell that is not empty and looks like money. */
  predicate MoneyAt(c: Cell)
  {
    Filled(c) && LooksLikeMoney(c.value)
  }

  /** The first cell from `i` on that is not empty and looks like money. */
  function MoneyCell(row: TableRow, i: nat): (r: Option<nat>)
    requires i <= |row|
    ensures r.Some? ==> i <= r.value < |row| && MoneyAt(row[r.value])
    ensures r.Some? ==> forall j | i <= j < r.value :: !MoneyAt(row[j])
    ensures r.None? ==> forall j | i <= j < |row| :: !MoneyAt(row[j])
    decreases |row| - i
  {
    if i == |row| then None
    else if MoneyAt(row[i]) then Some(i)
    else MoneyCell(row, i + 1)
  }

  /** The search over a row's cells for an amount, which breaks at the first. */
  method FindMoneyCell(row: TableRow) returns (r: Option<nat>)
    ensures r == MoneyCell(row, 0)
  {
    var i := 0;
    while i < |row|
      invariant 0 <= i <= |row|
      invariant MoneyCell(row, i) == MoneyCell(row, 0)
    {
      if MoneyAt(row[i]) {
        return Some(i);
      }
      i := i + 1;
    }
    return None;
  }

  /** The amount: from its column when that cell is not empty, else from the first cell that looks like money; none when neither exists. */
  function Value(row: TableRow, cols: Columns): (r: Option<Option<int>>)
    ensures r.None? <==> "value" in cols && cols["value"] >= |row|
    ensures Mapped(row, cols, "value") == Some(None) ==>
      r == Some(if MoneyCell(row, 0).Some? then Some(ParseValue(row[MoneyCell(row, 0).value].value)) else None)
    ensures Mapped(row, cols, "value").Some? && Mapped(row, cols, "value").value.Some? ==>
      r == Some(Some(ParseValue(Mapped(row, cols, "value").value.value)))
  {
    match Mapped(row, cols, "value")
    case None => None
    case Some(Some(v)) => Some(Some(ParseValue(v)))
    case Some(None) =>
      var j := MoneyCell(row, 0);
      if j.Some? then Some(Some(ParseValue(row[j.value].value))) else Some(None)
  }

  /**
   * One table row: `None` when it is skipped (shorter than three cells, no
   * valid movement date where a column holds it, a mapped index past its
   * end, a balance date `strptime` refuses, or no amount found). A kept
   * row is a credit exactly when its amount is positive.
   */
  function RowTxn(cols: Columns, row: TableRow, now: Date): (r: Option<Transaction>)
    ensures |row| < 3 ==> r.None?
    ensures "movement_date" in cols && (At(row, cols["movement_date"]).None? || DateOf(At(row, cols["movement_date"]).value).None?) ==> r.None?
    ensures r.Some? ==> Some(r.value.movementDate) == Movement(row, cols, now)
    ensures r.Some? ==> Value(row, cols) == Some(Some(r.value.value))
    ensures r.Some? ==> r.value.kind == Some(if r.value.value > 0 then "credit" else "debit")
    ensures r.Some? ==> Some(r.value.document) == Document(row, cols)
    ensures r.Some? ==> Some(r.value.balanceDate) == BalanceDate(row, cols)
    ensures r.Some? ==> "description" in cols ==> Some(r.value.description) == At(row, cols["description"])
    ensures r.Some? ==> "description" !in cols ==> r.value.description == ""
  {
    if |row| < 3 then None
    else
      var mv, bd, doc := Movement(row, cols, now), BalanceDate(row, cols), Document(row, cols);
      var desc := if "description" in cols then At(row, cols["description"]) else Some("");
      var v, bal := Value(row, cols), Mapped(row, cols, "balance");
      if mv.None? || bd.None? || doc.None? || desc.None? || v.None? || bal.None? then None
      else if v.value.None? then None
      else
        var a := v.value.value;
        var balance := if bal.value.Some? then Some(ParseValue(bal.value.value)) else None;
        Some(Transaction(mv.value, bd.value, desc.value, doc.value, a, balance, Some(if a > 0 then "credit" else "debit")))
  }

  function RowAt(c: (Columns, Date), row: TableRow): Option<Transaction>
  {
    RowTxn(c.0, row, c.1)
  }

  /** `extract_transactions_from_table`: none for a table of fewer than two rows; otherwise the kept rows after the header, in order. */
  function Transactions(table: Table, now: Date): (ts: seq<Transaction>)
    ensures |table| < 2 ==> ts == []
    ensures |table| >= 2 ==> ts == Scan.Collect((MapColumns(table[0], Key), now), table[1..], RowAt)
  {
    if |table| < 2 then [] else Scan.Collect((MapColumns(table[0], Key), now), table[1..], RowAt)
  }

  method ExtractTransactionsFromTable(table: Table, now: Date) returns (ts: seq<Transaction>)
    ensures ts == Transactions(table, now)
  {
    if |table| < 2 {
      return [];
    }
    var cols := MapColumnsLoop(table[0]);
    ts := Scan.CollectLoop((cols, now), table[1..], RowAt);
  }

  /**
   * What every transaction read from a table satisfies: at most one per
   * row after the header, a credit exactly when its amount is positive, a
   * document that is not amount-like, and dates that exist (the clock's
   * date when no column holds the movement date).
   */
  lemma TableSound(table: Table, now: CalendarDate)
    ensures |Transactions(table, now)| <= if |table| < 2 then 0 else |table| - 1
    ensures forall t | t in Transactions(table, now) ::
      && t.kind == Some(if t.value > 0 then "credit" else "debit")
      && (t.document.Some? ==> |t.document.value| > 0 && !AmountLike(t.document.value))
      && Printable(t)
  {
    if |table| >= 2 {
      var c := (MapColumns(table[0], Key), now);
      forall t | t in Transactions(table, now)
        ensures t.kind == Some(if t.value > 0 then "credit" else "debit")
        ensures t.document.Some? ==> |t.document.value| > 0 && !AmountLike(t.document.value)
        ensures Printable(t)
      {
        var i :| 0 <= i < |table[1..]| && RowAt(c, table[1..][i]) == Some(t);
        var row := table[1..][i];
        assert RowTxn(c.0, row, now) == Some(t);
      }
    }
  }
}
