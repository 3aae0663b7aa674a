/**
 * `scripts_individuais/extrator_generico.py`: the stand-alone generic
 * extractor. The bank is guessed from the file name, then from the first
 * page's text; metadata come from bank-specific patterns on that page; the
 * lines of every page are scanned by the bank's branch, carrying the last
 * date seen; and `main` drops repeated (date, description, amount) rows,
 * attaching the metadata to the rows it keeps.
 */
module Generico {
  import opened Wrappers
  import opened Text
  import opened Numbers
  import opened Regex
  import opened Patterns
  import opened Pdf
  import Scan

  // ---------------------------------------------------------------------
  // `detect_bank`

  const Generic: string := "Banco Genérico"
  const Santander: string := "Banco Santander"

  /** One entry of `bank_keywords`: the words looked for in the file name and in the text. */
  datatype Keywords = Keywords(bank: string, file: seq<string>, text: seq<string>)

  /** `bank_keywords`, in the dictionary's order. */
  const Banks: seq<Keywords> := [
    Keywords("Banco Bradesco S/A", ["BRADESCO"], ["BRADESCO", "BANCO BRADESCO", "237", "AG:", "CC:", "EXTRATO DE:"]),
    Keywords("Banco Itaú", ["ITAU", "ITAÚ"], ["ITAU", "ITAÚ", "BANCO ITAU", "341", "AGENCIA/CONTA:"]),
    Keywords("Caixa Econômica Federal", ["CEF", "CAIXA"], ["CAIXA ECONOMICA", "CEF", "104", "CONTA REFERENCIA"]),
    Keywords("Banco Safra", ["SAFRA"], ["BANCO SAFRA", "SAFRA", "422", "SALDO TOTAL"]),
    Keywords("Banco Daycoval", ["DAYCOVAL"], ["DAYCOVAL", "707", "BANCO DAYCOVAL"]),
    Keywords("Banco ABC Brasil", ["ABC"], ["ABC BRASIL", "BANCO ABC", "246"]),
    Keywords("Banco BV", ["VOTORANTIM", "BV"], ["BANCO VOTORANTIM", "BV", "655", "CONTA VINCULADA"]),
    Keywords("Citibank", ["CITI"], ["CITIBANK", "CITI", "745"]),
    Keywords("Oliveira Trust", ["OT"], ["OLIVEIRA TRUST", "DISTRIBUIDORA DE TITULOS", "CONTA CORRENTE EM REAIS"]),
    Keywords("Vortx", ["VORTX"], ["VORTX", "ULTIMOS LANCAMENTOS", "REMETENTE/FAVORECIDO"]),
    Keywords("Banco Santander", ["SANTANDER"], ["SANTANDER", "BANCO SANTANDER", "033"]),
    Keywords("Nubank", ["NUBANK", "NU"], ["NUBANK", "NU PAGAMENTOS", "260"]),
    Keywords("Banco Inter", ["INTER"], ["BANCO INTER", "INTER", "077"]),
    Keywords("C6 Bank", ["C6"], ["C6 BANK", "BANCO C6", "336"]),
    Keywords("Banco do Brasil", ["BB"], ["BANCO DO BRASIL", "BB", "001", "AGENCIA:", "CONTA CORRENTE"])
  ]

  /** The first entry, in table order, for which `hit` holds. */
  function FirstHit(ks: seq<Keywords>, hit: Keywords -> bool): (r: Option<nat>)
    ensures r.Some? ==> r.value < |ks| && hit(ks[r.value]) && forall j | 0 <= j < r.value :: !hit(ks[j])
    ensures r.None? ==> forall j | 0 <= j < |ks| :: !hit(ks[j])
  {
    if |ks| == 0 then None
    else if hit(ks[0]) then Some(0)
    else
      match FirstHit(ks[1..], hit)
      case None => None
      case Some(j) => Some(j + 1)
  }

  predicate FileHit(filename: string, k: Keywords)
  {
    ContainsAny(Upper(filename), k.file)
  }

  predicate TextHit(text: string, k: Keywords)
  {
    ContainsAny(Upper(text), k.text)
  }

  /** The first bank of `ks` named by the file name, else the first named by the text, else the generic bank. */
  function DetectIn(ks: seq<Keywords>, text: string, filename: string): string
  {
    match FirstHit(ks, k => FileHit(filename, k))
    case Some(j) => ks[j].bank
    case None =>
      match FirstHit(ks, k => TextHit(text, k))
      case Some(j) => ks[j].bank
      case None => Generic
  }

  /** `detect_bank` */
  function DetectBank(text: string, filename: string): string
  {
    DetectIn(Banks, text, filename)
  }

  lemma GenericNotListed()
    ensures forall j | 0 <= j < |Banks| :: Banks[j].bank != Generic
  {
  }

  /**
   * A bank named by the file name is chosen whatever the text says: the
   * first such bank in table order.
   */
  lemma FileNameWins(ks: seq<Keywords>, text: string, filename: string, j: nat)
    requires j < |ks| && FileHit(filename, ks[j])
    ensures exists i | 0 <= i <= j ::
      && FileHit(filename, ks[i]) && DetectIn(ks, text, filename) == ks[i].bank
      && forall i' | 0 <= i' < i :: !FileHit(filename, ks[i'])
  {
    var r := FirstHit(ks, k => FileHit(filename, k));
    assert r.Some? && r.value <= j;
  }

  /** The text is consulted only when no file-name keyword is present, and then the first bank it names wins. */
  lemma TextDecides(ks: seq<Keywords>, text: string, filename: string, j: nat)
    requires forall i | 0 <= i < |ks| :: !FileHit(filename, ks[i])
    requires j < |ks| && TextHit(text, ks[j]) && forall i | 0 <= i < j :: !TextHit(text, ks[i])
    ensures DetectIn(ks, text, filename) == ks[j].bank
  {
    var f := FirstHit(ks, k => FileHit(filename, k));
    var t := FirstHit(ks, k => TextHit(text, k));
    assert f.None? && t == Some(j);
  }

  /** The generic bank is the answer exactly when no keyword of any listed bank is found. */
  lemma DetectGeneric(ks: seq<Keywords>, text: string, filename: string)
    requires forall j | 0 <= j < |ks| :: ks[j].bank != Generic
    ensures DetectIn(ks, text, filename) == Generic
      <==> forall j | 0 <= j < |ks| :: !FileHit(filename, ks[j]) && !TextHit(text, ks[j])
  {
    var f := FirstHit(ks, k => FileHit(filename, k));
    var t := FirstHit(ks, k => TextHit(text, k));
    assert f.Some? ==> FileHit(filename, ks[f.value]);
    assert t.Some? ==> TextHit(text, ks[t.value]);
  }

  /** `main`: an undetected bank whose first page mentions AGENCIA and CONTA is taken for Santander. */
  function FileBank(firstText: string, filename: string): string
  {
    var b := DetectBank(firstText, filename);
    if b == Generic && Contains(firstText, "AGENCIA") && Contains(firstText, "CONTA") then Santander else b
  }

  lemma FileBankGeneric(firstText: string, filename: string)
    ensures FileBank(firstText, filename) == Generic <==>
      && (forall j | 0 <= j < |Banks| :: !FileHit(filename, Banks[j]) && !TextHit(firstText, Banks[j]))
      && !(Contains(firstText, "AGENCIA") && Contains(firstText, "CONTA"))
  {
    GenericNotListed();
    DetectGeneric(Banks, firstText, filename);
  }

  // ---------------------------------------------------------------------
  // `extract_metadata`

  datatype Metadata = Metadata(banco: string, codigoBanco: string, agencia: string, conta: string, periodo: string)

  /** `bank_codes` */
  const BankCodes: seq<(string, string)> := [
    ("Banco do Brasil", "001"), ("Banco Bradesco S/A", "237"), ("Banco Itaú", "341"),
    ("Caixa Econômica Federal", "104"), ("Banco Safra", "422"), ("Banco Daycoval", "707"),
    ("Banco ABC Brasil", "246"), ("Banco BV", "655"), ("Citibank", "745"), ("Oliveira Trust", "999"),
    ("Vortx", "998"), ("Banco Santander", "033"), ("Nubank", "260"), ("Banco Inter", "077"), ("C6 Bank", "336")
  ]

  /** `table.get(key, '')` over a list of pairs with distinct keys. */
  function Lookup(table: seq<(string, string)>, key: string): (v: string)
    ensures (forall j | 0 <= j < |table| :: table[j].0 != key) ==> v == ""
    ensures v == "" || exists j | 0 <= j < |table| :: table[j] == (key, v)
  {
    if |table| == 0 then ""
    else if table[0].0 == key then table[0].1
    else
      var v := Lookup(table[1..], key);
      assert v != "" ==> exists j | 0 <= j < |table[1..]| :: table[1..][j] == (key, v);
      assert forall j | 0 <= j < |table[1..]| :: table[1..][j] == table[j + 1];
      v
  }

  /** `\d+-\d+` */
  const DashNumber: Re := Cats([Plus(Digit), Lit("-"), Plus(Digit)])
  /** `\d+\s*-\s*\d+` */
  const SpacedNumber: Re := Cats([Plus(Digit), Star(Space), Lit("-"), Star(Space), Plus(Digit)])
  /** `\d+[-]?\d*` */
  const LooseNumber: Re := Cats([Plus(Digit), Opt(Lit("-")), Star(Digit)])
  /** `[:\s]*` */
  const ColonGap: Re := Star(Union(Among(":"), Space))

  /** `Ag:\s*(\d+)` */
  const BradescoAgRe: Re := Cats([Lit("Ag:"), Star(Space), Grp(1, Plus(Digit))])
  /** `CC:\s*(\d+-\d+)` */
  const BradescoCcRe: Re := Cats([Lit("CC:"), Star(Space), Grp(1, DashNumber)])
  /** `Entre\s+(\d{2}/\d{2}/\d{4})\s+e\s+(\d{2}/\d{2}/\d{4})` */
  const BradescoPeriodRe: Re := Cats([Lit("Entre"), Spaces, Grp(1, FullDate), Spaces, Lit("e"), Spaces, Grp(2, FullDate)])
  /** `Agência/Conta:\s*(\d+)/(\d+-\d+)` */
  const ItauAccountRe: Re := Cats([Lit("Agência/Conta:"), Star(Space), Grp(1, Plus(Digit)), Lit("/"), Grp(2, DashNumber)])
  /** `ag\s+(\d+)\s+cc\s+(\d+-\d+)` */
  const ItauMonthlyRe: Re := Cats([Lit("ag"), Spaces, Grp(1, Plus(Digit)), Spaces, Lit("cc"), Spaces, Grp(2, DashNumber)])
  /** `Extrato de\s+(\d{2}/\d{2}/\d{4})\s+até\s+(\d{2}/\d{2}/\d{4})` */
  const ItauPeriodRe: Re := Cats([Lit("Extrato de"), Spaces, Grp(1, FullDate), Spaces, Lit("até"), Spaces, Grp(2, FullDate)])
  /** `(jan|fev|...|dez)\s+(\d{4})`, searched case-insensitively. */
  const MonthRe: Re := Cats([Grp(1, Alts(["jan", "fev", "mar", "abr", "mai", "jun", "jul", "ago", "set", "out", "nov", "dez"])), Spaces, Grp(2, Times(Digit, 4))])
  /** `Conta:\s*([\d.-]+)` */
  const BvAccountRe: Re := Cats([Lit("Conta:"), Star(Space), Grp(1, Plus(Union(Digit, Among(".-"))))])
  /** `Período:\s*(\d{2}/\d{2}/\d{4})\s+à\s+(\d{2}/\d{2}/\d{4})` */
  const BvPeriodRe: Re := Cats([Lit("Período:"), Star(Space), Grp(1, FullDate), Spaces, Lit("à"), Spaces, Grp(2, FullDate)])
  /** `Conta:\s*(\d+\s*-\s*\d+)` */
  const TrustAccountRe: Re := Cats([Lit("Conta:"), Star(Space), Grp(1, SpacedNumber)])
  /** `Data de Início\s+(\d{2}/\d{2}/\d{4})\s+Data de Fim\s+(\d{2}/\d{2}/\d{4})` */
  const TrustPeriodRe: Re := Cats([Lit("Data de Início"), Spaces, Grp(1, FullDate), Spaces, Lit("Data de Fim"), Spaces, Grp(2, FullDate)])
  /** `Conta:(\d+\s*-\s*\d+)` */
  const VortxAccountRe: Re := Cats([Lit("Conta:"), Grp(1, SpacedNumber)])
  /** `Ag[eê]ncia[:\s]*(\d+[-]?\d*)` */
  const AgencyRe: Re := Cats([Lit("Ag"), Chr(Among("eê")), Lit("ncia"), ColonGap, Grp(1, LooseNumber)])
  /** `Agência[:\s]*(\d+[-]?\d*)` */
  const AgenciaRe: Re := Cats([Lit("Agência"), ColonGap, Grp(1, LooseNumber)])
  /** `Conta[:\s]*(\d+[-]?\d*)` */
  const AccountRe: Re := Cats([Lit("Conta"), ColonGap, Grp(1, LooseNumber)])
  /** `(\d{2}/\d{2}/\d{4})\s+[ae]\s+(\d{2}/\d{2}/\d{4})` */
  const PeriodRe: Re := Cats([Grp(1, FullDate), Spaces, Chr(Among("ae")), Spaces, Grp(2, FullDate)])

  /** `a|b|...`, tried in order. */
  function Alts(ws: seq<string>): Re
  {
    if |ws| == 0 then Eps else if |ws| == 1 then Lit(ws[0]) else Alt(Lit(ws[0]), Alts(ws[1..]))
  }

  /** `m.group(1)` of the first match, if any. */
  function First(r: Re, s: string): (g: Option<string>)
    ensures g.None? <==> ReSearch(r, s).None?
  {
    match ReSearch(r, s)
    case None => None
    case Some(m) => Some(Group(s, m, 1))
  }

  /** `f"{m.group(1)} a {m.group(2)}"` of the first match, if any. */
  function Between(r: Re, s: string): (g: Option<string>)
    ensures g.None? <==> ReSearch(r, s).None?
  {
    match ReSearch(r, s)
    case None => None
    case Some(m) => Some(Group(s, m, 1) + " a " + Group(s, m, 2))
  }

  /** `str.title()` of a lower-case month abbreviation. */
  function Title(g: string): string
  {
    if |g| == 0 then "" else Upper(g[..1]) + g[1..]
  }

  /** The closing assignments: each field whose match exists, the account without spaces. */
  function Assign(m: Metadata, agencia: Option<string>, conta: Option<string>, periodo: Option<string>): (out: Metadata)
    ensures out.banco == m.banco && out.codigoBanco == m.codigoBanco
    ensures agencia.None? ==> out.agencia == m.agencia
    ensures conta.None? ==> out.conta == m.conta
    ensures conta.Some? ==> ' ' !in out.conta
    ensures periodo.None? ==> out.periodo == m.periodo
  {
    m.(agencia := agencia.GetOr(m.agencia),
       conta := if conta.Some? then Drop(conta.value, ' ') else m.conta,
       periodo := periodo.GetOr(m.periodo))
  }

  /** The Itaú branch: agency and account from the labelled pattern, else from the monthly one; the period as dates, else as a month. */
  function ItauMetadata(m: Metadata, text: string): (r: Metadata)
    ensures r.banco == m.banco && r.codigoBanco == m.codigoBanco
    ensures ReSearch(ItauAccountRe, text).None? && ReSearch(ItauMonthlyRe, text).None? ==> r.agencia == m.agencia && r.conta == m.conta
    ensures ReSearch(ItauPeriodRe, text).None? && ReSearch(MonthRe, Lower(text)).None? ==> r.periodo == m.periodo
  {
    ItauPeriod(ItauAccount(m, text), text)
  }

  /** Agency and account from the labelled pattern, else, while the agency is still empty, from the monthly one. */
  function ItauAccount(m: Metadata, text: string): (r: Metadata)
    ensures r == m.(agencia := r.agencia, conta := r.conta)
    ensures ReSearch(ItauAccountRe, text).None? && ReSearch(ItauMonthlyRe, text).None? ==> r == m
  {
    var m1 := match ReSearch(ItauAccountRe, text)
      case None => m
      case Some(a) => m.(agencia := Group(text, a, 1), conta := Group(text, a, 2));
    if m1.agencia != "" then m1 else
      match ReSearch(ItauMonthlyRe, text)
      case None => m1
      case Some(a) => m1.(agencia := Group(text, a, 1), conta := Group(text, a, 2))
  }

  /** The period as the two dates of the statement, else as the month named in the text. */
  function ItauPeriod(m: Metadata, text: string): (r: Metadata)
    ensures r == m.(periodo := r.periodo)
    ensures ReSearch(ItauPeriodRe, text).None? && ReSearch(MonthRe, Lower(text)).None? ==> r == m
  {
    match Between(ItauPeriodRe, text)
    case Some(p) => m.(periodo := p)
    case None =>
      var low := Lower(text);
      match ReSearch(MonthRe, low)
      case None => m
      case Some(a) => m.(periodo := Title(Group(low, a, 1)) + " " + Group(low, a, 2))
  }

  /** The branches of `extract_metadata`, tested in the source's order on the bank's name. */
  datatype MetaBranch = BradescoMeta | ItauMeta | VotorantimMeta | TrustMeta | VortxMeta | OtherMeta

  function MetaBranchOf(bank: string): MetaBranch
  {
    if Contains(bank, "Bradesco") then BradescoMeta
    else if Contains(bank, "Itaú") then ItauMeta
    else if Contains(bank, "BV") || Contains(bank, "Votorantim") then VotorantimMeta
    else if Contains(bank, "Oliveira Trust") then TrustMeta
    else if Contains(bank, "Vortx") then VortxMeta
    else OtherMeta
  }

  /** What a branch other than Itaú's finds: the agency, the account and the period, each `None` when its pattern is absent or the branch has none. */
  datatype Hits = Hits(agencia: Option<string>, conta: Option<string>, periodo: Option<string>)

  function BranchHits(text: string, b: MetaBranch): Hits
    requires b != ItauMeta
  {
    match b
    case BradescoMeta => Hits(First(BradescoAgRe, text), First(BradescoCcRe, text), Between(BradescoPeriodRe, text))
    case VotorantimMeta => Hits(None, First(BvAccountRe, text), Between(BvPeriodRe, text))
    case TrustMeta => Hits(None, First(TrustAccountRe, text), Between(TrustPeriodRe, text))
    case VortxMeta => Hits(None, First(VortxAccountRe, text), None)
    case OtherMeta => Hits(First(AgencyRe, text), First(AccountRe, text), Between(PeriodRe, text))
  }

  /** The branch's patterns over the first page; the bank and its code are left alone. */
  function Fill(m: Metadata, text: string, b: MetaBranch): (r: Metadata)
    ensures r.banco == m.banco && r.codigoBanco == m.codigoBanco
  {
    if b == ItauMeta then ItauMetadata(m, text)
    else
      var h := BranchHits(text, b);
      Assign(m, h.agencia, h.conta, h.periodo)
  }

  /**
   * `extract_metadata`: the bank keeps its name, its code is the table's
   * ('' for a bank the table lacks), and the bank's branch fills in what
   * its patterns find on the first page.
   */
  function ExtractMetadata(text: string, bank: string): (r: Metadata)
    ensures r.banco == bank
    ensures (forall j | 0 <= j < |BankCodes| :: BankCodes[j].0 != bank) ==> r.codigoBanco == ""
    ensures r.codigoBanco == "" || exists j | 0 <= j < |BankCodes| :: BankCodes[j] == (bank, r.codigoBanco)
  {
    Fill(Metadata(bank, Lookup(BankCodes, bank), "", "", ""), text, MetaBranchOf(bank))
  }

  // ---------------------------------------------------------------------
  // `concatenate_description_lines`

  /** `\d{1,3}(?:\.\d{3})*,\d{2}` */
  const CentsRe: Re := Cats([Rep(Chr(Digit), 1, AtMost(3), true), Rep(Cat(Lit("."), Times(Digit, 3)), 0, Inf, true), Lit(","), Times(Digit, 2)])

  const DefaultDescription: string := "Operação Bancária"

  /** A stripped line that ends the walk back: an amount, a full date, only digits, empty or shorter than three. */
  predicate Stops(line: string)
  {
    ReSearch(CentsRe, line).Some? || ReSearch(FullDate, line).Some? || IsDigits(line) || |line| == 0 || |line| < 3
  }

  /**
   * The description parts gathered walking back from line `i`, at most `k`
   * of them, in the page's order: each line is cleaned by `clean` (the
   * source strips it) and `stop` says which cleaned line ends the walk.
   */
  function Back(lines: seq<string>, i: int, k: nat, clean: string -> string, stop: string -> bool): seq<string>
    requires i < |lines|
    decreases k
  {
    if i < 0 || k == 0 then []
    else
      var line := clean(lines[i]);
      if stop(line) then [] else Back(lines, i - 1, k - 1, clean, stop) + [line]
  }

  /**
   * The parts are the stripped lines just before and including `i`, in
   * order, none of them a stopping line; fewer than `k` only when the page
   * starts or a stopping line comes next.
   */
  lemma {:induction false} BackShape(lines: seq<string>, i: int, k: nat, clean: string -> string, stop: string -> bool)
    requires i < |lines|
    ensures var ps := Back(lines, i, k, clean, stop);
      && |ps| <= k && (|ps| > 0 ==> |ps| <= i + 1)
      && (forall j | 0 <= j < |ps| :: ps[j] == clean(lines[i - |ps| + 1 + j]) && !stop(ps[j]))
      && (|ps| < k && i - |ps| >= 0 ==> stop(clean(lines[i - |ps|])))
    decreases k
  {
    if i >= 0 && k > 0 && !stop(clean(lines[i])) {
      BackShape(lines, i - 1, k - 1, clean, stop);
    }
  }

  /** `concatenate_description_lines(lines, start)`: at most three lines joined by spaces, or the default text. */
  function Description(lines: seq<string>, start: int): string
    requires start < |lines|
  {
    var ps := Back(lines, start, 3, Strip, Stops);
    if |ps| > 0 then Join(" ", ps) else DefaultDescription
  }

  /** The walk of `concatenate_description_lines`, with the list grown at its front as the source does. */
  method BackLoop(lines: seq<string>, start: int, k: nat, clean: string -> string, stop: string -> bool) returns (parts: seq<string>)
    requires start < |lines|
    ensures parts == Back(lines, start, k, clean, stop)
  {
    parts := [];
    var i := start;
    while i >= 0 && |parts| < k
      invariant i <= start && (i < start ==> -1 <= i) && |parts| <= k
      invariant Back(lines, start, k, clean, stop) == Back(lines, i, k - |parts|, clean, stop) + parts
      decreases i
    {
      var line := clean(lines[i]);
      if stop(line) {
        break;
      }
      assert Back(lines, i, k - |parts|, clean, stop) == Back(lines, i - 1, k - |parts| - 1, clean, stop) + [line];
      assert Back(lines, i - 1, k - |parts| - 1, clean, stop) + [line] + parts == Back(lines, i - 1, k - |parts| - 1, clean, stop) + ([line] + parts);
      parts := [line] + parts;
      i := i - 1;
    }
  }

  method ConcatenateDescriptionLines(lines: seq<string>, start: int) returns (d: string)
    requires start < |lines|
    ensures d == Description(lines, start)
  {
    var parts := BackLoop(lines, start, 3, Strip, Stops);
    d := if |parts| > 0 then Join(" ", parts) else DefaultDescription;
  }

  // ---------------------------------------------------------------------
  // `extract_transactions_all_pages`

  /** One transaction dictionary; `Valor` and `Saldo` in cents. */
  datatype Txn = Txn(data: string, documento: string, descricao: string, valor: int, tipo: string, saldo: int)

  /** The branch of the line loop a bank name selects, tested in the source's order. */
  datatype Branch = BradescoBranch | ItauBranch | VortxBranch | TrustBranch | BrasilBranch | OtherBranch

  function BranchOf(bank: string): Branch
  {
    if Contains(bank, "Bradesco") then BradescoBranch
    else if Contains(bank, "Itaú") then ItauBranch
    else if Contains(bank, "Vortx") then VortxBranch
    else if Contains(bank, "Oliveira Trust") then TrustBranch
    else if Contains(bank, "Banco do Brasil") then BrasilBranch
    else OtherBranch
  }

  const DefaultDate: string := "01/01/2024"

  /** `[+-]?[\d.,]+` */
  const SignedAmount: Re := Cat(Opt(Chr(Among("+-"))), BrAmount)
  /** `\d{4}\.\d{5}-\d` */
  const AccountDigits: Re := Cats([Times(Digit, 4), Lit("."), Times(Digit, 5), Lit("-"), Times(Digit, 1)])

  /** `^(\d+)\s+(amount)\s+(amount)$` */
  const BradescoTxnRe: Re := Cats([Bol, Grp(1, Plus(Digit)), Spaces, Grp(2, CentsRe), Spaces, Grp(3, CentsRe), Eol])
  /** `(\d{2}/\d{2}/\d{4})` */
  const DateRe: Re := Grp(1, FullDate)
  /** `^(\d{2}/\d{2})\s+(.+?)\s+(\d{4}\.\d{5}-\d)\s+([+-]?[\d.,]+)$` */
  const ItauLayout1: Re := Cats([Bol, Grp(1, ShortDate), Spaces, Grp(2, LazyAny), Spaces, Grp(3, AccountDigits), Spaces, Grp(4, SignedAmount), Eol])
  /** `^(\d{2}/\d{2})\s+(.+?)\s+(\d+)\s+([+-]?[\d.,]+)$` */
  const ItauLayout2: Re := Cats([Bol, Grp(1, ShortDate), Spaces, Grp(2, LazyAny), Spaces, Grp(3, Plus(Digit)), Spaces, Grp(4, SignedAmount), Eol])
  /** `^(\d{2}/\d{2})\s+(.+?)\s+([+-]?[\d.,]+)$` */
  const ItauLayout3: Re := Cats([Bol, Grp(1, ShortDate), Spaces, Grp(2, LazyAny), Spaces, Grp(3, SignedAmount), Eol])
  /** `^(\d{2}/\d{2}/\d{4})\s+(.+?)\s+([+-]?[\d.,]+)$` */
  const ItauLayout4: Re := Cats([Bol, Grp(1, FullDate), Spaces, Grp(2, LazyAny), Spaces, Grp(3, SignedAmount), Eol])
  /** `^PIX QRS\s+(.+?)(\d{2}/\d{2})\s+([\d.,]+)$` */
  const PixRe: Re := Cats([Bol, Lit("PIX QRS"), Spaces, Grp(1, LazyAny), Grp(2, ShortDate), Spaces, Grp(3, BrAmount), Eol])
  /** `(\d{2}/\d{2}/\d{4})\s+(.+?)\s+` */
  const DatedHead: Re := Cats([Grp(1, FullDate), Spaces, Grp(2, LazyAny), Spaces])
  /** `R\$\s+([\d.,]+)\s+R\$\s+([\d.,]+)` */
  const AmountPair: Re := Cats([Lit("R$"), Spaces, Grp(3, BrAmount), Spaces, Lit("R$"), Spaces, Grp(4, BrAmount)])
  /** `(\d{2}/\d{2}/\d{4})\s+(.+?)\s+TED\s+Recebida\s+R\$\s+([\d.,]+)\s+R\$\s+([\d.,]+)` */
  const VortxCreditRe: Re := Cats([DatedHead, Lit("TED"), Spaces, Lit("Recebida"), Spaces, AmountPair])
  /** `(\d{2}/\d{2}/\d{4})\s+(.+?)\s+-R\$\s+([\d.,]+)\s+R\$\s+([\d.,]+)` */
  const VortxDebitRe: Re := Cats([DatedHead, Lit("-"), AmountPair])
  /** `(\d{2}/\d{2}/\d{4})\s+(\d+)\s+([\d.,]+)\s+([\d.,]+)` */
  const TrustRe: Re := Cats([Grp(1, FullDate), Spaces, Grp(2, Plus(Digit)), Spaces, Grp(3, BrAmount), Spaces, Grp(4, BrAmount)])
  /** `(\d{2}/\d{2}/\d{4})\s+(.+)` */
  const BrasilRe: Re := Cats([Grp(1, FullDate), Spaces, Grp(2, Rep(Chr(Dot), 1, Inf, true))])
  /** `([\d.,]+)\s+([CD])\s*$` */
  const BrasilAmountRe: Re := Cats([Grp(1, BrAmount), Spaces, Grp(2, Chr(Among("CD"))), Star(Space), Eol])
  /** `^(\d{2}/\d{2}/\d{4})` */
  const DateOnlyRe: Re := Cat(Bol, Grp(1, FullDate))
  /** `^(\d{2}/\d{2})\s` */
  const DateShortRe: Re := Cats([Bol, Grp(1, ShortDate), Chr(Space)])
  /** `^(.+?)\s+([\d.,]+)\s*([DC]?)$` */
  const OtherTxnRe: Re := Cats([Bol, Grp(1, LazyAny), Spaces, Grp(2, BrAmount), Star(Space), Grp(3, Opt(Chr(Among("DC")))), Eol])

  /** A Bradesco line: 'document amount balance' is a credit stamped with the current date (or the default); a dated line without an amount moves the date. */
  function BradescoLine(s: Option<string>, lines: seq<string>, i: nat, line: string): (r: Option<(Option<string>, seq<Txn>)>)
    requires i < |lines|
    ensures r.Some? && |r.value.1| > 0 ==>
      && r.value.0 == s && |r.value.1| == 1
      && r.value.1[0].data == s.GetOr(DefaultDate) && r.value.1[0].tipo == "C"
      && r.value.1[0].descricao == Description(lines, i - 1)
    ensures r.Some? && r.value.0 != s ==> r.value.1 == [] && ReSearch(CentsRe, line).None? && ReSearch(DateRe, line).Some?
  {
    match ReSearch(BradescoTxnRe, line)
    case Some(m) => BradescoRow(s, lines, i, line, m)
    case None =>
      match ReSearch(DateRe, line)
      case Some(d) =>
        if ReSearch(CentsRe, line).None? then Some((Some(Group(line, d, 1)), [])) else Some((s, []))
      case None => Some((s, []))
  }

  /** The credit a Bradesco 'document amount balance' match gives, described by the lines above it, or `None` when `float` raises. */
  function BradescoRow(s: Option<string>, lines: seq<string>, i: nat, line: string, m: Match): Option<(Option<string>, seq<Txn>)>
    requires i < |lines|
  {
    var a := Both(BrFloat(Group(line, m, 2)), BrFloat(Group(line, m, 3)));
    Keep(s, RowOf(s.GetOr(DefaultDate), Group(line, m, 1), Description(lines, i - 1), a, "C"))
  }

  /** An Itaú layout with an amount that may carry a sign: 'D' exactly when it does, the value without it. */
  function SignedTxn(data: string, documento: string, descricao: string, g: string): (r: Option<Txn>)
    ensures r.Some? ==> r.value.valor >= 0 && (r.value.tipo == "D" <==> StartsWith(BrText(g), "-"))
    ensures r.Some? ==> r.value.tipo == "D" || r.value.tipo == "C"
  {
    var t := BrText(g);
    var v := Float(Drop(t, '-'));
    FloatNoMinus(Drop(t, '-'));
    if v.None? then None
    else Some(Txn(data, documento, descricao, v.value, if StartsWith(t, "-") then "D" else "C", 0))
  }

  function Single(t: Option<Txn>): Option<seq<Txn>>
  {
    if t.None? then None else Some([t.value])
  }

  /** The Itaú layouts in order; the first that matches consumes the line. Layout 1: a day and month, a description, an account number and a signed amount. */
  function ItauLine(year: nat, line: string): Option<seq<Txn>>
  {
    match ReSearch(ItauLayout1, line)
    case Some(m) => Single(SignedTxn(Group(line, m, 1), Group(line, m, 3), Strip(Group(line, m, 2)), Group(line, m, 4)))
    case None => ItauNumbered(year, line)
  }

  /** Layout 2: a day and month, a description, a document number and a signed amount. */
  function ItauNumbered(year: nat, line: string): Option<seq<Txn>>
  {
    match ReSearch(ItauLayout2, line)
    case Some(m) => Single(SignedTxn(Group(line, m, 1), Group(line, m, 3), Strip(Group(line, m, 2)), Group(line, m, 4)))
    case None => ItauShortDated(year, line)
  }

  /** Layout 3: a day and month, a description and a signed amount; short descriptions and balance or total lines give nothing. */
  function ItauShortDated(year: nat, line: string): Option<seq<Txn>>
  {
    match ReSearch(ItauLayout3, line)
    case Some(m) =>
      var d := Strip(Group(line, m, 2));
      if |d| < 5 || ContainsAny(Upper(d), ["SALDO", "TOTAL", "EXTRATO"]) then Some([])
      else Single(SignedTxn(Group(line, m, 1), "", d, Group(line, m, 3)))
    case None => ItauFullDated(year, line)
  }

  /** Layout 4: a full date, a description and a signed amount; short descriptions give nothing. */
  function ItauFullDated(year: nat, line: string): Option<seq<Txn>>
  {
    match ReSearch(ItauLayout4, line)
    case Some(m) =>
      var d := Strip(Group(line, m, 2));
      if |d| < 5 then Some([]) else Single(SignedTxn(Group(line, m, 1), "", d, Group(line, m, 3)))
    case None => PixLine(year, line)
  }

  /** A 'PIX QRS' line: a credit dated with the day and month it ends with and the reference year. */
  function PixLine(year: nat, line: string): Option<seq<Txn>>
  {
    match ReSearch(PixRe, line)
    case Some(m) =>
      var v := BrFloat(Group(line, m, 3));
      if v.None? then None
      else Some([Txn(Group(line, m, 2) + "/" + NatToString(year), "PIX", "PIX QRS " + Strip(Group(line, m, 1)), v.value, "C", 0)])
    case None => Some([])
  }

  /** Two amounts read the Brazilian way (groups 3 and 4), or `None` when `float` raises on either. */
  function Amounts(line: string, m: Match): Option<(int, int)>
  {
    Both(BrFloat(Group(line, m, 3)), BrFloat(Group(line, m, 4)))
  }

  function Both(v: Option<int>, b: Option<int>): Option<(int, int)>
  {
    if v.None? || b.None? then None else Some((v.value, b.value))
  }

  /** The one-row result of a line with an amount and a balance, or `None` when they did not read. */
  function RowOf(data: string, documento: string, descricao: string, a: Option<(int, int)>, tipo: string): Option<seq<Txn>>
  {
    match a
    case None => None
    case Some((v, b)) => Some([Txn(data, documento, descricao, v, tipo, b)])
  }

  /** The row of a line whose group 1 is the date and groups 3 and 4 the amount and the balance. */
  function AmountRow(line: string, m: Match, documento: string, descricao: string, tipo: string): Option<seq<Txn>>
  {
    RowOf(Group(line, m, 1), documento, descricao, Amounts(line, m), tipo)
  }

  /** A Vortx line: a received TED is a credit, otherwise a '-R$' amount is a debit. */
  function VortxLine(line: string): Option<seq<Txn>>
  {
    match ReSearch(VortxCreditRe, line)
    case Some(m) => AmountRow(line, m, "", Strip(Group(line, m, 2)) + " TED Recebida", "C")
    case None => VortxDebit(line)
  }

  function VortxDebit(line: string): Option<seq<Txn>>
  {
    match ReSearch(VortxDebitRe, line)
    case Some(m) => AmountRow(line, m, "", Strip(Group(line, m, 2)), "D")
    case None => Some([])
  }

  /** An Oliveira Trust line: date, document, amount and balance, always a credit. */
  function TrustLine(line: string): Option<seq<Txn>>
  {
    match ReSearch(TrustRe, line)
    case Some(m) => AmountRow(line, m, Group(line, m, 2), "Operação Financeira", "C")
    case None => Some([])
  }

  /** The next line, appended to a Banco do Brasil description when it is long enough and undated. */
  function WithNext(descricao: string, lines: seq<string>, i: nat): string
  {
    if i + 1 < |lines| then
      var next := Strip(lines[i + 1]);
      if |next| > 0 && ReSearch(FullDate, next).None? && |next| > 5 then descricao + " " + next else descricao
    else descricao
  }

  /** A Banco do Brasil line: any dated line whose rest ends with an amount and C or D. */
  function BrasilLine(lines: seq<string>, i: nat, line: string): Option<seq<Txn>>
  {
    match ReSearch(BrasilRe, line)
    case Some(m) =>
      var rest := Strip(Group(line, m, 2));
      (match ReSearch(BrasilAmountRe, rest)
       case Some(a) =>
         var v := BrFloat(Group(rest, a, 1));
         if v.None? then None
         else Some([Txn(Group(line, m, 1), "", WithNext(Strip(rest[..a.start]), lines, i), v.value, Group(rest, a, 2), 0)])
       case None => Some([]))
    case None => Some([])
  }

  /**
   * The other banks: a line starting with a full date only moves the date;
   * one starting with a day and month moves it and is still read; a line is
   * read only once a date is known, and a row it gives carries that date.
   */
  function OtherLine(s: Option<string>, line: string): (r: Option<(Option<string>, seq<Txn>)>)
    ensures r.Some?
    ensures ReSearch(DateOnlyRe, line).Some? ==> r.value.1 == [] && r.value.0 == Some(Group(line, ReSearch(DateOnlyRe, line).value, 1))
    ensures |r.value.1| > 0 ==> r.value.0.Some? && |r.value.1| == 1 && r.value.1[0].data == r.value.0.value
    ensures |r.value.1| > 0 && s.None? ==> ReSearch(DateShortRe, line).Some?
  {
    match ReSearch(DateOnlyRe, line)
    case Some(m) => Some((Some(Group(line, m, 1)), []))
    case None =>
      var s1 := match ReSearch(DateShortRe, line) case Some(m) => Some(Group(line, m, 1)) case None => s;
      if s1.None? then Some((s1, []))
      else
        match ReSearch(OtherTxnRe, line)
        case Some(m) =>
          if |Group(line, m, 1)| > 3 then
            var v := BrFloat(Group(line, m, 2));
            var g := Group(line, m, 3);
            if v.None? then Some((s1, []))
            else Some((s1, [Txn(s1.value, "", Strip(Group(line, m, 1)), v.value, if |g| > 0 then g else "C", 0)]))
          else Some((s1, []))
        case None => Some((s1, []))
  }

  /** A branch that leaves the date alone. */
  function Keep(s: Option<string>, r: Option<seq<Txn>>): Option<(Option<string>, seq<Txn>)>
  {
    if r.None? then None else Some((s, r.value))
  }

  /** The body of the line loop: empty lines and page headings are skipped; otherwise the bank's branch reads the line. */
  function LineStep(b: Branch, year: nat, lines: seq<string>, s: Option<string>, i: nat): Option<(Option<string>, seq<Txn>)>
  {
    if i >= |lines| then Some((s, []))
    else
      var line := Strip(lines[i]);
      if Skipped(line) then Some((s, [])) else ReadLine(b, year, lines, s, i, line)
  }

  /** Empty lines and page headings. */
  predicate Skipped(line: string)
  {
    |line| == 0 || StartsWith(line, "Data") || StartsWith(line, "Página") || StartsWith(line, "Extrato")
  }

  /** The bank's branch of the line loop. */
  function ReadLine(b: Branch, year: nat, lines: seq<string>, s: Option<string>, i: nat, line: string): Option<(Option<string>, seq<Txn>)>
    requires i < |lines|
  {
    match b
    case BradescoBranch => BradescoLine(s, lines, i, line)
    case OtherBranch => OtherLine(s, line)
    case _ => Keep(s, DatelessLine(b, year, lines, i, line))
  }

  /** The branches that neither read nor move `current_date`. */
  function DatelessLine(b: Branch, year: nat, lines: seq<string>, i: nat, line: string): Option<seq<Txn>>
  {
    match b
    case ItauBranch => ItauLine(year, line)
    case VortxBranch => VortxLine(line)
    case TrustBranch => TrustLine(line)
    case BrasilBranch => BrasilLine(lines, i, line)
    case _ => Some([])
  }

  function Indices(n: nat): (xs: seq<nat>)
    ensures |xs| == n && forall i | 0 <= i < n :: xs[i] == i
  {
    seq(n, i requires 0 <= i < n => i)
  }

  function LineFn(b: Branch, year: nat, lines: seq<string>): (Option<string>, nat) -> Option<(Option<string>, seq<Txn>)>
  {
    (s: Option<string>, i: nat) => LineStep(b, year, lines, s, i)
  }

  /** One page: a page whose text raises stops everything; one without text is skipped; the date carries over. */
  function PageStep(b: Branch, year: nat, s: Option<string>, p: Page): Option<(Option<string>, seq<Txn>)>
  {
    if p.text.Raises? then None
    else if !HasText(p.text) then Some((s, []))
    else
      var lines := PageLines(p.text);
      Scan.TryFold(s, Indices(|lines|), LineFn(b, year, lines))
  }

  function PageFn(b: Branch, year: nat): (Option<string>, Page) -> Option<(Option<string>, seq<Txn>)>
  {
    (s: Option<string>, p: Page) => PageStep(b, year, s, p)
  }

  /** `extract_transactions_all_pages`: `None` when an exception leaves it. */
  function AllPages(b: Branch, year: nat, pages: seq<Page>): Option<(Option<string>, seq<Txn>)>
  {
    Scan.TryFold(None, pages, PageFn(b, year))
  }

  /** One page of the loop: its text, then its lines in order. */
  method ReadPage(b: Branch, year: nat, s: Option<string>, p: Page) returns (r: Option<(Option<string>, seq<Txn>)>)
    ensures r == PageStep(b, year, s, p)
  {
    if p.text.Raises? {
      return None;
    }
    if !HasText(p.text) {
      return Some((s, []));
    }
    var lines := PageLines(p.text);
    r := Scan.TryFoldLoop(s, Indices(|lines|), LineFn(b, year, lines));
  }

  /** The loops of `extract_transactions_all_pages`, with `current_date` carried across pages. */
  method ExtractTransactionsAllPages(b: Branch, year: nat, pages: seq<Page>) returns (r: Option<(Option<string>, seq<Txn>)>)
    ensures r == AllPages(b, year, pages)
  {
    var current: Option<string> := None;
    var txns: seq<Txn> := [];
    var k := 0;
    while k < |pages|
      invariant 0 <= k <= |pages|
      invariant Scan.TryFold(None, pages[..k], PageFn(b, year)) == Some((current, txns))
    {
      assert pages[..k + 1][..k] == pages[..k];
      var page := ReadPage(b, year, current, pages[k]);
      assert page == PageFn(b, year)(current, pages[k]);
      if page.None? {
        Scan.TryFoldStops(None, pages, PageFn(b, year), k);
        return None;
      }
      current, txns := page.value.0, txns + page.value.1;
      k := k + 1;
    }
    assert pages[..k] == pages;
    r := Some((current, txns));
  }
}
