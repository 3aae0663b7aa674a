/**
 * Recognising the bank of a statement from the text of its first pages, and
 * the fixed name, code and extractor key of each bank.
 */
module BankDetector {
  import opened Wrappers
  import opened Pdf

  datatype Bank =
    | BancoDoBrasil | Bradesco | BradescoInvestimentos | Itau | Caixa | Santander | Nubank | Inter
    | Sicoob | Sicredi | Banrisul | Brb | Safra | Votorantim | Original | Pan | Pine | C6 | Next
    | Daycoval | Citi | Abc | Bv | Hsbc | Btg | Modal | Fibra | Rural | Bmg | Opportunity | Sofisa
    | Rendimento | Unknown

  /**
   * `re.search(pattern, text, re.IGNORECASE)`: `Some(true)` on a hit, `Some(false)`
   * on none, `None` when the pattern itself raises.
   */
  type Search = (string, string) -> Option<bool>

  /** The patterns of every bank, in the order they are tried. `Unknown` has none. */
  const BankPatterns: seq<(Bank, seq<string>)> := [
      (BancoDoBrasil, [
        @"BANCO DO BRASIL",
        @"001.*BANCO DO BRASIL",
        @"Dt\.\\s*movimento.*Dt\.\\s*balancete.*Histórico.*Documento.*Valor R\$.*Saldo",
        @"Ag[eê]ncia\\s*\\d+-\\d+",
        @"Conta corrente.*\\d+-\\d+"]),
      (Bradesco, [
        @"BANCO BRADESCO",
        @"BRADESCO S/A",
        @"Ag[eê]ncia.*\\|\\s*Conta",
        @"Data.*Lan[çc]amento.*D[ée]bito.*Cr[ée]dito.*Saldo",
        @"CNPJ:.*\\d{3}\\.\\d{3}\\.\\d{3}/\\d{4}-\\d{2}"]),
      (BradescoInvestimentos, [
        @"BRADESCO FI RF",
        @"BRADESCO FIC FI",
        @"Resumo dos Investimentos",
        @"Produto.*C\\.N\\.P\\.J",
        @"Administrador.*C\\.N\\.P\\.J"]),
      (Itau, [
        @"BANCO ITA[UÚ]",
        @"ITA[UÚ] UNIBANCO",
        @"341.*ITA[UÚ]",
        @"Ag[eê]ncia.*\\d{4}",
        @"Conta.*\\d+-\\d+"]),
      (Caixa, [
        @"CAIXA ECON[ÔO]MICA",
        @"CAIXA.*104",
        @"CEF",
        @"C\\.E\\.F\\.",
        @"104.*CAIXA",
        @"Ag[eê]ncia.*\\d{4}.*Op.*\\d+",
        @"EXTRATO.*CONTA.*CORRENTE.*CAIXA",
        @"www\\.caixa\\.gov\\.br",
        @"GOVCONTA CAIXA"]),
      (Santander, [
        @"BANCO SANTANDER",
        @"SANTANDER.*033",
        @"Ag[eê]ncia.*\\d{4}"]),
      (Safra, [
        @"BANCO SAFRA",
        @"422.*SAFRA",
        @"J\\. SAFRA",
        @"SAFRA S/A",
        @"J SAFRA",
        @"SAFRA.*EXTRATOS",
        @"SAFRA.*APLICACAO",
        @"SAFRA.*INVESTIMENTOS",
        @"Data.*Lançamento.*Complemento.*Valor",
        @"\\d{2}/\\d{2}\\s+[A-Z].*\\d+,\\d{2}"]),
      (Daycoval, [
        @"DAYCOVAL",
        @"BANCO DAYCOVAL",
        @"707.*DAYCOVAL",
        @"DAYCOVAL S/A",
        @"DAYCOVAL.*EXTRATO",
        @"EXTRATO.*DAYCOVAL"]),
      (Citi, [
        @"CITIBANK",
        @"CITI",
        @"745.*CITI",
        @"BANCO CITIBANK",
        @"CITI.*EXTRATO",
        @"EXTRATO.*CITI",
        @"Date.*Description.*Amount.*Balance"]),
      (Bv, [
        @"BANCO BV",
        @"BV.*FINANCEIRA",
        @"BV S/A",
        @"655.*BV",
        @"VOTORANTIM.*BV",
        @"BV.*EXTRATO",
        @"EXTRATO.*BV"]),
      (Nubank, [
        @"NUBANK",
        @"NU PAGAMENTOS",
        @"NUCONTA",
        @"Roxinho"]),
      (Inter, [
        @"BANCO INTER",
        @"INTER.*077",
        @"INTERMEDIUM"]),
      (Sicoob, [
        @"SICOOB",
        @"COOPERATIVA.*CREDITO",
        @"756.*SICOOB"]),
      (Sicredi, [
        @"SICREDI",
        @"748.*SICREDI",
        @"COOPERATIVA.*SICREDI"]),
      (Banrisul, [
        @"BANRISUL",
        @"041.*BANRISUL",
        @"BANCO.*RIO GRANDE"]),
      (Brb, [
        @"BRB.*BANCO",
        @"070.*BRB",
        @"BRASILIA"]),
      (Votorantim, [
        @"BANCO VOTORANTIM",
        @"655.*VOTORANTIM",
        @"VOTORANTIM S/A"]),
      (Original, [
        @"BANCO ORIGINAL",
        @"212.*ORIGINAL",
        @"ORIGINAL.*INVESTIMENTOS"]),
      (Pan, [
        @"BANCO PAN",
        @"623.*PAN",
        @"PANAMERICANO"]),
      (Pine, [
        @"PINE",
        @"643.*PINE",
        @"BANCO PINE"]),
      (C6, [
        @"C6 BANK",
        @"336.*C6",
        @"BANCO C6"]),
      (Next, [
        @"NEXT",
        @"237.*NEXT",
        @"BRADESCO NEXT"]),
      (Abc, [
        @"BANCO ABC",
        @"ABC BRASIL",
        @"246.*ABC",
        @"ABC.*BRASIL"]),
      (Hsbc, [
        @"HSBC",
        @"399.*HSBC",
        @"BANCO HSBC"]),
      (Btg, [
        @"BTG PACTUAL",
        @"208.*BTG",
        @"BTG.*PACTUAL"]),
      (Modal, [
        @"MODAL",
        @"746.*MODAL",
        @"BANCO MODAL"]),
      (Fibra, [
        @"FIBRA",
        @"224.*FIBRA",
        @"BANCO FIBRA"]),
      (Rural, [
        @"BANCO RURAL",
        @"453.*RURAL",
        @"RURAL S/A"]),
      (Bmg, [
        @"BMG",
        @"318.*BMG",
        @"BANCO BMG"]),
      (Opportunity, [
        @"OPPORTUNITY",
        @"45.*OPPORTUNITY",
        @"BANCO OPPORTUNITY"]),
      (Sofisa, [
        @"SOFISA",
        @"637.*SOFISA",
        @"BANCO SOFISA"]),
      (Rendimento, [
        @"RENDIMENTO",
        @"633.*RENDIMENTO",
        @"BANCO RENDIMENTO"])
    ]

  /** The text sampled from the pages: each non-empty page text followed by a literal backslash-n; `None` if a text raises. */
  function SampleOf(ps: seq<Page>): (r: Option<string>)
    ensures r.None? <==> exists i | 0 <= i < |ps| :: ps[i].text.Raises?
  {
    if |ps| == 0 then Some("")
    else
      var last := ps[|ps| - 1].text;
      match SampleOf(ps[..|ps| - 1])
      case None =>
        var i :| 0 <= i < |ps| - 1 && ps[..|ps| - 1][i].text.Raises?;
        assert ps[i].text.Raises?;
        None
      case Some(t) =>
        if last.Raises? then None
        else if HasText(last) then Some(t + last.s + "\\n")
        else Some(t)
  }

  /** Only `pdf.pages[:3]` is sampled. */
  function Sample(pages: seq<Page>): Option<string>
  {
    SampleOf(if |pages| <= 3 then pages else pages[..3])
  }

  /** The number of patterns that find a hit; a raising pattern adds nothing. */
  function Score(pats: seq<string>, text: string, search: Search): (n: nat)
    ensures n <= |pats|
  {
    if |pats| == 0 then 0
    else Score(pats[..|pats| - 1], text, search) + (if search(pats[|pats| - 1], text) == Some(true) then 1 else 0)
  }

  /** The first bank of `table` with a score of at least one, or `Unknown`. */
  function FirstHit(table: seq<(Bank, seq<string>)>, text: string, search: Search): (b: Bank)
    requires forall k | 0 <= k < |table| :: table[k].0 != Unknown
    ensures b != Unknown ==>
      exists k | 0 <= k < |table| :: table[k].0 == b && Score(table[k].1, text, search) >= 1
        && forall j | 0 <= j < k :: Score(table[j].1, text, search) == 0
    ensures b == Unknown <==> forall k | 0 <= k < |table| :: Score(table[k].1, text, search) == 0
  {
    if |table| == 0 then Unknown
    else if Score(table[0].1, text, search) >= 1 then table[0].0
    else
      var b := FirstHit(table[1..], text, search);
      assert forall k | 1 <= k < |table| :: table[1..][k - 1] == table[k];
      if b != Unknown then
        var k :| 0 <= k < |table[1..]| && table[1..][k].0 == b && Score(table[1..][k].1, text, search) >= 1
          && forall j | 0 <= j < k :: Score(table[1..][j].1, text, search) == 0;
        assert table[k + 1].0 == b && Score(table[k + 1].1, text, search) >= 1;
        b
      else b
  }

  /** No entry of the table is for `Unknown`. */
  predicate Candidates(table: seq<(Bank, seq<string>)>)
  {
    forall k | 0 <= k < |table| :: table[k].0 != Unknown
  }

  lemma PatternsCandidates()
    ensures Candidates(BankPatterns)
  {
  }

  /** `BankDetector.detect_bank` over a pattern table: never raises, falling back to `Unknown`. */
  function DetectWith(table: seq<(Bank, seq<string>)>, doc: Document, search: Search): Bank
    requires Candidates(table)
  {
    match doc.pages
    case None => Unknown
    case Some(pages) =>
      match Sample(pages)
      case None => Unknown
      case Some(text) => FirstHit(table, text, search)
  }

  function Detect(doc: Document, search: Search): Bank
  {
    PatternsCandidates();
    DetectWith(BankPatterns, doc, search)
  }

  /** `BankDetector.detect_bank`, as the class runs it on its own pattern table. */
  method DetectBank(doc: Document, search: Search) returns (b: Bank)
    ensures b == Detect(doc, search)
  {
    PatternsCandidates();
    b := ScanBanks(BankPatterns, doc, search);
  }

  /** The sampling loop and the scanning loop with its early return. */
  method ScanBanks(table: seq<(Bank, seq<string>)>, doc: Document, search: Search) returns (b: Bank)
    requires Candidates(table)
    ensures b == DetectWith(table, doc, search)
  {
    if doc.pages.None? {
      return Unknown;
    }
    var pages := doc.pages.value;
    var sample := TakeSample(if |pages| <= 3 then pages else pages[..3]);
    if sample.None? {
      return Unknown;
    }
    var text := sample.value;
    var k := 0;
    while k < |table|
      invariant 0 <= k <= |table|
      invariant FirstHit(table, text, search) == FirstHit(table[k..], text, search)
    {
      var score := CountHits(table[k].1, text, search);
      if score >= 1 {
        return table[k].0;
      }
      assert table[k..][1..] == table[k + 1..];
      k := k + 1;
    }
    return Unknown;
  }

  /** Concatenating the page texts; an exception ends the sampling. */
  method TakeSample(window: seq<Page>) returns (r: Option<string>)
    ensures r == SampleOf(window)
  {
    var sample := "";
    var i := 0;
    while i < |window|
      invariant 0 <= i <= |window|
      invariant SampleOf(window[..i]) == Some(sample)
    {
      var t := window[i].text;
      assert window[..i + 1][..i] == window[..i];
      if t.Raises? {
        return None;
      }
      if HasText(t) {
        sample := sample + t.s + "\\n";
      }
      i := i + 1;
    }
    assert window[..i] == window;
    return Some(sample);
  }

  /** The score of one bank: one point per pattern that finds a hit, raising patterns skipped. */
  method CountHits(pats: seq<string>, text: string, search: Search) returns (score: nat)
    ensures score == Score(pats, text, search)
  {
    score := 0;
    var j := 0;
    while j < |pats|
      invariant 0 <= j <= |pats|
      invariant score == Score(pats[..j], text, search)
    {
      assert pats[..j + 1][..j] == pats[..j];
      if search(pats[j], text) == Some(true) {
        score := score + 1;
      }
      j := j + 1;
    }
    assert pats[..j] == pats;
  }

  /** A pattern whose search raises or finds nothing does not change a bank's score. */
  lemma {:induction false} ScoreSkips(pats: seq<string>, k: nat, p: string, text: string, search: Search)
    requires k <= |pats|
    requires search(p, text) != Some(true)
    ensures Score(pats[..k] + [p] + pats[k..], text, search) == Score(pats, text, search)
    decreases |pats| - k
  {
    if k < |pats| {
      var n := |pats|;
      var longer := pats[..k] + [p] + pats[k..];
      assert longer[..|longer| - 1] == pats[..k] + [p] + pats[k..n - 1];
      assert pats[..n - 1][..k] == pats[..k] && pats[..n - 1][k..] == pats[k..n - 1];
      ScoreSkips(pats[..n - 1], k, p, text, search);
      assert longer[|longer| - 1] == pats[n - 1];
    } else {
      assert pats[..k] + [p] + pats[k..] == pats + [p];
      assert (pats + [p])[..|pats|] == pats;
    }
  }

  /** A page without text inside the sampled window does not change the sample. */
  lemma {:induction false} SampleSkips(ps: seq<Page>, k: nat, blank: Page)
    requires k <= |ps|
    requires !blank.text.Raises? && !HasText(blank.text)
    ensures SampleOf(ps[..k] + [blank] + ps[k..]) == SampleOf(ps)
    decreases |ps| - k
  {
    var longer := ps[..k] + [blank] + ps[k..];
    if k < |ps| {
      var n := |ps|;
      assert longer[..|longer| - 1] == ps[..n - 1][..k] + [blank] + ps[..n - 1][k..];
      SampleSkips(ps[..n - 1], k, blank);
      assert longer[|longer| - 1] == ps[n - 1];
    } else {
      assert longer == ps + [blank];
      assert longer[..|longer| - 1] == ps;
    }
  }

  /** Pages after the third never influence the sample, and so never the detected bank. */
  lemma SampleWindow(pages: seq<Page>, more: seq<Page>)
    requires |pages| >= 3
    ensures Sample(pages + more) == Sample(pages)
  {
    assert (pages + more)[..3] == pages[..3];
    if |more| == 0 {
      assert pages + more == pages;
    } else if |pages| == 3 {
      assert pages[..3] == pages;
    }
  }

  datatype Info = Info(name: string, code: string, extractor: string)

  const BankInfoTable: map<Bank, Info> := map[
      BancoDoBrasil := Info("Banco do Brasil", "001", "bb"),
      Bradesco := Info("Banco Bradesco S/A", "237", "bradesco"),
      BradescoInvestimentos := Info("Bradesco Investimentos", "237", "bradesco_investimentos"),
      Itau := Info("Banco Itaú Unibanco S/A", "341", "itau"),
      Caixa := Info("Caixa Econômica Federal", "104", "caixa"),
      Santander := Info("Banco Santander", "033", "santander"),
      Safra := Info("Banco Safra", "422", "safra"),
      Daycoval := Info("Banco Daycoval", "707", "daycoval"),
      Citi := Info("Citibank", "745", "citi"),
      Bv := Info("Banco BV (ex-Votorantim)", "655", "bv"),
      Nubank := Info("Nubank", "260", "nubank"),
      Inter := Info("Banco Inter", "077", "inter"),
      Sicoob := Info("Sicoob", "756", "sicoob"),
      Sicredi := Info("Sicredi", "748", "sicredi"),
      Banrisul := Info("Banrisul", "041", "banrisul"),
      Brb := Info("BRB - Banco de Brasília", "070", "brb"),
      Votorantim := Info("Banco Votorantim", "655", "votorantim"),
      Original := Info("Banco Original", "212", "original"),
      Pan := Info("Banco PAN", "623", "pan"),
      Pine := Info("Banco Pine", "643", "pine"),
      C6 := Info("C6 Bank", "336", "c6"),
      Next := Info("Next (Bradesco)", "237", "next"),
      Abc := Info("Banco ABC Brasil", "246", "abc"),
      Hsbc := Info("HSBC Brasil", "399", "hsbc"),
      Btg := Info("BTG Pactual", "208", "btg"),
      Modal := Info("Banco Modal", "746", "modal"),
      Fibra := Info("Banco Fibra", "224", "fibra"),
      Rural := Info("Banco Rural", "453", "rural"),
      Bmg := Info("Banco BMG", "318", "bmg"),
      Opportunity := Info("Banco Opportunity", "045", "opportunity"),
      Sofisa := Info("Banco Sofisa", "637", "sofisa"),
      Rendimento := Info("Banco Rendimento", "633", "rendimento"),
      Unknown := Info("Banco não identificado", "000", "generic")
    ]

  /**
   * `BankDetector.get_bank_info`: the entry of the bank. Every bank has one,
   * so the fallback to the `Unknown` entry is never taken.
   */
  function GetBankInfo(b: Bank): (info: Info)
    ensures |info.code| == 3 && forall i | 0 <= i < 3 :: '0' <= info.code[i] <= '9'
    ensures info.code == "000" <==> b == Unknown
    ensures info.extractor == "generic" <==> b == Unknown
  {
    InfoTotal(b);
    BankInfoTable[b]
  }

  /** Every bank has its own entry, so the fallback of `get_bank_info` is never taken. */
  lemma InfoTotal(b: Bank)
    ensures b in BankInfoTable
  {
  }
}
