/**
 * `ScriptSafra`: `extract_safra_data` of the standalone Safra script. Each
 * page's text is searched with three patterns in order; the pattern loop
 * stops after the first pattern once any transaction has been found, on
 * this page or an earlier one, so after the first page that yields, a page
 * is searched with the first pattern only. The rows carry no bank fields.
 */
module ScriptSafra {
  import opened Wrappers
  import opened Text
  import opened Numbers
  import opened Regex
  import opened Patterns
  import opened Pdf
  import opened Scripts
  import Scan

  /** One transaction dictionary: `Data`, `Descrição`, `Valor`, `Tipo`, `Saldo`, the amounts in cents. */
  datatype Txn = Txn(data: string, descricao: string, valor: int, tipo: string, saldo: int)

  /** `(\d{2}/\d{2})\s+([A-Z][^0-9]+?)\s+([\d.,]+)` */
  const CapitalParts := [Grp(1, ShortDate), Spaces, Grp(2, Cat(Chr(Range('A', 'Z')), Rep(Chr(Not(Digit)), 1, Inf, false))), Spaces, Grp(3, BrAmount)]
  const CapitalRe: Re := Cats(CapitalParts)
  /** `(\d{2}/\d{2})\s+(.+?)\s+([+-]?[\d.,]+)\s+([\d.,]+)` */
  const BalanceRe: Re := Cats([Grp(1, ShortDate), Spaces, Grp(2, LazyAny), Spaces, Grp(3, Cat(Opt(Chr(Among("+-"))), BrAmount)), Spaces, Grp(4, BrAmount)])
  /** `(\d{2}/\d{2}/\d{4})\s+(.+?)\s+([\d.,]+)` */
  const FullParts := [Grp(1, FullDate), Spaces, Grp(2, LazyAny), Spaces, Grp(3, BrAmount)]
  const FullRe: Re := Cats(FullParts)

  /** The three patterns, in the order they are tried. */
  const Cascade: seq<Pattern> := [Pattern(CapitalRe, 3), Pattern(BalanceRe, 4), Pattern(FullRe, 3)]

  /** The words that make a match without a balance a debit. */
  const Words: seq<string> := ["DEBITO", "SAQUE", "PAGAMENTO", "TRANSFERENCIA"]

  /**
   * The transaction of one match of a pattern with `c.1` groups in the
   * page text `c.0`. With four groups the direction is 'D' exactly when the
   * amount starts with '-' and the amount is read without its minus signs;
   * with three, the direction comes from the words of the description and
   * the balance is 0. `None` when `float` raises (the match is skipped).
   */
  function MatchTxn(c: (string, nat), x: Match): (r: Option<Txn>)
    ensures r.Some? ==> c.1 == 3 || c.1 == 4
    ensures r.Some? ==> r.value.data == Group(c.0, x, 1) && r.value.descricao == Strip(Group(c.0, x, 2))
    ensures c.1 == 4 ==> var v := BrText(Group(c.0, x, 3));
      && (r.Some? <==> Float(Drop(v, '-')).Some? && BrFloat(Group(c.0, x, 4)).Some?)
      && (r.Some? ==>
        && (r.value.tipo == "D" <==> StartsWith(v, "-")) && r.value.tipo in {"C", "D"}
        && r.value.valor == Float(Drop(v, '-')).value && r.value.valor >= 0
        && r.value.saldo == BrFloat(Group(c.0, x, 4)).value)
    ensures c.1 == 3 ==>
      && (r.Some? <==> BrFloat(Group(c.0, x, 3)).Some?)
      && (r.Some? ==>
        && (r.value.tipo == "D" <==> ContainsAny(Upper(Strip(Group(c.0, x, 2))), Words)) && r.value.tipo in {"C", "D"}
        && r.value.valor == BrFloat(Group(c.0, x, 3)).value && r.value.saldo == 0)
  {
    var g := k => Group(c.0, x, k);
    if c.1 == 4 then
      var v := BrText(g(3));
      match (Float(Drop(v, '-')), BrFloat(g(4)))
      case (Some(a), Some(b)) =>
        FloatNoMinus(Drop(v, '-'));
        Some(Txn(g(1), Strip(g(2)), a, SignTipo(v), b))
      case _ => None
    else if c.1 == 3 then
      var d := Strip(g(2));
      match BrFloat(g(3))
      case Some(a) => Some(Txn(g(1), d, a, KeywordTipo(d, Words), 0))
      case None => None
    else None
  }

  /** The transactions one pattern yields over a page's text, in the order of its matches. */
  function PatternTxns(text: string, p: Pattern): seq<Txn>
  {
    Scan.Collect((text, p.groups), FindIter(p.re, text), MatchTxn)
  }

  /**
   * The transactions a page's text adds: the first pattern's alone when
   * some were found before (`found`), else those of the first pattern
   * that yields any.
   */
  function PageTxns(found: bool, text: string): seq<Txn>
  {
    if found then PatternTxns(text, Cascade[0]) else Scan.FirstNonEmpty(text, Cascade, PatternTxns)
  }

  /** The transactions of all pages; a page whose text raises or is empty adds none. */
  function Txns(pages: seq<Page>): seq<Txn>
  {
    if |pages| == 0 then []
    else
      var before := Txns(pages[..|pages| - 1]);
      var t := pages[|pages| - 1].text;
      before + (if HasText(t) then PageTxns(before != [], t.s) else [])
  }

  /** `extract_safra_data`: the transactions, or none when the file does not open. */
  function Extract(doc: Document): seq<Txn>
  {
    if doc.pages.None? then [] else Txns(doc.pages.value)
  }

  /** The matches of one pattern over a page's text. */
  method ReadPattern(text: string, p: Pattern) returns (out: seq<Txn>)
    ensures out == PatternTxns(text, p)
  {
    out := Scan.CollectLoop((text, p.groups), FindIter(p.re, text), MatchTxn);
  }

  /** The pattern loop of one page: it stops after the first pattern once some transaction exists. */
  method ReadPage(found: bool, text: string) returns (out: seq<Txn>)
    ensures out == PageTxns(found, text)
  {
    if found {
      out := ReadPattern(text, Cascade[0]);
      return;
    }
    out := [];
    var k := 0;
    while k < |Cascade|
      invariant 0 <= k <= |Cascade|
      invariant out == [] && PageTxns(found, text) == Scan.FirstNonEmpty(text, Cascade[k..], PatternTxns)
    {
      out := ReadPattern(text, Cascade[k]);
      if out != [] {
        return;
      }
      assert Cascade[k..][1..] == Cascade[k + 1..];
      k := k + 1;
    }
  }

  method ExtractSafraData(doc: Document) returns (txns: seq<Txn>)
    ensures txns == Extract(doc)
  {
    if doc.pages.None? {
      return [];
    }
    var pages := doc.pages.value;
    txns := [];
    var i := 0;
    while i < |pages|
      invariant 0 <= i <= |pages|
      invariant txns == Txns(pages[..i])
    {
      assert pages[..i + 1][..i] == pages[..i];
      var t := pages[i].text;
      if HasText(t) {
        var added := ReadPage(txns != [], t.s);
        txns := txns + added;
      }
      i := i + 1;
    }
    assert pages[..i] == pages;
  }

  // ---------------------------------------------------------------------
  // What the transactions satisfy.

  /**
   * A page adds the transactions of the first pattern that yields any, or
   * none when none does; once a transaction has been found, only the first
   * pattern is tried.
   */
  lemma PageFirst(found: bool, text: string) returns (k: nat)
    ensures found ==> PageTxns(found, text) == PatternTxns(text, Cascade[0])
    ensures !found ==>
      && (PageTxns(found, text) == [] <==> forall j | 0 <= j < |Cascade| :: PatternTxns(text, Cascade[j]) == [])
      && (PageTxns(found, text) != [] ==>
        && k < |Cascade| && PageTxns(found, text) == PatternTxns(text, Cascade[k])
        && forall j | 0 <= j < k :: PatternTxns(text, Cascade[j]) == [])
  {
    k := 0;
    if !found {
      Scan.FirstNonEmptyEmpty(text, Cascade, PatternTxns);
      if PageTxns(found, text) != [] {
        Scan.FirstNonEmptyFound(text, Cascade, PatternTxns);
        k :| k < |Cascade| && PageTxns(found, text) == PatternTxns(text, Cascade[k])
          && forall j | 0 <= j < k :: PatternTxns(text, Cascade[j]) == [];
      }
    }
  }

  /** A transaction of this script: 'C' or 'D' and a non-negative amount. */
  predicate Sound(t: Txn)
  {
    t.tipo in {"C", "D"} && t.valor >= 0
  }

  /** The amount groups of the patterns without a balance read only `[\d.,]`. */
  lemma AmountsWithin()
    ensures GroupWithin(CapitalRe, 3, AmountClass) && GroupWithin(FullRe, 3, AmountClass)
  {
    PiecesWithin();
    CatsGroupWithin(CapitalParts, 3, AmountClass);
    CatsGroupWithin(FullParts, 3, AmountClass);
  }

  /** A pattern without a balance whose amount group reads only `[\d.,]` yields `Sound` transactions. */
  lemma ThreeSound(text: string, p: Pattern)
    requires p.groups == 3 && GroupWithin(p.re, 3, AmountClass)
    ensures forall t | t in PatternTxns(text, p) :: Sound(t)
  {
    var ms := FindIter(p.re, text);
    FindAmountUnsigned(p.re, text, 3);
    forall t | t in PatternTxns(text, p) ensures Sound(t) {
      var i :| 0 <= i < |ms| && MatchTxn((text, 3), ms[i]) == Some(t);
      UnsignedReadings(Group(text, ms[i], 3));
    }
  }

  /** A pattern with a balance yields `Sound` transactions, whatever its amount group reads. */
  lemma FourSound(text: string, p: Pattern)
    requires p.groups == 4
    ensures forall t | t in PatternTxns(text, p) :: Sound(t)
  {
    var ms := FindIter(p.re, text);
    forall t | t in PatternTxns(text, p) ensures Sound(t) {
      var i :| 0 <= i < |ms| && MatchTxn((text, 4), ms[i]) == Some(t);
    }
  }

  lemma PatternSound(text: string, k: nat)
    requires k < |Cascade|
    ensures forall t | t in PatternTxns(text, Cascade[k]) :: Sound(t)
  {
    if k == 1 {
      FourSound(text, Cascade[k]);
    } else {
      AmountsWithin();
      ThreeSound(text, Cascade[k]);
    }
  }

  lemma PageSound(found: bool, text: string)
    ensures forall t | t in PageTxns(found, text) :: Sound(t)
  {
    var k := PageFirst(found, text);
    if found {
      PatternSound(text, 0);
    } else if PageTxns(found, text) != [] {
      PatternSound(text, k);
    }
  }

  /**
   * Every transaction is `Sound`; once a page has yielded, every later page
   * adds only what the first pattern finds on it; a page whose text raises
   * or is empty adds nothing.
   */
  lemma {:induction false} TxnsSound(pages: seq<Page>)
    ensures forall t | t in Txns(pages) :: Sound(t)
  {
    if |pages| > 0 {
      TxnsSound(pages[..|pages| - 1]);
      var t := pages[|pages| - 1].text;
      if HasText(t) {
        PageSound(Txns(pages[..|pages| - 1]) != [], t.s);
      }
    }
  }

  /**
   * Adding a page: a page that raises or has no text adds nothing, and
   * after the first transaction a page adds exactly the first pattern's
   * matches on it.
   */
  lemma NextPage(pages: seq<Page>, p: Page)
    ensures !HasText(p.text) ==> Txns(pages + [p]) == Txns(pages)
    ensures HasText(p.text) && Txns(pages) != [] ==> Txns(pages + [p]) == Txns(pages) + PatternTxns(p.text.s, Cascade[0])
  {
    assert (pages + [p])[..|pages|] == pages;
  }

  /**
   * A debit's amount is the magnitude of the signed amount: when the
   * amount text has one leading '-' and no other sign or space, the
   * transaction is a debit whose `Valor` is the negation of what `float`
   * reads from the signed text.
   */
  lemma DebitMagnitude(text: string, x: Match)
    requires var v := BrText(Group(text, x, 3));
      |v| > 0 && v[0] == '-' && '-' !in v[1..] && '+' !in v && forall k | 0 <= k < |v| :: !IsSpace(v[k])
    ensures var v := BrText(Group(text, x, 3)); var r := MatchTxn((text, 4), x);
      r.Some? ==> Float(v).Some? && r.value.tipo == "D" && r.value.valor == -Float(v).value
  {
    Negated(BrText(Group(text, x, 3)));
  }
}
