/**
 * `GenericoSound`: what every transaction `extract_transactions_all_pages`
 * returns satisfies, whichever bank's branch read it.
 */
module GenericoSound {
  import opened Wrappers
  import opened Text
  import opened Numbers
  import opened Regex
  import opened Patterns
  import opened Pdf
  import Scan
  import opened Generico

  // ---------------------------------------------------------------------
  // What every row satisfies.

  /** Amounts are never negative and the direction is made of the letters C and D only. */
  predicate Sound(t: Txn)
  {
    t.valor >= 0 && t.saldo >= 0 && forall j | 0 <= j < |t.tipo| :: t.tipo[j] == 'C' || t.tipo[j] == 'D'
  }

  const CD: Class := Among("CD")

  lemma CentsWithin()
    ensures Within(CentsRe, AmountClass)
  {
    assert Subclass(Digit, AmountClass);
    assert Subclass(Among("."), AmountClass) by {
      forall c: char | In(c, Among(".")) ensures In(c, AmountClass) {
        assert c == '.';
      }
    }
    assert Subclass(Among(","), AmountClass) by {
      forall c: char | In(c, Among(",")) ensures In(c, AmountClass) {
        assert c == ',';
      }
    }
  }

  lemma BradescoWithin(id: nat)
    requires id == 2 || id == 3
    ensures GroupWithin(BradescoTxnRe, id, AmountClass)
  {
    CentsWithin();
    WithinGroups(CentsRe, id, AmountClass);
    CatsGroupWithin([Bol, Grp(1, Plus(Digit)), Spaces, Grp(2, CentsRe), Spaces, Grp(3, CentsRe), Eol], id, AmountClass);
  }

  lemma PixWithin()
    ensures GroupWithin(PixRe, 3, AmountClass)
  {
    DateNoGroups(3, AmountClass);
    AmountGroupWithin(3);
    LitGroupWithin("PIX QRS", 3, AmountClass);
    CatsGroupWithin([Bol, Lit("PIX QRS"), Spaces, Grp(1, LazyAny), Grp(2, ShortDate), Spaces, Grp(3, BrAmount), Eol], 3, AmountClass);
  }

  /** `([\d.,]+)` as group `id` captures only amount characters. */
  lemma AmountGroupWithin(id: nat)
    ensures GroupWithin(Grp(id, BrAmount), id, AmountClass)
  {
    PiecesWithin();
    WithinGroups(BrAmount, id, AmountClass);
  }

  lemma DateNoGroups(id: nat, k: Class)
    ensures GroupWithin(FullDate, id, k) && GroupWithin(ShortDate, id, k)
  {
    assert GroupWithin(Chr(Digit), id, k);
    assert GroupWithin(Times(Digit, 2), id, k);
    assert GroupWithin(Times(Digit, 4), id, k);
    assert GroupWithin(Cat(Chr(Among("/")), Times(Digit, 2)), id, k);
    assert GroupWithin(ShortDate, id, k);
    assert GroupWithin(Cat(Chr(Among("/")), Times(Digit, 4)), id, k);
  }

  lemma AmountPairWithin(id: nat)
    requires id == 3 || id == 4
    ensures GroupWithin(AmountPair, id, AmountClass) && GroupWithin(DatedHead, id, AmountClass)
  {
    PairWithin(id);
    HeadWithin(id);
  }

  lemma PairWithin(id: nat)
    requires id == 3 || id == 4
    ensures GroupWithin(AmountPair, id, AmountClass)
  {
    PiecesWithin();
    WithinGroups(BrAmount, id, AmountClass);
    LitGroupWithin("R$", id, AmountClass);
    CatsGroupWithin([Lit("R$"), Spaces, Grp(3, BrAmount), Spaces, Lit("R$"), Spaces, Grp(4, BrAmount)], id, AmountClass);
  }

  lemma HeadWithin(id: nat)
    requires id == 3 || id == 4
    ensures GroupWithin(DatedHead, id, AmountClass)
  {
    DateNoGroups(id, AmountClass);
    CatsGroupWithin([Grp(1, FullDate), Spaces, Grp(2, LazyAny), Spaces], id, AmountClass);
  }

  lemma VortxWithin(id: nat)
    requires id == 3 || id == 4
    ensures GroupWithin(VortxCreditRe, id, AmountClass) && GroupWithin(VortxDebitRe, id, AmountClass)
  {
    AmountPairWithin(id);
    CreditWithin(id);
    DebitWithin(id);
  }

  lemma DebitWithin(id: nat)
    requires GroupWithin(AmountPair, id, AmountClass) && GroupWithin(DatedHead, id, AmountClass)
    ensures GroupWithin(VortxDebitRe, id, AmountClass)
  {
    LitGroupWithin("-", id, AmountClass);
    CatsGroupWithin([DatedHead, Lit("-"), AmountPair], id, AmountClass);
  }

  lemma CreditWithin(id: nat)
    requires GroupWithin(AmountPair, id, AmountClass) && GroupWithin(DatedHead, id, AmountClass)
    ensures GroupWithin(VortxCreditRe, id, AmountClass)
  {
    LitGroupWithin("TED", id, AmountClass);
    LitGroupWithin("Recebida", id, AmountClass);
    CatsGroupWithin([DatedHead, Lit("TED"), Spaces, Lit("Recebida"), Spaces, AmountPair], id, AmountClass);
  }

  lemma TrustWithin(id: nat)
    requires id == 3 || id == 4
    ensures GroupWithin(TrustRe, id, AmountClass)
  {
    PiecesWithin();
    DateNoGroups(id, AmountClass);
    WithinGroups(BrAmount, id, AmountClass);
    CatsGroupWithin([Grp(1, FullDate), Spaces, Grp(2, Plus(Digit)), Spaces, Grp(3, BrAmount), Spaces, Grp(4, BrAmount)], id, AmountClass);
  }

  lemma BrasilWithin()
    ensures GroupWithin(BrasilAmountRe, 1, AmountClass) && GroupWithin(BrasilAmountRe, 2, CD)
  {
    PiecesWithin();
    CatsGroupWithin([Grp(1, BrAmount), Spaces, Grp(2, Chr(Among("CD"))), Star(Space), Eol], 1, AmountClass);
    CatsGroupWithin([Grp(1, BrAmount), Spaces, Grp(2, Chr(Among("CD"))), Star(Space), Eol], 2, CD);
  }

  lemma OtherWithin()
    ensures GroupWithin(OtherTxnRe, 2, AmountClass) && GroupWithin(OtherTxnRe, 3, CD)
  {
    PiecesWithin();
    assert Subclass(Among("DC"), CD);
    CatsGroupWithin([Bol, Grp(1, LazyAny), Spaces, Grp(2, BrAmount), Star(Space), Grp(3, Opt(Chr(Among("DC")))), Eol], 2, AmountClass);
    CatsGroupWithin([Bol, Grp(1, LazyAny), Spaces, Grp(2, BrAmount), Star(Space), Grp(3, Opt(Chr(Among("DC")))), Eol], 3, CD);
  }

  /** Group `id` of the first match of `r` in `line`, when there is one, reads as a non-negative number or not at all. */
  predicate Unsigned(r: Re, line: string, id: nat)
  {
    ReSearch(r, line).Some? ==>
      var g := Group(line, ReSearch(r, line).value, id);
      BrFloat(g).Some? ==> BrFloat(g).value >= 0
  }

  /** Group `id` of the first match of `r` in `line`, when there is one, holds only the letters C and D. */
  predicate Directions(r: Re, line: string, id: nat)
  {
    ReSearch(r, line).Some? ==>
      var g := Group(line, ReSearch(r, line).value, id);
      forall t | 0 <= t < |g| :: g[t] == 'C' || g[t] == 'D'
  }

  /** A group that can only consume digits, dots and commas has no minus sign, so its reading is never negative. */
  lemma UnsignedGroup(r: Re, line: string, id: nat)
    requires GroupWithin(r, id, AmountClass)
    ensures Unsigned(r, line, id)
  {
    SearchAmountUnsigned(r, line, id);
    if ReSearch(r, line).Some? {
      UnsignedReadings(Group(line, ReSearch(r, line).value, id));
    }
  }

  lemma DirectionGroup(r: Re, line: string, id: nat)
    requires GroupWithin(r, id, CD)
    ensures Directions(r, line, id)
  {
    SearchFromCaps(r, line, 0, id, CD);
    if ReSearch(r, line).Some? {
      GroupIn(line, ReSearch(r, line).value, id, CD);
    }
  }

  lemma BradescoUnsigned(line: string)
    ensures Unsigned(BradescoTxnRe, line, 2) && Unsigned(BradescoTxnRe, line, 3)
  {
    BradescoWithin(2);
    BradescoWithin(3);
    UnsignedGroup(BradescoTxnRe, line, 2);
    UnsignedGroup(BradescoTxnRe, line, 3);
  }

  lemma PixUnsigned(line: string)
    ensures Unsigned(PixRe, line, 3)
  {
    PixWithin();
    UnsignedGroup(PixRe, line, 3);
  }

  lemma VortxCreditUnsigned(line: string)
    ensures PairUnsigned(VortxCreditRe, line)
  {
    VortxWithin(3);
    VortxWithin(4);
    UnsignedGroup(VortxCreditRe, line, 3);
    UnsignedGroup(VortxCreditRe, line, 4);
    PairOf(VortxCreditRe, line);
  }

  lemma VortxDebitUnsigned(line: string)
    ensures PairUnsigned(VortxDebitRe, line)
  {
    VortxWithin(3);
    VortxWithin(4);
    UnsignedGroup(VortxDebitRe, line, 3);
    UnsignedGroup(VortxDebitRe, line, 4);
    PairOf(VortxDebitRe, line);
  }

  lemma TrustUnsigned(line: string)
    ensures Unsigned(TrustRe, line, 3) && Unsigned(TrustRe, line, 4)
  {
    TrustWithin(3);
    TrustWithin(4);
    UnsignedGroup(TrustRe, line, 3);
    UnsignedGroup(TrustRe, line, 4);
  }

  lemma BrasilUnsigned(rest: string)
    ensures Unsigned(BrasilAmountRe, rest, 1) && Directions(BrasilAmountRe, rest, 2)
  {
    BrasilWithin();
    UnsignedGroup(BrasilAmountRe, rest, 1);
    DirectionGroup(BrasilAmountRe, rest, 2);
  }

  lemma OtherUnsigned(line: string)
    ensures Unsigned(OtherTxnRe, line, 2) && Directions(OtherTxnRe, line, 3)
  {
    OtherWithin();
    UnsignedGroup(OtherTxnRe, line, 2);
    DirectionGroup(OtherTxnRe, line, 3);
  }

  predicate AllSound(ts: seq<Txn>)
  {
    forall t | t in ts :: Sound(t)
  }

  lemma SignedSound(data: string, documento: string, descricao: string, g: string)
    ensures var r := Single(SignedTxn(data, documento, descricao, g)); r.Some? ==> AllSound(r.value)
  {
    var t := SignedTxn(data, documento, descricao, g);
    if t.Some? {
      assert Sound(t.value);
    }
  }

  lemma BradescoSound(s: Option<string>, lines: seq<string>, i: nat, line: string)
    requires i < |lines|
    ensures var r := BradescoLine(s, lines, i, line); r.Some? ==> AllSound(r.value.1)
  {
    BradescoUnsigned(line);
    if ReSearch(BradescoTxnRe, line).Some? {
      BradescoRowSound(s, lines, i, line, ReSearch(BradescoTxnRe, line).value);
    }
  }

  lemma BradescoRowSound(s: Option<string>, lines: seq<string>, i: nat, line: string, m: Match)
    requires i < |lines|
    requires BrFloat(Group(line, m, 2)).Some? ==> BrFloat(Group(line, m, 2)).value >= 0
    requires BrFloat(Group(line, m, 3)).Some? ==> BrFloat(Group(line, m, 3)).value >= 0
    ensures var r := BradescoRow(s, lines, i, line, m); r.Some? ==> AllSound(r.value.1)
  {
    var a := Both(BrFloat(Group(line, m, 2)), BrFloat(Group(line, m, 3)));
    var d := Description(lines, i - 1);
    RowSound(s.GetOr(DefaultDate), Group(line, m, 1), d, a, "C");
    KeepSound(s, RowOf(s.GetOr(DefaultDate), Group(line, m, 1), d, a, "C"));
  }
  lemma ItauSound(year: nat, line: string)
    ensures var r := ItauLine(year, line); r.Some? ==> AllSound(r.value)
  {
    if ReSearch(ItauLayout1, line).Some? {
      var m := ReSearch(ItauLayout1, line).value;
      SignedSound(Group(line, m, 1), Group(line, m, 3), Strip(Group(line, m, 2)), Group(line, m, 4));
    } else {
      ItauNumberedSound(year, line);
    }
  }

  lemma ItauNumberedSound(year: nat, line: string)
    ensures var r := ItauNumbered(year, line); r.Some? ==> AllSound(r.value)
  {
    if ReSearch(ItauLayout2, line).Some? {
      var m := ReSearch(ItauLayout2, line).value;
      SignedSound(Group(line, m, 1), Group(line, m, 3), Strip(Group(line, m, 2)), Group(line, m, 4));
    } else {
      ItauShortDatedSound(year, line);
    }
  }

  lemma ItauShortDatedSound(year: nat, line: string)
    ensures var r := ItauShortDated(year, line); r.Some? ==> AllSound(r.value)
  {
    if ReSearch(ItauLayout3, line).Some? {
      var m := ReSearch(ItauLayout3, line).value;
      SignedSound(Group(line, m, 1), "", Strip(Group(line, m, 2)), Group(line, m, 3));
    } else {
      ItauFullDatedSound(year, line);
    }
  }

  lemma ItauFullDatedSound(year: nat, line: string)
    ensures var r := ItauFullDated(year, line); r.Some? ==> AllSound(r.value)
  {
    if ReSearch(ItauLayout4, line).Some? {
      var m := ReSearch(ItauLayout4, line).value;
      SignedSound(Group(line, m, 1), "", Strip(Group(line, m, 2)), Group(line, m, 3));
    } else {
      PixSound(year, line);
    }
  }

  lemma PixSound(year: nat, line: string)
    ensures var r := PixLine(year, line); r.Some? ==> AllSound(r.value)
  {
    PixUnsigned(line);
  }

  lemma VortxSound(line: string)
    ensures var r := VortxLine(line); r.Some? ==> AllSound(r.value)
  {
    if ReSearch(VortxCreditRe, line).Some? {
      VortxCreditSound(line);
    } else {
      VortxDebitSound(line);
    }
  }

  lemma VortxCreditSound(line: string)
    requires ReSearch(VortxCreditRe, line).Some?
    ensures var r := VortxLine(line); r.Some? ==> AllSound(r.value)
  {
    VortxCreditUnsigned(line);
    var m := ReSearch(VortxCreditRe, line).value;
    RowSound(Group(line, m, 1), "", Strip(Group(line, m, 2)) + " TED Recebida", Amounts(line, m), "C");
  }

  lemma VortxDebitSound(line: string)
    ensures var r := VortxDebit(line); r.Some? ==> AllSound(r.value)
  {
    VortxDebitUnsigned(line);
    if ReSearch(VortxDebitRe, line).Some? {
      var m := ReSearch(VortxDebitRe, line).value;
      RowSound(Group(line, m, 1), "", Strip(Group(line, m, 2)), Amounts(line, m), "D");
    }
  }

  /** Both amounts a search for `r` reads, when it reads them, are never negative. */
  predicate PairUnsigned(r: Re, line: string)
  {
    ReSearch(r, line).Some? ==>
      var a := Amounts(line, ReSearch(r, line).value);
      a.Some? ==> a.value.0 >= 0 && a.value.1 >= 0
  }

  lemma PairOf(r: Re, line: string)
    requires Unsigned(r, line, 3) && Unsigned(r, line, 4)
    ensures PairUnsigned(r, line)
  {
  }

  lemma RowSound(data: string, documento: string, descricao: string, a: Option<(int, int)>, tipo: string)
    requires a.Some? ==> a.value.0 >= 0 && a.value.1 >= 0
    requires tipo == "C" || tipo == "D"
    ensures var r := RowOf(data, documento, descricao, a, tipo); r.Some? ==> AllSound(r.value)
  {
    if a.Some? {
      assert Sound(Txn(data, documento, descricao, a.value.0, tipo, a.value.1));
    }
  }
  lemma TrustSound(line: string)
    ensures var r := TrustLine(line); r.Some? ==> AllSound(r.value)
  {
    TrustUnsigned(line);
    PairOf(TrustRe, line);
    if ReSearch(TrustRe, line).Some? {
      var m := ReSearch(TrustRe, line).value;
      RowSound(Group(line, m, 1), Group(line, m, 2), "Operação Financeira", Amounts(line, m), "C");
    }
  }

  lemma BrasilSound(lines: seq<string>, i: nat, line: string)
    ensures var r := BrasilLine(lines, i, line); r.Some? ==> AllSound(r.value)
  {
    if ReSearch(BrasilRe, line).Some? {
      BrasilUnsigned(Strip(Group(line, ReSearch(BrasilRe, line).value, 2)));
    }
  }

  /**
   * A row of the other banks' branch has a non-negative amount, and its
   * direction is the trailing D/C letter of the line, or 'C' when the line
   * has none.
   */
  lemma OtherSound(s: Option<string>, line: string)
    ensures AllSound(OtherLine(s, line).value.1)
    ensures var ts := OtherLine(s, line).value.1;
      |ts| > 0 ==>
        && ReSearch(OtherTxnRe, line).Some?
        && var g := Group(line, ReSearch(OtherTxnRe, line).value, 3);
          ts[0].tipo == (if |g| > 0 then g else "C")
  {
    OtherUnsigned(line);
  }

  lemma LineSound(b: Branch, year: nat, lines: seq<string>, s: Option<string>, i: nat)
    ensures var r := LineStep(b, year, lines, s, i); r.Some? ==> AllSound(r.value.1)
  {
    if i < |lines| && !Skipped(Strip(lines[i])) {
      ReadSound(b, year, lines, s, i, Strip(lines[i]));
    }
  }

  /** Whatever branch reads a line, the rows it gives have non-negative amounts and a C/D direction. */
  lemma ReadSound(b: Branch, year: nat, lines: seq<string>, s: Option<string>, i: nat, line: string)
    requires i < |lines|
    ensures var r := ReadLine(b, year, lines, s, i, line); r.Some? ==> AllSound(r.value.1)
  {
    match b
    case BradescoBranch =>
      BradescoSound(s, lines, i, line);
    case OtherBranch =>
      OtherSound(s, line);
    case _ =>
      DatelessSound(b, year, lines, i, line);
      KeepSound(s, DatelessLine(b, year, lines, i, line));
  }

  lemma DatelessSound(b: Branch, year: nat, lines: seq<string>, i: nat, line: string)
    ensures var r := DatelessLine(b, year, lines, i, line); r.Some? ==> AllSound(r.value)
  {
    match b
    case ItauBranch => ItauSound(year, line);
    case VortxBranch => VortxSound(line);
    case TrustBranch => TrustSound(line);
    case BrasilBranch => BrasilSound(lines, i, line);
    case _ =>
  }

  lemma KeepSound(s: Option<string>, r: Option<seq<Txn>>)
    requires r.Some? ==> AllSound(r.value)
    ensures Keep(s, r).Some? ==> AllSound(Keep(s, r).value.1)
  {
  }

  lemma PageSound(b: Branch, year: nat, s: Option<string>, p: Page)
    ensures var r := PageStep(b, year, s, p); r.Some? ==> forall t | t in r.value.1 :: Sound(t)
  {
    if HasText(p.text) {
      var lines := PageLines(p.text);
      var step := LineFn(b, year, lines);
      forall s': Option<string>, i: nat, t: Txn | step(s', i).Some? && t in step(s', i).value.1
        ensures Sound(t)
      {
        LineSound(b, year, lines, s', i);
      }
      Scan.TryFoldAll(s, Indices(|lines|), step, Sound);
    }
  }

  /** Every transaction `extract_transactions_all_pages` returns has non-negative amounts and a C/D direction. */
  lemma AllPagesSound(b: Branch, year: nat, pages: seq<Page>)
    ensures AllPages(b, year, pages).Some? ==> AllSound(AllPages(b, year, pages).value.1)
  {
    var step := PageFn(b, year);
    forall s: Option<string>, p: Page, t: Txn | step(s, p).Some? && t in step(s, p).value.1
      ensures Sound(t)
    {
      PageSound(b, year, s, p);
    }
    Scan.TryFoldAll(None, pages, step, Sound);
  }
}
