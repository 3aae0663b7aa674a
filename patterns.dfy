/**
 * The transaction-line patterns the extractors share, written once as
 * regular expressions, and what they guarantee about the amount they
 * capture: it is made of digits, '.' and ',' only, so it never carries a
 * minus sign and never reads as a negative number.
 */
module Patterns {
  import opened Wrappers
  import opened Text
  import opened Numbers
  import opened Regex

  /** `[\d.,]`, the characters of a Brazilian amount. */
  const AmountClass: Class := Union(Digit, Among(".,"))

  /** `\d{2}/\d{2}` */
  const ShortDate: Re := Cat(Times(Digit, 2), Cat(Chr(Among("/")), Times(Digit, 2)))

  /** `\d{2}/\d{2}/\d{4}` */
  const FullDate: Re := Cat(ShortDate, Cat(Chr(Among("/")), Times(Digit, 4)))

  /** `\d{2}-\d{2}-\d{4}` */
  const DashDate: Re := Cat(Times(Digit, 2), Cat(Chr(Among("-")), Cat(Times(Digit, 2), Cat(Chr(Among("-")), Times(Digit, 4)))))

  /** `\d{2}[/-]\d{2}`, the start of a dated line or cell. */
  const DayMonth: Re := Cat(Times(Digit, 2), Cat(Chr(Among("/-")), Times(Digit, 2)))

  /** `\d{2}[/-]\d{2}(?:[/-]\d{4})?` */
  const DayMonthYear: Re := Cat(DayMonth, Opt(Cat(Chr(Among("/-")), Times(Digit, 4))))

  /** `[\d.,]+` */
  const BrAmount: Re := Plus(AmountClass)

  /** `\d+,\d{2}` */
  const CentsAmount: Re := Cat(Plus(Digit), Cat(Chr(Among(",")), Times(Digit, 2)))

  /** `([\d.,]+)\s*([CD])`: an amount in group 1 and its credit/debit letter in group 2. */
  const CdAmount: Re := Cat(Grp(1, BrAmount), Cat(Star(Space), Grp(2, Chr(Among("CD")))))

  /** The amount of a C/D match never carries a minus sign. */
  lemma CdAmountWithin()
    ensures GroupWithin(CdAmount, 1, AmountClass)
  {
    PiecesWithin();
  }

  /** `(date)\s+(.+?)\s+(amount)`: a date, a description and an amount in groups 1, 2 and 3. */
  function DescAmount(date: Re, amount: Re): (r: Re)
    ensures Within(amount, AmountClass) && GroupWithin(date, 3, AmountClass) ==> GroupWithin(r, 3, AmountClass)
  {
    assert GroupWithin(Spaces, 3, AmountClass) && GroupWithin(LazyAny, 3, AmountClass);
    assert Within(amount, AmountClass) ==> GroupWithin(amount, 3, AmountClass) by {
      if Within(amount, AmountClass) {
        WithinGroups(amount, 3, AmountClass);
      }
    }
    var tail := Cat(Spaces, Grp(3, amount));
    assert GroupWithin(amount, 3, AmountClass) && Within(amount, AmountClass) ==> GroupWithin(tail, 3, AmountClass);
    var mid := Cat(Spaces, Cat(Grp(2, LazyAny), tail));
    assert GroupWithin(tail, 3, AmountClass) ==> GroupWithin(mid, 3, AmountClass);
    Cat(Grp(1, date), mid)
  }

  /** `^r$` */
  function Anchored(r: Re): (a: Re)
    ensures GroupWithin(r, 3, AmountClass) ==> GroupWithin(a, 3, AmountClass)
  {
    assert GroupWithin(Bol, 3, AmountClass) && GroupWithin(Eol, 3, AmountClass);
    Cat(Bol, Cat(r, Eol))
  }

  /** `^\d{2}[/-]\d{2}`: the lines the line strategies look at. */
  const LineStart: Re := Cat(Bol, DayMonth)

  /** `^(\d{2}/\d{2})\s+(.+?)\s+(\d+,\d{2})$`, the Safra line. */
  const SafraLine: Re := Anchored(DescAmount(ShortDate, CentsAmount))

  /** `^(\d{2}/\d{2}/\d{4})\s+(.+?)\s+([\d.,]+)$` */
  const FullLine: Re := Anchored(DescAmount(FullDate, BrAmount))

  /** `^(\d{2}/\d{2})\s+(.+?)\s+([\d.,]+)$` */
  const ShortLine: Re := Anchored(DescAmount(ShortDate, BrAmount))

  /** The date and amount patterns above capture nothing themselves, and the amounts stay within `[\d.,]`. */
  lemma PiecesWithin()
    ensures GroupWithin(ShortDate, 3, AmountClass) && GroupWithin(FullDate, 3, AmountClass)
    ensures GroupWithin(DashDate, 3, AmountClass) && GroupWithin(DayMonthYear, 3, AmountClass)
    ensures Within(BrAmount, AmountClass) && Within(CentsAmount, AmountClass)
  {
    DatesWithin();
    AmountsWithin();
  }

  lemma DatesWithin()
    ensures GroupWithin(ShortDate, 3, AmountClass) && GroupWithin(FullDate, 3, AmountClass)
    ensures GroupWithin(DashDate, 3, AmountClass) && GroupWithin(DayMonthYear, 3, AmountClass)
  {
  }

  lemma AmountsWithin()
    ensures Within(BrAmount, AmountClass) && Within(CentsAmount, AmountClass)
  {
    assert Subclass(Digit, AmountClass);
    assert Subclass(Among(","), AmountClass) by {
      forall c: char | In(c, Among(",")) ensures In(c, AmountClass) {
        assert c == ',';
      }
    }
  }

  lemma LinesWithin()
    ensures GroupWithin(SafraLine, 3, AmountClass) && GroupWithin(FullLine, 3, AmountClass) && GroupWithin(ShortLine, 3, AmountClass)
  {
    PiecesWithin();
  }

  /** A pattern that only consumes `k` only captures `k` in any of its groups. */
  lemma {:induction false} WithinGroups(r: Re, id: nat, k: Class)
    requires Within(r, k)
    ensures GroupWithin(r, id, k)
  {
    match r
    case Cat(a, b) => WithinGroups(a, id, k); WithinGroups(b, id, k);
    case Alt(a, b) => WithinGroups(a, id, k); WithinGroups(b, id, k);
    case Rep(a, _, _, _) => WithinGroups(a, id, k);
    case Grp(_, a) => WithinGroups(a, id, k);
    case _ =>
  }

  /** A group that reads only `[\d.,]` has no minus sign, in `re.match`. */
  lemma MatchAmountUnsigned(r: Re, s: string, id: nat)
    requires GroupWithin(r, id, AmountClass)
    ensures ReMatch(r, s).Some? ==> '-' !in Group(s, ReMatch(r, s).value, id)
  {
    MatchAtCaps(r, s, 0, id, AmountClass);
    if ReMatch(r, s).Some? {
      NoMinusIn(s, ReMatch(r, s).value, id);
    }
  }

  /** The same for `re.search`. */
  lemma SearchAmountUnsigned(r: Re, s: string, id: nat)
    requires GroupWithin(r, id, AmountClass)
    ensures ReSearch(r, s).Some? ==> '-' !in Group(s, ReSearch(r, s).value, id)
  {
    SearchFromCaps(r, s, 0, id, AmountClass);
    if ReSearch(r, s).Some? {
      NoMinusIn(s, ReSearch(r, s).value, id);
    }
  }

  /** The same for every match of `re.finditer` / `re.findall`. */
  lemma FindAmountUnsigned(r: Re, s: string, id: nat)
    requires GroupWithin(r, id, AmountClass)
    ensures forall m | m in FindIter(r, s) :: '-' !in Group(s, m, id)
  {
    FindIterFromCaps(r, s, 0, id, AmountClass);
    forall m | m in FindIter(r, s) ensures '-' !in Group(s, m, id) {
      NoMinusIn(s, m, id);
    }
  }

  lemma NoMinusIn(s: string, m: Match, id: nat)
    requires CapIn(s, m.caps, id, AmountClass)
    ensures '-' !in Group(s, m, id)
  {
    GroupIn(s, m, id, AmountClass);
    var g := Group(s, m, id);
    assert !In('-', AmountClass) by {
      assert !In('-', Among(".,")) && !In('-', Digit);
    }
    forall t | 0 <= t < |g| ensures g[t] != '-' {
      assert In(g[t], AmountClass);
    }
  }

  /** Text without a minus sign never reads as a negative amount, in either decimal convention. */
  lemma UnsignedReadings(g: string)
    requires '-' !in g
    ensures BrFloat(g).Some? ==> BrFloat(g).value >= 0
    ensures CommaFloat(g).Some? ==> CommaFloat(g).value >= 0
    ensures Float(g).Some? ==> Float(g).value >= 0
  {
    FloatNoMinus(g);
    FloatNoMinus(BrText(g));
    FloatNoMinus(Swap(g, ',', '.'));
  }
}
