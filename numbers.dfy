/**
 * Amounts. Every amount is an integer number of cents. `Float` is Python's
 * `float()` on the texts the extractors build, read to the cent (digits past
 * the second decimal are dropped toward zero). The renderings `Show`,
 * `ShowComma` and `ShowBr` are the partners the parsers are checked against.
 */
module Numbers {
  import opened Wrappers
  import opened Text

  function DigitVal(c: char): nat
    requires IsDigit(c)
  {
    c as int - '0' as int
  }

  function DigitChar(d: nat): (c: char)
    requires d < 10
    ensures IsDigit(c) && DigitVal(c) == d
  {
    ('0' as int + d) as char
  }

  /** The number a string of decimal digits denotes ("" denotes 0). */
  function DigitsValue(s: string): nat
    requires AllDigits(s)
  {
    if |s| == 0 then 0 else 10 * DigitsValue(s[..|s| - 1]) + DigitVal(s[|s| - 1])
  }

  /** The first two fractional digits, as cents. */
  function FracCents(f: string): (c: nat)
    requires AllDigits(f)
    ensures c < 100
  {
    if |f| == 0 then 0
    else if |f| == 1 then 10 * DigitVal(f[0])
    else 10 * DigitVal(f[0]) + DigitVal(f[1])
  }

  /** A numeral without sign: digits with at most one '.', and at least one digit. */
  function Unsigned(t: string): (r: Option<nat>)
    ensures r.Some? ==> |t| > 0 && (IsDigit(t[0]) || t[0] == '.')
  {
    var k := Find(t, ".");
    if k < 0 then
      if IsDigits(t) then Some(DigitsValue(t) * 100) else None
    else
      var ip, fp := t[..k], t[k + 1..];
      if AllDigits(ip) && AllDigits(fp) && |ip| + |fp| > 0 then
        assert |ip| > 0 ==> t[0] == ip[0];
        Some(DigitsValue(ip) * 100 + FracCents(fp))
      else None
  }

  /** A numeral with two decimal points is not one: the part after the first point is not all digits. */
  lemma TwoPointsUnsigned(t: string, p: nat, q: nat)
    requires p < q < |t| && t[p] == '.' && t[q] == '.'
    ensures Unsigned(t).None?
  {
    assert OccursAt(t, ".", p);
    var k := Find(t, ".");
    assert k <= p;
    assert t[k + 1..][q - k - 1] == '.';
  }

  /** `float` refuses a string of non-space characters with two decimal points, whatever its sign. */
  lemma TwoPointsFloat(u: string, p: nat, q: nat)
    requires p < q < |u| && u[p] == '.' && u[q] == '.'
    requires forall k | 0 <= k < |u| :: !IsSpace(u[k]) && u[k] != '+'
    ensures Float(u).None?
  {
    StripKeeps(u);
    if u[0] == '-' {
      TwoPointsUnsigned(u[1..], p - 1, q - 1);
    } else {
      TwoPointsUnsigned(u, p, q);
    }
  }

  /** `float(t)` in cents; `None` where Python raises `ValueError`. */
  function Float(t: string): (r: Option<int>)
    ensures r.Some? && r.value < 0 ==> '-' in t
  {
    Signed(Strip(t))
  }

  /** `float` once the surrounding white space is gone: an optional sign, then a numeral. */
  function Signed(u: string): (r: Option<int>)
    ensures r.Some? && r.value < 0 ==> '-' in u
  {
    var neg := |u| > 0 && u[0] == '-';
    var body := if |u| > 0 && (u[0] == '-' || u[0] == '+') then u[1..] else u;
    var m := Unsigned(body);
    if m.None? then None
    else if neg then assert u[0] in u; Some(-(m.value as int))
    else Some(m.value as int)
  }

  lemma FloatNoMinus(t: string)
    requires '-' !in t
    ensures Float(t).Some? ==> Float(t).value >= 0
  {
  }

  /** The Brazilian reading `t.replace('.', '').replace(',', '.')`. */
  function BrText(t: string): (r: string)
    ensures '-' in r <==> '-' in t
    ensures ',' !in r
  {
    Swap(Drop(t, '.'), ',', '.')
  }

  /** `float(t.replace('.', '').replace(',', '.'))` */
  function BrFloat(t: string): Option<int>
  {
    Float(BrText(t))
  }

  /**
   * The three-way reading: with both '.' and ',' the dots are thousands
   * separators; with only ',' it is the decimal point; otherwise unchanged.
   */
  function MixedText(t: string): (r: string)
    ensures ',' !in r
    ensures '-' in r <==> '-' in t
  {
    if '.' in t && ',' in t then BrText(t)
    else if ',' in t then Swap(t, ',', '.')
    else t
  }

  /** `float` of the three-way reading; text without a minus sign never reads as negative. */
  function MixedFloat(t: string): (r: Option<int>)
    ensures '-' !in t && r.Some? ==> r.value >= 0
  {
    Float(MixedText(t))
  }

  /** `float(t.replace(',', '.'))`: the dots are kept as decimal points. */
  function CommaFloat(t: string): Option<int>
  {
    Float(Swap(t, ',', '.'))
  }

  // ---------------------------------------------------------------------
  // Renderings.

  function NatToString(n: nat): (s: string)
    ensures |s| > 0 && AllDigits(s)
    decreases n
  {
    if n < 10 then [DigitChar(n)] else NatToString(n / 10) + [DigitChar(n % 10)]
  }

  function Pad2(r: nat): (s: string)
    requires r < 100
    ensures |s| == 2 && AllDigits(s)
  {
    [DigitChar(r / 10), DigitChar(r % 10)]
  }

  function Pad3(r: nat): (s: string)
    requires r < 1000
    ensures |s| == 3 && AllDigits(s)
  {
    [DigitChar(r / 100), DigitChar(r / 10 % 10), DigitChar(r % 10)]
  }

  function Abs(c: int): nat { if c < 0 then -c else c }

  function Sign(c: int): string { if c < 0 then "-" else "" }

  /** `f"{v:.2f}"` for the amount of `c` cents. */
  function Show(c: int): string
  {
    Sign(c) + NatToString(Abs(c) / 100) + "." + Pad2(Abs(c) % 100)
  }

  /** `f"{v:.2f}".replace('.', ',')`, the form the scripts write. */
  function ShowComma(c: int): string
  {
    Swap(Show(c), '.', ',')
  }

  /** Thousands grouped with '.', as Brazilian statements print them. */
  function Group3(q: nat): (s: string)
    ensures |s| > 0 && IsDigit(s[0]) && ',' !in s
    decreases q
  {
    if q < 1000 then NatToString(q) else Group3(q / 1000) + "." + Pad3(q % 1000)
  }

  /** The Brazilian rendering, e.g. 123456 cents as "1.234,56". */
  function ShowBr(c: int): string
  {
    Sign(c) + Group3(Abs(c) / 100) + "," + Pad2(Abs(c) % 100)
  }

  // ---------------------------------------------------------------------
  // Round trips.

  lemma {:induction false} DigitsOfNat(n: nat)
    ensures DigitsValue(NatToString(n)) == n
    decreases n
  {
    if n >= 10 {
      DigitsOfNat(n / 10);
      var s := NatToString(n);
      assert s[..|s| - 1] == NatToString(n / 10);
    }
  }

  lemma UnsignedOf(q: nat, r: nat)
    requires r < 100
    ensures Unsigned(NatToString(q) + "." + Pad2(r)) == Some(q * 100 + r)
  {
    var ip := NatToString(q);
    var t := ip + "." + Pad2(r);
    assert OccursAt(t, ".", |ip|);
    var k := Find(t, ".");
    DigitsNoSep(ip);
    forall j: nat | j < |ip|
      ensures !OccursAt(t, ".", j)
    {
      assert t[j] == ip[j];
    }
    assert k == |ip|;
    assert t[..k] == ip;
    assert t[k + 1..] == Pad2(r);
    DigitsOfNat(q);
  }

  lemma StripKeeps(s: string)
    requires |s| > 0 && !IsSpace(s[0]) && !IsSpace(s[|s| - 1])
    ensures Strip(s) == s
  {
  }

  lemma FloatSigned(c: int, body: string)
    requires |body| > 0 && IsDigit(body[0]) && IsDigit(body[|body| - 1])
    requires Unsigned(body) == Some(Abs(c))
    ensures Float(Sign(c) + body) == Some(c)
  {
    var t := Sign(c) + body;
    assert t[|t| - 1] == body[|body| - 1];
    assert !IsSpace(t[0]) && !IsSpace(t[|t| - 1]);
    StripKeeps(t);
    SignedOf(c, body);
  }

  lemma SignedOf(c: int, body: string)
    requires |body| > 0 && IsDigit(body[0])
    requires Unsigned(body) == Some(Abs(c))
    ensures Signed(Sign(c) + body) == Some(c)
  {
    var t := Sign(c) + body;
    if c < 0 {
      assert t[1..] == body;
    } else {
      assert t == body;
    }
  }

  /** Parsing what `Show` prints gives the amount back. */
  lemma FloatShow(c: int)
    ensures Float(Show(c)) == Some(c)
  {
    var body := NatToString(Abs(c) / 100) + "." + Pad2(Abs(c) % 100);
    ShowBody(c);
    assert Show(c) == Sign(c) + body;
    FloatSigned(c, body);
  }

  /** What follows the sign in `Show`: digits at both ends, and it reads back as the magnitude. */
  lemma ShowBody(c: int)
    ensures var body := NatToString(Abs(c) / 100) + "." + Pad2(Abs(c) % 100);
      && Show(c) == Sign(c) + body
      && |body| > 0 && IsDigit(body[0]) && IsDigit(body[|body| - 1])
      && Unsigned(body) == Some(Abs(c))
  {
    var n := Abs(c);
    UnsignedOfCents(n);
    DigitsAround(NatToString(n / 100), Pad2(n % 100));
    ShowParts(c);
  }

  lemma ShowParts(c: int)
    ensures Show(c) == Sign(c) + (NatToString(Abs(c) / 100) + "." + Pad2(Abs(c) % 100))
  {
  }

  /** Two runs of digits joined by a separator start and end with a digit. */
  lemma DigitsAround(ip: string, tail: string)
    requires |ip| > 0 && AllDigits(ip) && |tail| > 0 && AllDigits(tail)
    ensures var b := ip + "." + tail; IsDigit(b[0]) && IsDigit(b[|b| - 1])
  {
    var b := ip + "." + tail;
    assert b[0] == ip[0] && b[|b| - 1] == tail[|tail| - 1];
  }

  /** `UnsignedOf` for a whole number of cents. */
  lemma UnsignedOfCents(n: nat)
    ensures Unsigned(NatToString(n / 100) + "." + Pad2(n % 100)) == Some(n)
  {
    var q, r := n / 100, n % 100;
    UnsignedOf(q, r);
    assert q * 100 + r == n;
  }

  lemma {:induction false} DropConcat(a: string, b: string, x: char)
    ensures Drop(a + b, x) == Drop(a, x) + Drop(b, x)
    decreases |a|
  {
    if |a| > 0 {
      DropConcat(a[1..], b, x);
      assert (a + b)[0] == a[0];
      assert (a + b)[1..] == a[1..] + b;
      var h := if a[0] == x then "" else [a[0]];
      calc {
        Drop(a + b, x);
        h + Drop(a[1..] + b, x);
        h + (Drop(a[1..], x) + Drop(b, x));
        (h + Drop(a[1..], x)) + Drop(b, x);
      }
    } else {
      assert a + b == b;
    }
  }

  lemma {:induction false} DropAbsent(a: string, x: char)
    requires x !in a
    ensures Drop(a, x) == a
    decreases |a|
  {
    if |a| > 0 {
      DropAbsent(a[1..], x);
    }
  }

  lemma {:induction false} SwapConcat(a: string, b: string, x: char, y: char)
    ensures Swap(a + b, x, y) == Swap(a, x, y) + Swap(b, x, y)
  {
  }

  lemma DigitsNoSep(s: string)
    requires AllDigits(s)
    ensures '.' !in s && ',' !in s && '-' !in s
  {
  }

  /** 1000 q + r written out is q written out followed by r on three digits. */
  lemma ThreeMore(q: nat)
    requires q >= 1000
    ensures NatToString(q) == NatToString(q / 1000) + Pad3(q % 1000)
  {
    var a, r := q / 1000, q % 1000;
    assert q == 1000 * a + r;
    assert q / 10 == 100 * a + r / 10;
    assert q / 100 == 10 * a + r / 100;
    assert q / 100 / 10 == a;
    assert q / 10 % 10 == r / 10 % 10;
    assert q / 100 % 10 == r / 100;
    assert NatToString(q / 100) == NatToString(a) + [DigitChar(r / 100)];
  }

  lemma {:induction false} DropGroup3(q: nat)
    ensures Drop(Group3(q), '.') == NatToString(q)
    decreases q
  {
    DigitsNoSep(NatToString(q));
    if q < 1000 {
      DropAbsent(NatToString(q), '.');
    } else {
      DropGroup3(q / 1000);
      DropConcat(Group3(q / 1000) + ".", Pad3(q % 1000), '.');
      DropConcat(Group3(q / 1000), ".", '.');
      DigitsNoSep(Pad3(q % 1000));
      DropAbsent(Pad3(q % 1000), '.');
      ThreeMore(q);
    }
  }

  /** Grouped thousands hold only digits and '.'. */
  lemma {:induction false} Group3Chars(q: nat)
    ensures forall i | 0 <= i < |Group3(q)| :: IsDigit(Group3(q)[i]) || Group3(q)[i] == '.'
    decreases q
  {
    if q >= 1000 {
      Group3Chars(q / 1000);
      var a, b := Group3(q / 1000), Pad3(q % 1000);
      assert Group3(q) == a + "." + b;
      forall i | 0 <= i < |Group3(q)| ensures IsDigit(Group3(q)[i]) || Group3(q)[i] == '.' {
        if i < |a| {
          assert Group3(q)[i] == a[i];
        } else if i > |a| {
          assert Group3(q)[i] == b[i - |a| - 1];
        }
      }
    }
  }

  /** The Brazilian rendering of an amount that is not negative holds only digits, '.' and ','. */
  lemma ShowBrChars(c: nat)
    ensures forall i | 0 <= i < |ShowBr(c)| :: IsDigit(ShowBr(c)[i]) || ShowBr(c)[i] == '.' || ShowBr(c)[i] == ','
  {
    var a, b := Group3(c / 100), Pad2(c % 100);
    Group3Chars(c / 100);
    assert ShowBr(c) == a + "," + b;
    forall i | 0 <= i < |ShowBr(c)| ensures IsDigit(ShowBr(c)[i]) || ShowBr(c)[i] == '.' || ShowBr(c)[i] == ',' {
      if i < |a| {
        assert ShowBr(c)[i] == a[i];
      } else if i > |a| {
        assert ShowBr(c)[i] == b[i - |a| - 1];
      }
    }
  }

  /** The Brazilian reading recovers every amount from its Brazilian rendering. */
  lemma BrFloatShowBr(c: int)
    ensures BrFloat(ShowBr(c)) == Some(c)
  {
    var q, r := Abs(c) / 100, Abs(c) % 100;
    var d := Sign(c) + NatToString(q) + "," + Pad2(r);
    DropShowBr(c);
    SwapComma(c);
    assert BrText(ShowBr(c)) == Show(c);
    FloatShow(c);
  }

  lemma DropShowBr(c: int)
    ensures Drop(ShowBr(c), '.') == Sign(c) + NatToString(Abs(c) / 100) + "," + Pad2(Abs(c) % 100)
  {
    var q, r := Abs(c) / 100, Abs(c) % 100;
    DropConcat(Sign(c) + Group3(q) + ",", Pad2(r), '.');
    DropConcat(Sign(c) + Group3(q), ",", '.');
    DropConcat(Sign(c), Group3(q), '.');
    DropGroup3(q);
    DigitsNoSep(Pad2(r));
    DropAbsent(Pad2(r), '.');
    DropAbsent(Sign(c), '.');
    DropAbsent(",", '.');
  }

  lemma SwapComma(c: int)
    ensures Swap(Sign(c) + NatToString(Abs(c) / 100) + "," + Pad2(Abs(c) % 100), ',', '.') == Show(c)
  {
    var q, r := Abs(c) / 100, Abs(c) % 100;
    DigitsNoSep(NatToString(q));
    DigitsNoSep(Pad2(r));
    SwapConcat(Sign(c) + NatToString(q) + ",", Pad2(r), ',', '.');
    SwapConcat(Sign(c) + NatToString(q), ",", ',', '.');
    SwapConcat(Sign(c), NatToString(q), ',', '.');
  }

  /** The scripts' comma rendering reads back through the Brazilian reading. */
  lemma BrFloatShowComma(c: int)
    ensures BrFloat(ShowComma(c)) == Some(c)
  {
    var q, r := Abs(c) / 100, Abs(c) % 100;
    DigitsNoSep(NatToString(q));
    DigitsNoSep(Pad2(r));
    assert ShowComma(c) == Sign(c) + NatToString(q) + "," + Pad2(r);
    DropAbsent(ShowComma(c), '.');
    assert Swap(ShowComma(c), ',', '.') == Show(c);
    FloatShow(c);
  }

  /** The three-way reading also recovers every Brazilian rendering. */
  lemma MixedShowBr(c: int)
    ensures Float(MixedText(ShowBr(c))) == Some(c)
  {
    BrFloatShowBr(c);
    var t := ShowBr(c);
    assert ',' in t by {
      assert t == Sign(c) + Group3(Abs(c) / 100) + "," + Pad2(Abs(c) % 100);
      assert t[|Sign(c) + Group3(Abs(c) / 100)|] == ',';
    }
    if '.' !in t {
      DropAbsent(t, '.');
    }
  }

  /** `float` reads an amount with one leading '-' and no other sign as the negation of the amount without it. */
  lemma Negated(u: string)
    requires |u| > 0 && u[0] == '-' && '-' !in u[1..] && '+' !in u
    requires forall k | 0 <= k < |u| :: !IsSpace(u[k])
    ensures Float(u).Some? <==> Float(Drop(u, '-')).Some?
    ensures Float(u).Some? ==> Float(Drop(u, '-')).value == -Float(u).value
  {
    var b := u[1..];
    DropLeading(u);
    NoSpaceFloat(u);
    assert forall k | 0 <= k < |b| :: b[k] == u[k + 1];
    NoSpaceFloat(b);
    SignedMinus(u);
    if |b| > 0 {
      assert b[0] in u[1..] && b[0] == u[1];
      SignedPlain(b);
    }
  }

  lemma SignedMinus(u: string)
    requires |u| > 0 && u[0] == '-'
    ensures Signed(u) == (if Unsigned(u[1..]).None? then None else Some(-(Unsigned(u[1..]).value as int)))
  {
  }

  lemma SignedPlain(b: string)
    requires |b| > 0 && b[0] != '-' && b[0] != '+'
    ensures Signed(b) == (if Unsigned(b).None? then None else Some(Unsigned(b).value as int))
  {
  }

  lemma DropLeading(u: string)
    requires |u| > 0 && u[0] == '-' && '-' !in u[1..]
    ensures Drop(u, '-') == u[1..]
  {
    assert u == [u[0]] + u[1..];
    DropConcat([u[0]], u[1..], '-');
    DropAbsent(u[1..], '-');
  }

  /** Without white space there is nothing to strip. */
  lemma NoSpaceFloat(u: string)
    requires forall k | 0 <= k < |u| :: !IsSpace(u[k])
    ensures Float(u) == Signed(u)
  {
    if |u| > 0 {
      StripKeeps(u);
    }
  }
}
