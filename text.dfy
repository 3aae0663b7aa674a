/**
 * Python string operations used by the extractors, on `string` (a sequence of
 * code points). Case mapping and the digit/space/alphanumeric tests follow
 * Python for the Latin-1 range.
 */
module Text {

  predicate IsDigit(c: char) { '0' <= c <= '9' }

  /** Python's `str.isspace` set, which is also what `\s`, `strip()` and `split()` use. */
  predicate IsSpace(c: char)
  {
    c == ' ' || '\t' <= c <= '\r' || '\U{001C}' <= c <= '\U{001F}' || c == '\U{0085}' || c == '\U{00A0}'
    || c == '\U{1680}' || '\U{2000}' <= c <= '\U{200A}' || c == '\U{2028}' || c == '\U{2029}'
    || c == '\U{202F}' || c == '\U{205F}' || c == '\U{3000}'
  }

  predicate IsLetter(c: char)
  {
    'a' <= c <= 'z' || 'A' <= c <= 'Z' || c == 'ª' || c == 'µ' || c == 'º'
    || ('À' <= c <= 'ÿ' && c != '×' && c != '÷')
  }

  /** Python's `str.isalnum` for one character of the Latin-1 range. */
  predicate IsAlnum(c: char)
  {
    IsDigit(c) || IsLetter(c) || c == '²' || c == '³' || c == '¹' || '¼' <= c <= '¾'
  }

  predicate AllDigits(s: string) { forall i | 0 <= i < |s| :: IsDigit(s[i]) }

  /** `s.isdigit()` */
  predicate IsDigits(s: string) { |s| > 0 && AllDigits(s) }

  predicate StartsWith(s: string, p: string) { |p| <= |s| && s[..|p|] == p }

  predicate EndsWith(s: string, p: string) { |p| <= |s| && s[|s| - |p|..] == p }

  /** `sub in s` */
  predicate Contains(s: string, sub: string)
  {
    exists k: nat | k <= |s| :: OccursAt(s, sub, k)
  }

  predicate OccursAt(s: string, sub: string, k: nat)
  {
    k + |sub| <= |s| && s[k..k + |sub|] == sub
  }

  predicate ContainsAny(s: string, subs: seq<string>)
  {
    exists j | 0 <= j < |subs| :: Contains(s, subs[j])
  }

  /** `s.lstrip()` */
  function LStrip(s: string): (r: string)
    ensures |r| <= |s| && r == s[|s| - |r|..]
    ensures |r| > 0 ==> !IsSpace(r[0])
    ensures forall i | 0 <= i < |s| - |r| :: IsSpace(s[i])
  {
    if |s| > 0 && IsSpace(s[0]) then LStrip(s[1..]) else s
  }

  /** `s.rstrip()` */
  function RStrip(s: string): (r: string)
    ensures |r| <= |s| && r == s[..|r|]
    ensures |r| > 0 ==> !IsSpace(r[|r| - 1])
    ensures forall i | |r| <= i < |s| :: IsSpace(s[i])
  {
    if |s| > 0 && IsSpace(s[|s| - 1]) then RStrip(s[..|s| - 1]) else s
  }

  /** `s.strip()` */
  function Strip(s: string): (r: string)
    ensures |r| <= |s|
    ensures forall c | c in r :: c in s
    ensures |r| > 0 ==> !IsSpace(r[0]) && !IsSpace(r[|r| - 1])
  {
    RStrip(LStrip(s))
  }

  function UpperChar(c: char): string
  {
    if 'a' <= c <= 'z' then [(c as int - 32) as char]
    else if ('à' <= c <= 'þ' && c != '÷') then [(c as int - 32) as char]
    else if c == 'ß' then "SS"
    else if c == 'ÿ' then "Ÿ"
    else if c == 'µ' then "Μ"
    else [c]
  }

  /** `s.upper()` */
  function Upper(s: string): string
  {
    if |s| == 0 then "" else UpperChar(s[0]) + Upper(s[1..])
  }

  function LowerChar(c: char): char
  {
    if 'A' <= c <= 'Z' then (c as int + 32) as char
    else if ('À' <= c <= 'Þ' && c != '×') then (c as int + 32) as char
    else c
  }

  /** `s.lower()` */
  function Lower(s: string): (r: string)
    ensures |r| == |s|
  {
    if |s| == 0 then "" else [LowerChar(s[0])] + Lower(s[1..])
  }

  /** `s.replace(pat, rep)`: every non-overlapping occurrence, left to right. */
  function Replace(s: string, pat: string, rep: string): string
    requires |pat| > 0
    decreases |s|
  {
    if |s| < |pat| then s
    else if s[..|pat|] == pat then rep + Replace(s[|pat|..], pat, rep)
    else [s[0]] + Replace(s[1..], pat, rep)
  }

  /** `s.replace(c, '')` */
  function Drop(s: string, c: char): (r: string)
    ensures c !in r
    ensures |r| <= |s|
    ensures forall x | x in r :: x in s
    ensures forall x | x in s && x != c :: x in r
  {
    if |s| == 0 then "" else (if s[0] == c then "" else [s[0]]) + Drop(s[1..], c)
  }

  /** `s.replace(a, b)` for single characters `a` and `b`. */
  function Swap(s: string, a: char, b: char): (r: string)
    ensures |r| == |s|
    ensures forall i | 0 <= i < |s| :: r[i] == if s[i] == a then b else s[i]
    ensures forall x | x != a && x != b :: x in r <==> x in s
    ensures a != b ==> a !in r
  {
    if |s| == 0 then "" else [if s[0] == a then b else s[0]] + Swap(s[1..], a, b)
  }

  /** Only the characters of `s` that satisfy `keep`, in order. */
  function KeepIf(s: string, keep: char -> bool): (r: string)
    ensures |r| <= |s|
    ensures forall x | x in r :: x in s && keep(x)
    ensures forall x | x in s && keep(x) :: x in r
  {
    if |s| == 0 then "" else (if keep(s[0]) then [s[0]] else "") + KeepIf(s[1..], keep)
  }

  /** Filtering a concatenation filters each part. */
  lemma {:induction false} KeepIfAppend(a: string, b: string, keep: char -> bool)
    ensures KeepIf(a + b, keep) == KeepIf(a, keep) + KeepIf(b, keep)
  {
    if |a| > 0 {
      assert (a + b)[1..] == a[1..] + b;
      KeepIfAppend(a[1..], b, keep);
    } else {
      assert a + b == b;
    }
  }

  /** Filtering a string whose every character passes gives the string back. */
  lemma {:induction false} KeepIfAll(s: string, keep: char -> bool)
    requires forall i | 0 <= i < |s| :: keep(s[i])
    ensures KeepIf(s, keep) == s
  {
    if |s| > 0 {
      KeepIfAll(s[1..], keep);
    }
  }

  /** Two kept characters stay in the filtered string, in their order. */
  lemma KeepIfTwo(t: string, i: nat, j: nat, keep: char -> bool) returns (p: nat, q: nat)
    requires i < j < |t| && keep(t[i]) && keep(t[j])
    ensures p < q < |KeepIf(t, keep)| && KeepIf(t, keep)[p] == t[i] && KeepIf(t, keep)[q] == t[j]
  {
    assert t == t[..j] + t[j..];
    KeepIfAppend(t[..j], t[j..], keep);
    var a, b := KeepIf(t[..j], keep), KeepIf(t[j..], keep);
    assert t[..j][i] == t[i] && t[j..][0] == t[j];
    assert t[i] in a && t[j] in b;
    p :| 0 <= p < |a| && a[p] == t[i];
    var r :| 0 <= r < |b| && b[r] == t[j];
    q := |a| + r;
  }

  /** `sep.join(parts)` */
  function Join(sep: string, parts: seq<string>): string
  {
    if |parts| == 0 then "" else if |parts| == 1 then parts[0] else parts[0] + sep + Join(sep, parts[1..])
  }

  /** The first word of `s` (after leading white space) and what follows it. */
  function FirstWordLen(s: string): (n: nat)
    ensures n <= |s|
    ensures forall i | 0 <= i < n :: !IsSpace(s[i])
    ensures n < |s| ==> IsSpace(s[n])
  {
    if |s| == 0 || IsSpace(s[0]) then 0 else 1 + FirstWordLen(s[1..])
  }

  /** `s.split()`: the maximal runs of non-space characters. */
  function Words(s: string): (ws: seq<string>)
    ensures forall w | w in ws :: |w| > 0 && forall c | c in w :: !IsSpace(c)
    decreases |s|
  {
    var t := LStrip(s);
    if |t| == 0 then []
    else
      var n := FirstWordLen(t);
      assert n > 0;
      [t[..n]] + Words(t[n..])
  }

  /** `s.find(sub)`: the first position of `sub`, or -1. */
  function Find(s: string, sub: string): (k: int)
    ensures k == -1 || 0 <= k <= |s| - |sub|
    ensures k >= 0 ==> OccursAt(s, sub, k) && forall j: nat | j < k :: !OccursAt(s, sub, j)
    ensures k == -1 <==> !Contains(s, sub)
  {
    FindFrom(s, sub, 0)
  }

  function FindFrom(s: string, sub: string, i: nat): (k: int)
    ensures k == -1 || i <= k <= |s| - |sub|
    ensures k >= 0 ==> OccursAt(s, sub, k) && forall j: nat | i <= j < k :: !OccursAt(s, sub, j)
    ensures k == -1 <==> forall j: nat | i <= j :: !OccursAt(s, sub, j)
    decreases |s| - i
  {
    if i + |sub| > |s| then -1
    else if s[i..i + |sub|] == sub then assert OccursAt(s, sub, i); i
    else FindFrom(s, sub, i + 1)
  }

  /** `re.sub(r'\s+', ' ', s)`: each run of white space becomes one blank. */
  function CollapseSpaces(s: string): (r: string)
    ensures |r| <= |s|
    ensures forall i | 0 <= i < |r| :: IsSpace(r[i]) ==> r[i] == ' '
    ensures forall x | x in r :: x in s || x == ' '
    decreases |s|
  {
    if |s| == 0 then ""
    else if IsSpace(s[0]) then " " + CollapseSpaces(LStrip(s))
    else [s[0]] + CollapseSpaces(s[1..])
  }

  /** The first occurrence of `c` in `a + [c] + b` is right after `a` when `a` lacks `c`. */
  lemma FindFirst(a: string, c: char, b: string)
    requires c !in a
    ensures Find(a + [c] + b, [c]) == |a|
  {
    var t := a + [c] + b;
    assert OccursAt(t, [c], |a|);
    forall j: nat | j < |a|
      ensures !OccursAt(t, [c], j)
    {
      assert t[j] == a[j];
    }
  }

  /** `s.split(sep)` for a one-character separator: the pieces between the separators. */
  function Split(s: string, sep: char): (ps: seq<string>)
    ensures |ps| >= 1
    ensures forall i | 0 <= i < |ps| :: sep !in ps[i]
  {
    if |s| == 0 then [""]
    else
      var rest := Split(s[1..], sep);
      if s[0] == sep then [""] + rest else [[s[0]] + rest[0]] + rest[1..]
  }

  /** Splitting and joining again with the separator gives back the text. */
  lemma {:induction false} JoinSplit(s: string, sep: char)
    ensures Join([sep], Split(s, sep)) == s
  {
    if |s| > 0 {
      var rest := Split(s[1..], sep);
      JoinSplit(s[1..], sep);
      if s[0] == sep {
        assert Split(s, sep) == [""] + rest;
      } else {
        var ps := [[s[0]] + rest[0]] + rest[1..];
        assert Split(s, sep) == ps;
        if |rest| == 1 {
          assert Join([sep], ps) == [s[0]] + rest[0];
        } else {
          assert Join([sep], rest) == rest[0] + [sep] + Join([sep], rest[1..]);
          assert ps[1..] == rest[1..];
          assert Join([sep], ps) == [s[0]] + rest[0] + [sep] + Join([sep], rest[1..]);
        }
      }
    }
  }

  /** Joining pieces free of the separator and splitting again gives back the pieces. */
  lemma {:induction false} SplitJoin(ps: seq<string>, sep: char)
    requires |ps| >= 1
    requires forall i | 0 <= i < |ps| :: sep !in ps[i]
    ensures Split(Join([sep], ps), sep) == ps
    decreases |ps|, |ps[0]|
  {
    var s := Join([sep], ps);
    if |ps| == 1 {
      SplitFree(ps[0], sep);
    } else if |ps[0]| == 0 {
      assert s == [sep] + Join([sep], ps[1..]);
      SplitJoin(ps[1..], sep);
      assert s[1..] == Join([sep], ps[1..]);
    } else {
      var qs := [ps[0][1..]] + ps[1..];
      assert ps[0] == [ps[0][0]] + ps[0][1..];
      assert sep != ps[0][0];
      assert forall i | 0 <= i < |qs| :: sep !in qs[i] by {
        forall i | 0 <= i < |qs| ensures sep !in qs[i] {
          if i == 0 {
            assert forall c | c in ps[0][1..] :: c in ps[0];
          } else {
            assert qs[i] == ps[i];
          }
        }
      }
      assert qs[1..] == ps[1..];
      assert Join([sep], qs) == ps[0][1..] + [sep] + Join([sep], ps[1..]);
      assert s == [ps[0][0]] + Join([sep], qs);
      SplitJoin(qs, sep);
      assert s[1..] == Join([sep], qs);
    }
  }

  lemma {:induction false} SplitFree(p: string, sep: char)
    requires sep !in p
    ensures Split(p, sep) == [p]
  {
    if |p| > 0 {
      assert forall c | c in p[1..] :: c in p;
      SplitFree(p[1..], sep);
      assert p == [p[0]] + p[1..];
    }
  }
}
