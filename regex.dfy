/**
 * The subset of Python's `re` module the extractors use, with Python's
 * backtracking priority: `Run` lists every way a pattern can match at a
 * position, best first, so the first element is what `re` reports.
 * Capturing groups record the span of their last iteration.
 */
module Regex {
  import opened Wrappers
  import opened Text

  /** Character classes: `\d`, `\s`, `\w`, `.`, `[...]`, ranges, unions, complements. */
  datatype Class =
    | Digit
    | Space
    | Word
    | Dot
    | Among(cs: string)
    | Range(lo: char, hi: char)
    | Union(a: Class, b: Class)
    | Not(a: Class)

  predicate In(c: char, k: Class)
  {
    match k
    case Digit => '0' <= c <= '9'
    case Space => IsSpace(c)
    case Word => IsAlnum(c) || c == '_'
    case Dot => c != '\n'
    case Among(cs) => c in cs
    case Range(lo, hi) => lo <= c <= hi
    case Union(a, b) => In(c, a) || In(c, b)
    case Not(a) => !In(c, a)
  }

  datatype Bound = Inf | AtMost(n: nat)

  /** A regular expression; `Rep(a, min, max, greedy)` is `a{min,max}` or its lazy `?` form. */
  datatype Re =
    | Eps
    | Chr(k: Class)
    | Cat(a: Re, b: Re)
    | Alt(a: Re, b: Re)
    | Rep(a: Re, min: nat, max: Bound, greedy: bool)
    | Grp(id: nat, a: Re)
    | Bol
    | Eol

  function Size(r: Re): nat
  {
    match r
    case Cat(a, b) => Size(a) + Size(b) + 1
    case Alt(a, b) => Size(a) + Size(b) + 1
    case Rep(a, min, _, _) => Size(a) + min + 1
    case Grp(_, a) => Size(a) + 1
    case _ => 1
  }

  function Less(b: Bound): Bound
  {
    match b
    case Inf => Inf
    case AtMost(n) => AtMost(if n == 0 then 0 else n - 1)
  }

  /** Spans of the capturing groups seen so far. */
  type Caps = map<nat, (nat, nat)>

  datatype Hit = Hit(end: nat, caps: Caps)

  /**
   * Every way `r` matches `s` from position `i`, in the order Python's
   * backtracking tries them. A `*`/`+` iteration that consumes nothing
   * ends the repetition, as in Python.
   */
  function Run(r: Re, s: string, i: nat, caps: Caps): (hs: seq<Hit>)
    requires i <= |s|
    ensures forall h | h in hs :: i <= h.end <= |s|
    decreases |s| - i, Size(r), 0
  {
    match r
    case Eps => [Hit(i, caps)]
    case Chr(k) => if i < |s| && In(s[i], k) then [Hit(i + 1, caps)] else []
    case Cat(a, b) => RunAll(b, s, Run(a, s, i, caps), i)
    case Alt(a, b) => Run(a, s, i, caps) + Run(b, s, i, caps)
    case Rep(a, min, max, greedy) =>
      if min > 0 then RunAll(Rep(a, min - 1, Less(max), greedy), s, Run(a, s, i, caps), i)
      else if max == AtMost(0) || i == |s| then [Hit(i, caps)]
      else
        var more := RunAll(Rep(a, 0, Less(max), greedy), s, Advancing(Run(a, s, i, caps), i), i + 1);
        if greedy then more + [Hit(i, caps)] else [Hit(i, caps)] + more
    case Grp(id, a) => Tag(Run(a, s, i, caps), id, i)
    case Bol => if i == 0 then [Hit(i, caps)] else []
    case Eol => if i == |s| || (i + 1 == |s| && s[i] == '\n') then [Hit(i, caps)] else []
  }

  /** `r` run from the end of each hit in `hs`, results concatenated in order. */
  function RunAll(r: Re, s: string, hs: seq<Hit>, lo: nat): (out: seq<Hit>)
    requires lo <= |s|
    requires forall h | h in hs :: lo <= h.end <= |s|
    ensures forall h | h in out :: lo <= h.end <= |s|
    decreases |s| - lo, Size(r), 2, |hs|
  {
    if |hs| == 0 then []
    else Run(r, s, hs[0].end, hs[0].caps) + RunAll(r, s, hs[1..], lo)
  }

  function Advancing(hs: seq<Hit>, i: nat): (out: seq<Hit>)
    ensures forall h | h in out :: h in hs && h.end > i
  {
    if |hs| == 0 then []
    else (if hs[0].end > i then [hs[0]] else []) + Advancing(hs[1..], i)
  }

  function Tag(hs: seq<Hit>, id: nat, start: nat): (out: seq<Hit>)
    ensures |out| == |hs|
    ensures forall k | 0 <= k < |hs| :: out[k] == Hit(hs[k].end, hs[k].caps[id := (start, hs[k].end)])
  {
    if |hs| == 0 then []
    else [Hit(hs[0].end, hs[0].caps[id := (start, hs[0].end)])] + Tag(hs[1..], id, start)
  }

  /** A successful match: its span and the spans of its groups. */
  datatype Match = Match(start: nat, end: nat, caps: Caps)

  /** The match Python finds when it tries `r` at position `i` only. */
  function MatchAt(r: Re, s: string, i: nat): (m: Option<Match>)
    requires i <= |s|
    ensures m.Some? ==> m.value.start == i <= m.value.end <= |s|
  {
    var hs := Run(r, s, i, map[]);
    if |hs| == 0 then None else Some(Match(i, hs[0].end, hs[0].caps))
  }

  /** `re.match(r, s)`. */
  function ReMatch(r: Re, s: string): (m: Option<Match>)
    ensures m.Some? ==> m.value.start == 0 <= m.value.end <= |s|
  {
    MatchAt(r, s, 0)
  }

  /** `re.search(r, s[i:])`, positions counted in `s`. */
  function SearchFrom(r: Re, s: string, i: nat): (m: Option<Match>)
    requires i <= |s|
    ensures m.Some? ==> i <= m.value.start <= m.value.end <= |s|
    decreases |s| - i
  {
    var here := MatchAt(r, s, i);
    if here.Some? then here
    else if i == |s| then None
    else SearchFrom(r, s, i + 1)
  }

  /** `re.search(r, s)`. */
  function ReSearch(r: Re, s: string): (m: Option<Match>)
    ensures m.Some? ==> m.value.start <= m.value.end <= |s|
  {
    SearchFrom(r, s, 0)
  }

  /** `re.finditer(r, s[i:])`: successive non-overlapping matches, left to right. */
  function FindIterFrom(r: Re, s: string, i: nat): (ms: seq<Match>)
    requires i <= |s|
    ensures forall m | m in ms :: i <= m.start <= m.end <= |s|
    decreases |s| - i
  {
    var m := SearchFrom(r, s, i);
    if m.None? then []
    else
      var next := if m.value.end > m.value.start then m.value.end else m.value.start + 1;
      if next > |s| then [m.value] else [m.value] + FindIterFrom(r, s, next)
  }

  /** `re.finditer(r, s)` (and `re.findall`, which reports the same matches). */
  function FindIter(r: Re, s: string): (ms: seq<Match>)
    ensures forall m | m in ms :: m.start <= m.end <= |s|
  {
    FindIterFrom(r, s, 0)
  }

  /** `m.group(id)`; a group that did not take part reads as the empty string. */
  function Group(s: string, m: Match, id: nat): (g: string)
  {
    if id in m.caps && m.caps[id].0 <= m.caps[id].1 <= |s| then s[m.caps[id].0..m.caps[id].1] else ""
  }

  /** `m.group(0)`. */
  function Whole(s: string, m: Match): string
  {
    if m.start <= m.end <= |s| then s[m.start..m.end] else ""
  }

  // ---------------------------------------------------------------------
  // Building blocks, so that each pattern of the source reads as written.

  function Lit(t: string): Re
  {
    if |t| == 0 then Eps else Cat(Chr(Among([t[0]])), Lit(t[1..]))
  }
  function Cats(rs: seq<Re>): Re
  {
    if |rs| == 0 then Eps else if |rs| == 1 then rs[0] else Cat(rs[0], Cats(rs[1..]))
  }
  /** `k{n}` */
  function Times(k: Class, n: nat): Re { Rep(Chr(k), n, AtMost(n), true) }
  /** `k+` */
  function Plus(k: Class): Re { Rep(Chr(k), 1, Inf, true) }
  /** `k*` */
  function Star(k: Class): Re { Rep(Chr(k), 0, Inf, true) }
  /** `k?` */
  function Opt(r: Re): Re { Rep(r, 0, AtMost(1), true) }
  /** `.+?` */
  const LazyAny: Re := Rep(Chr(Dot), 1, Inf, false)
  /** `\s+` */
  const Spaces: Re := Plus(Space)

  // ---------------------------------------------------------------------
  // What a match can capture.

  predicate Subclass(a: Class, b: Class)
  {
    forall c: char {:trigger In(c, a)} :: In(c, a) ==> In(c, b)
  }

  /** Every character `r` can consume belongs to `k`. */
  predicate Within(r: Re, k: Class)
  {
    match r
    case Chr(c) => Subclass(c, k)
    case Cat(a, b) => Within(a, k) && Within(b, k)
    case Alt(a, b) => Within(a, k) && Within(b, k)
    case Rep(a, _, _, _) => Within(a, k)
    case Grp(_, a) => Within(a, k)
    case _ => true
  }

  /** Every group numbered `id` in `r` can only consume characters of `k`. */
  predicate GroupWithin(r: Re, id: nat, k: Class)
  {
    match r
    case Chr(_) => true
    case Cat(a, b) => GroupWithin(a, id, k) && GroupWithin(b, id, k)
    case Alt(a, b) => GroupWithin(a, id, k) && GroupWithin(b, id, k)
    case Rep(a, _, _, _) => GroupWithin(a, id, k)
    case Grp(j, a) => (j == id ==> Within(a, k)) && GroupWithin(a, id, k)
    case _ => true
  }

  predicate SpanIn(s: string, a: nat, b: nat, k: Class)
  {
    a <= b <= |s| && forall t | a <= t < b :: In(s[t], k)
  }

  predicate CapIn(s: string, caps: Caps, id: nat, k: Class)
  {
    id in caps ==> SpanIn(s, caps[id].0, caps[id].1, k)
  }


  lemma {:induction false} RunWithin(r: Re, s: string, i: nat, caps: Caps, from: nat, k: Class)
    requires i <= |s| && Within(r, k) && SpanIn(s, from, i, k)
    ensures forall h | h in Run(r, s, i, caps) :: SpanIn(s, from, h.end, k)
    decreases |s| - i, Size(r), 2
  {
    match r
    case Eps =>
    case Chr(c) =>
    case Cat(a, b) =>
      RunWithin(a, s, i, caps, from, k);
      RunAllWithin(b, s, Run(a, s, i, caps), i, from, k);
    case Alt(a, b) =>
      RunWithin(a, s, i, caps, from, k);
      RunWithin(b, s, i, caps, from, k);
    case Rep(a, min, max, greedy) =>
      RunWithinRep(a, min, max, greedy, s, i, caps, from, k);
    case Grp(id, a) =>
      RunWithin(a, s, i, caps, from, k);
    case Bol =>
    case Eol =>
  }

  lemma {:induction false} RunWithinRep(a: Re, min: nat, max: Bound, greedy: bool, s: string, i: nat, caps: Caps, from: nat, k: Class)
    requires i <= |s| && Within(Rep(a, min, max, greedy), k) && SpanIn(s, from, i, k)
    ensures forall h | h in Run(Rep(a, min, max, greedy), s, i, caps) :: SpanIn(s, from, h.end, k)
    decreases |s| - i, Size(Rep(a, min, max, greedy)), 1
  {
    RunWithin(a, s, i, caps, from, k);
    if min > 0 {
      RunAllWithin(Rep(a, min - 1, Less(max), greedy), s, Run(a, s, i, caps), i, from, k);
    } else if max == AtMost(0) || i == |s| {
    } else {
      RunWithinOpt(a, max, greedy, s, i, caps, from, k);
    }
  }

  lemma {:induction false} RunWithinOpt(a: Re, max: Bound, greedy: bool, s: string, i: nat, caps: Caps, from: nat, k: Class)
    requires i < |s| && max != AtMost(0) && Within(a, k) && SpanIn(s, from, i, k)
    requires forall h | h in Run(a, s, i, caps) :: SpanIn(s, from, h.end, k)
    ensures forall h | h in Run(Rep(a, 0, max, greedy), s, i, caps) :: SpanIn(s, from, h.end, k)
    decreases |s| - i, Size(Rep(a, 0, max, greedy)), 0
  {
    RunAllWithin(Rep(a, 0, Less(max), greedy), s, Advancing(Run(a, s, i, caps), i), i + 1, from, k);
    RepOptional(a, max, greedy, s, i, caps);
  }

  /** A repetition that may stop here: the empty repetition, or one more step followed by the rest. */
  lemma RepOptional(a: Re, max: Bound, greedy: bool, s: string, i: nat, caps: Caps)
    requires i < |s| && max != AtMost(0)
    ensures forall h | h in Run(Rep(a, 0, max, greedy), s, i, caps) ::
      h in RunAll(Rep(a, 0, Less(max), greedy), s, Advancing(Run(a, s, i, caps), i), i + 1) || h == Hit(i, caps)
  {
  }

  lemma {:induction false} RunAllWithin(r: Re, s: string, hs: seq<Hit>, lo: nat, from: nat, k: Class)
    requires lo <= |s| && forall h | h in hs :: lo <= h.end <= |s|
    requires Within(r, k) && forall h | h in hs :: SpanIn(s, from, h.end, k)
    ensures forall h | h in RunAll(r, s, hs, lo) :: SpanIn(s, from, h.end, k)
    decreases |s| - lo, Size(r), 3, |hs|
  {
    if |hs| > 0 {
      RunWithin(r, s, hs[0].end, hs[0].caps, from, k);
      RunAllWithin(r, s, hs[1..], lo, from, k);
    }
  }

  lemma {:induction false} RunCaps(r: Re, s: string, i: nat, caps: Caps, id: nat, k: Class)
    requires i <= |s| && GroupWithin(r, id, k) && CapIn(s, caps, id, k)
    ensures forall h | h in Run(r, s, i, caps) :: CapIn(s, h.caps, id, k)
    decreases |s| - i, Size(r), 2
  {
    match r
    case Eps =>
    case Chr(c) =>
    case Cat(a, b) =>
      RunCaps(a, s, i, caps, id, k);
      RunAllCaps(b, s, Run(a, s, i, caps), i, id, k);
    case Alt(a, b) =>
      RunCaps(a, s, i, caps, id, k);
      RunCaps(b, s, i, caps, id, k);
    case Rep(a, min, max, greedy) =>
      RunCapsRep(a, min, max, greedy, s, i, caps, id, k);
    case Grp(j, a) =>
      RunCaps(a, s, i, caps, id, k);
      if j == id {
        RunWithin(a, s, i, caps, i, k);
      }
    case Bol =>
    case Eol =>
  }

  lemma {:induction false} RunCapsRep(a: Re, min: nat, max: Bound, greedy: bool, s: string, i: nat, caps: Caps, id: nat, k: Class)
    requires i <= |s| && GroupWithin(Rep(a, min, max, greedy), id, k) && CapIn(s, caps, id, k)
    ensures forall h | h in Run(Rep(a, min, max, greedy), s, i, caps) :: CapIn(s, h.caps, id, k)
    decreases |s| - i, Size(Rep(a, min, max, greedy)), 1
  {
    RunCaps(a, s, i, caps, id, k);
    if min > 0 {
      RunAllCaps(Rep(a, min - 1, Less(max), greedy), s, Run(a, s, i, caps), i, id, k);
    } else if max == AtMost(0) || i == |s| {
    } else {
      RunCapsOpt(a, max, greedy, s, i, caps, id, k);
    }
  }

  lemma {:induction false} RunCapsOpt(a: Re, max: Bound, greedy: bool, s: string, i: nat, caps: Caps, id: nat, k: Class)
    requires i < |s| && max != AtMost(0) && GroupWithin(a, id, k) && CapIn(s, caps, id, k)
    requires forall h | h in Run(a, s, i, caps) :: CapIn(s, h.caps, id, k)
    ensures forall h | h in Run(Rep(a, 0, max, greedy), s, i, caps) :: CapIn(s, h.caps, id, k)
    decreases |s| - i, Size(Rep(a, 0, max, greedy)), 0
  {
    RunAllCaps(Rep(a, 0, Less(max), greedy), s, Advancing(Run(a, s, i, caps), i), i + 1, id, k);
    RepOptional(a, max, greedy, s, i, caps);
  }

  lemma {:induction false} RunAllCaps(r: Re, s: string, hs: seq<Hit>, lo: nat, id: nat, k: Class)
    requires lo <= |s| && forall h | h in hs :: lo <= h.end <= |s|
    requires GroupWithin(r, id, k) && forall h | h in hs :: CapIn(s, h.caps, id, k)
    ensures forall h | h in RunAll(r, s, hs, lo) :: CapIn(s, h.caps, id, k)
    decreases |s| - lo, Size(r), 3, |hs|
  {
    if |hs| > 0 {
      RunCaps(r, s, hs[0].end, hs[0].caps, id, k);
      RunAllCaps(r, s, hs[1..], lo, id, k);
    }
  }

  /** `$` only succeeds at the end of the text or just before a final newline. */
  lemma {:induction false} RunAllEol(s: string, hs: seq<Hit>, lo: nat)
    requires lo <= |s| && forall h | h in hs :: lo <= h.end <= |s|
    ensures forall h | h in RunAll(Eol, s, hs, lo) :: h.end == |s| || (h.end + 1 == |s| && s[h.end] == '\n')
    decreases |hs|
  {
    if |hs| > 0 {
      RunAllEol(s, hs[1..], lo);
    }
  }

  /** A group whose sub-pattern only consumes `k` captures only characters of `k` in `re.match`. */
  lemma MatchAtCaps(r: Re, s: string, i: nat, id: nat, k: Class)
    requires i <= |s| && GroupWithin(r, id, k)
    ensures MatchAt(r, s, i).Some? ==> CapIn(s, MatchAt(r, s, i).value.caps, id, k)
  {
    RunCaps(r, s, i, map[], id, k);
  }

  lemma {:induction false} SearchFromCaps(r: Re, s: string, i: nat, id: nat, k: Class)
    requires i <= |s| && GroupWithin(r, id, k)
    ensures SearchFrom(r, s, i).Some? ==> CapIn(s, SearchFrom(r, s, i).value.caps, id, k)
    decreases |s| - i
  {
    MatchAtCaps(r, s, i, id, k);
    if MatchAt(r, s, i).None? && i < |s| {
      SearchFromCaps(r, s, i + 1, id, k);
    }
  }

  lemma {:induction false} FindIterFromCaps(r: Re, s: string, i: nat, id: nat, k: Class)
    requires i <= |s| && GroupWithin(r, id, k)
    ensures forall m | m in FindIterFrom(r, s, i) :: CapIn(s, m.caps, id, k)
    decreases |s| - i
  {
    SearchFromCaps(r, s, i, id, k);
    var m := SearchFrom(r, s, i);
    if m.Some? {
      var next := if m.value.end > m.value.start then m.value.end else m.value.start + 1;
      if next <= |s| {
        FindIterFromCaps(r, s, next, id, k);
      }
    }
  }

  lemma GroupIn(s: string, m: Match, id: nat, k: Class)
    requires CapIn(s, m.caps, id, k)
    ensures forall t | 0 <= t < |Group(s, m, id)| :: In(Group(s, m, id)[t], k)
  {
  }

  lemma {:induction false} LitGroupWithin(t: string, id: nat, k: Class)
    ensures GroupWithin(Lit(t), id, k)
    decreases |t|
  {
    if |t| > 0 {
      LitGroupWithin(t[1..], id, k);
    }
  }

  lemma {:induction false} CatsGroupWithin(rs: seq<Re>, id: nat, k: Class)
    requires forall j | 0 <= j < |rs| :: GroupWithin(rs[j], id, k)
    ensures GroupWithin(Cats(rs), id, k)
    decreases |rs|
  {
    if |rs| > 1 {
      CatsGroupWithin(rs[1..], id, k);
    }
  }
}
