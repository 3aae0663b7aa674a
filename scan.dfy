/**
 * The loop shapes the extractors are built from, stated once: a pass over
 * lines or table rows that keeps what a parser accepts, a pass that carries
 * state from one line to the next (the "current date" of a statement), and
 * a pass over pages that stops at the first exception.
 */
module Scan {
  import opened Wrappers

  /** The outputs of `f` over `xs`, in order, skipping the `None`s: `for x in xs: t = f(x); if t: out.append(t)`. */
  function Collect<C, X, T>(c: C, xs: seq<X>, f: (C, X) -> Option<T>): (out: seq<T>)
    ensures |out| <= |xs|
    ensures forall t | t in out :: exists i | 0 <= i < |xs| :: f(c, xs[i]) == Some(t)
  {
    if |xs| == 0 then []
    else
      var front := Collect(c, xs[..|xs| - 1], f);
      assert forall t | t in front :: exists i | 0 <= i < |xs| :: f(c, xs[i]) == Some(t) by {
        forall t | t in front ensures exists i | 0 <= i < |xs| :: f(c, xs[i]) == Some(t) {
          var i :| 0 <= i < |xs| - 1 && f(c, xs[..|xs| - 1][i]) == Some(t);
          assert xs[..|xs| - 1][i] == xs[i];
        }
      }
      match f(c, xs[|xs| - 1])
      case None => front
      case Some(t) => front + [t]
  }

  /** Collecting over two pieces is collecting over each in turn. */
  lemma {:induction false} CollectAppend<C, X, T>(c: C, a: seq<X>, b: seq<X>, f: (C, X) -> Option<T>)
    ensures Collect(c, a + b, f) == Collect(c, a, f) + Collect(c, b, f)
    decreases |b|
  {
    if |b| == 0 {
      assert a + b == a;
    } else {
      var b0 := b[..|b| - 1];
      assert (a + b)[..|a + b| - 1] == a + b0;
      CollectAppend(c, a, b0, f);
    }
  }

  /** One more element: its output, if any, goes at the end. */
  lemma CollectSnoc<C, X, T>(c: C, xs: seq<X>, x: X, f: (C, X) -> Option<T>)
    ensures Collect(c, xs + [x], f) == Collect(c, xs, f) + (if f(c, x).Some? then [f(c, x).value] else [])
  {
    assert (xs + [x])[..|xs|] == xs;
  }

  /** `[f(0), ..., f(n - 1)]`, built one element at a time. */
  function Snocs<T>(n: nat, f: nat -> T): (rs: seq<T>)
    ensures |rs| == n
  {
    if n == 0 then [] else Snocs(n - 1, f) + [f(n - 1)]
  }

  lemma {:induction false} SnocsAt<T>(n: nat, f: nat -> T, k: nat)
    requires k < n
    ensures Snocs(n, f)[k] == f(k)
  {
    if k < n - 1 {
      SnocsAt(n - 1, f, k);
    }
  }

  /** `CollectSnoc` at the prefixes a loop over `xs` walks. */
  /** The loop step of `Collect`, for a result `t` computed apart: appending it extends the prefix by one element. */
  lemma CollectStep<C, X, T>(c: C, xs: seq<X>, i: nat, f: (C, X) -> Option<T>, acc: seq<T>, t: Option<T>)
    requires i < |xs| && acc == Collect(c, xs[..i], f) && t == f(c, xs[i])
    ensures acc + (if t.Some? then [t.value] else []) == Collect(c, xs[..i + 1], f)
  {
    CollectNext(c, xs, i, f);
  }

  lemma CollectNext<C, X, T>(c: C, xs: seq<X>, i: nat, f: (C, X) -> Option<T>)
    requires i < |xs|
    ensures Collect(c, xs[..i + 1], f) == Collect(c, xs[..i], f) + (if f(c, xs[i]).Some? then [f(c, xs[i]).value] else [])
  {
    assert xs[..i + 1] == xs[..i] + [xs[i]];
    CollectSnoc(c, xs[..i], xs[i], f);
  }

  /** Every element of `xs` that the parser accepts shows up in the output. */
  lemma {:induction false} CollectKeeps<C, X, T>(c: C, xs: seq<X>, f: (C, X) -> Option<T>, i: nat)
    requires i < |xs| && f(c, xs[i]).Some?
    ensures f(c, xs[i]).value in Collect(c, xs, f)
    decreases |xs|
  {
    if i < |xs| - 1 {
      CollectKeeps(c, xs[..|xs| - 1], f, i);
      assert xs[..|xs| - 1][i] == xs[i];
    }
  }

  /** A parser that accepts nothing gives nothing. */
  lemma {:induction false} CollectNone<C, X, T>(c: C, xs: seq<X>, f: (C, X) -> Option<T>)
    requires forall i | 0 <= i < |xs| :: f(c, xs[i]).None?
    ensures Collect(c, xs, f) == []
  {
    if |xs| > 0 {
      var front := xs[..|xs| - 1];
      assert forall i | 0 <= i < |front| :: front[i] == xs[i];
      CollectNone(c, front, f);
    }
  }

  method CollectLoop<C, X, T>(c: C, xs: seq<X>, f: (C, X) -> Option<T>) returns (out: seq<T>)
    ensures out == Collect(c, xs, f)
  {
    out := [];
    var i := 0;
    while i < |xs|
      invariant 0 <= i <= |xs|
      invariant out == Collect(c, xs[..i], f)
    {
      assert xs[..i + 1][..i] == xs[..i];
      var t := f(c, xs[i]);
      if t.Some? {
        out := out + [t.value];
      }
      i := i + 1;
    }
    assert xs[..i] == xs;
  }

  /** The elements of `xs` before the first one `stop` holds for: a loop that `break`s there. */
  function Until<X>(xs: seq<X>, stop: X -> bool): (ys: seq<X>)
    ensures |ys| <= |xs| && ys == xs[..|ys|]
    ensures forall i | 0 <= i < |ys| :: !stop(xs[i])
    ensures |ys| < |xs| ==> stop(xs[|ys|])
  {
    if |xs| == 0 || stop(xs[0]) then [] else [xs[0]] + Until(xs[1..], stop)
  }

  /** The prefix a loop has walked when it breaks at `j`, or runs off the end, is `Until`'s. */
  lemma UntilAt<X>(xs: seq<X>, stop: X -> bool, j: nat)
    requires j <= |xs| && forall i | 0 <= i < j :: !stop(xs[i])
    requires j == |xs| || stop(xs[j])
    ensures Until(xs, stop) == xs[..j]
  {
  }

  /** `for x in xs: if stop(x): break; t = f(x); if t: out.append(t)` */
  method CollectUntilLoop<C, X, T>(c: C, xs: seq<X>, stop: X -> bool, f: (C, X) -> Option<T>) returns (out: seq<T>)
    ensures out == Collect(c, Until(xs, stop), f)
  {
    out := [];
    var i := 0;
    while i < |xs|
      invariant 0 <= i <= |xs|
      invariant forall k | 0 <= k < i :: !stop(xs[k])
      invariant out == Collect(c, xs[..i], f)
    {
      if stop(xs[i]) {
        break;
      }
      assert xs[..i + 1] == xs[..i] + [xs[i]];
      CollectSnoc(c, xs[..i], xs[i], f);
      var t := f(c, xs[i]);
      if t.Some? {
        out := out + [t.value];
      }
      i := i + 1;
    }
    UntilAt(xs, stop, i);
  }

  /** The outputs of `f` over `xs`, concatenated in order: a loop that extends a list with each element's results. */
  function FlatMap<C, X, T>(c: C, xs: seq<X>, f: (C, X) -> seq<T>): seq<T>
  {
    if |xs| == 0 then [] else FlatMap(c, xs[..|xs| - 1], f) + f(c, xs[|xs| - 1])
  }

  /** What `f` gives for every element satisfies `ok`, so the whole output does. */
  lemma {:induction false} FlatMapAll<C, X, T>(c: C, xs: seq<X>, f: (C, X) -> seq<T>, ok: T -> bool)
    requires forall i, t | 0 <= i < |xs| && t in f(c, xs[i]) :: ok(t)
    ensures forall t | t in FlatMap(c, xs, f) :: ok(t)
  {
    if |xs| > 0 {
      var front := xs[..|xs| - 1];
      forall i, t | 0 <= i < |front| && t in f(c, front[i]) ensures ok(t) {
        assert front[i] == xs[i];
      }
      FlatMapAll(c, front, f, ok);
    }
  }

  /** Elements for which `f` gives nothing add nothing. */
  lemma {:induction false} FlatMapNone<C, X, T>(c: C, xs: seq<X>, f: (C, X) -> seq<T>)
    requires forall i | 0 <= i < |xs| :: f(c, xs[i]) == []
    ensures FlatMap(c, xs, f) == []
  {
    if |xs| > 0 {
      var front := xs[..|xs| - 1];
      assert forall i | 0 <= i < |front| :: front[i] == xs[i];
      FlatMapNone(c, front, f);
    }
  }

  lemma {:induction false} FlatMapAppend<C, X, T>(c: C, a: seq<X>, b: seq<X>, f: (C, X) -> seq<T>)
    ensures FlatMap(c, a + b, f) == FlatMap(c, a, f) + FlatMap(c, b, f)
    decreases |b|
  {
    if |b| == 0 {
      assert a + b == a;
    } else {
      var b0 := b[..|b| - 1];
      assert (a + b)[..|a + b| - 1] == a + b0;
      FlatMapAppend(c, a, b0, f);
    }
  }

  /** One more element of a loop over `xs`: its outputs go at the end. */
  lemma FlatMapNext<C, X, T>(c: C, xs: seq<X>, i: nat, f: (C, X) -> seq<T>)
    requires i < |xs|
    ensures FlatMap(c, xs[..i + 1], f) == FlatMap(c, xs[..i], f) + f(c, xs[i])
  {
    assert xs[..i + 1][..i] == xs[..i];
  }

  method FlatMapLoop<C, X, T>(c: C, xs: seq<X>, f: (C, X) -> seq<T>) returns (out: seq<T>)
    ensures out == FlatMap(c, xs, f)
  {
    out := [];
    var i := 0;
    while i < |xs|
      invariant 0 <= i <= |xs|
      invariant out == FlatMap(c, xs[..i], f)
    {
      assert xs[..i + 1][..i] == xs[..i];
      out := out + f(c, xs[i]);
      i := i + 1;
    }
    assert xs[..i] == xs;
  }

  /**
   * A pass that carries a state from one element to the next and emits
   * some outputs at each: the state after the last element and everything
   * emitted, in order.
   */
  function Fold<S, X, T>(s0: S, xs: seq<X>, step: (S, X) -> (S, seq<T>)): (S, seq<T>)
  {
    if |xs| == 0 then (s0, [])
    else
      var prev := Fold(s0, xs[..|xs| - 1], step);
      var next := step(prev.0, xs[|xs| - 1]);
      (next.0, prev.1 + next.1)
  }

  /** Folding over two pieces is folding over the first, then over the second from where the first left off. */
  lemma {:induction false} FoldAppend<S, X, T>(s0: S, a: seq<X>, b: seq<X>, step: (S, X) -> (S, seq<T>))
    ensures Fold(s0, a + b, step) ==
      (Fold(Fold(s0, a, step).0, b, step).0, Fold(s0, a, step).1 + Fold(Fold(s0, a, step).0, b, step).1)
    decreases |b|
  {
    if |b| == 0 {
      assert a + b == a;
      var f := Fold(s0, a, step);
      FoldNone(f.0, b, step);
      assert f.1 + [] == f.1;
    } else {
      var b0 := b[..|b| - 1];
      assert (a + b)[..|a + b| - 1] == a + b0;
      var x := b[|b| - 1];
      assert (a + b)[|a + b| - 1] == x;
      var m := Fold(s0, a, step).0;
      FoldAppend(s0, a, b0, step);
      FoldLast(s0, a + b, step);
      FoldLast(m, b, step);
      var p := Fold(s0, a + b0, step);
      var q := Fold(m, b0, step);
      assert p == (q.0, Fold(s0, a, step).1 + q.1);
      var n := step(q.0, x);
      assert Fold(s0, a + b, step) == (n.0, p.1 + n.1);
      assert Fold(m, b, step) == (n.0, q.1 + n.1);
      assert p.1 + n.1 == Fold(s0, a, step).1 + (q.1 + n.1);
    }
  }

  // Unfoldings of `Fold` at a state the caller computed.
  lemma FoldNone<S, X, T>(s: S, xs: seq<X>, step: (S, X) -> (S, seq<T>))
    requires |xs| == 0
    ensures Fold(s, xs, step) == (s, [])
  {
  }

  lemma FoldLast<S, X, T>(s: S, xs: seq<X>, step: (S, X) -> (S, seq<T>))
    requires |xs| > 0
    ensures Fold(s, xs, step) ==
      (step(Fold(s, xs[..|xs| - 1], step).0, xs[|xs| - 1]).0,
       Fold(s, xs[..|xs| - 1], step).1 + step(Fold(s, xs[..|xs| - 1], step).0, xs[|xs| - 1]).1)
  {
  }

  /** A step that emits at most one output per element gives no more outputs than elements. */
  lemma {:induction false} FoldAtMostOne<S, X, T>(s0: S, xs: seq<X>, step: (S, X) -> (S, seq<T>))
    requires forall s: S, x: X :: |step(s, x).1| <= 1
    ensures |Fold(s0, xs, step).1| <= |xs|
  {
    if |xs| > 0 {
      FoldAtMostOne(s0, xs[..|xs| - 1], step);
      AtMostOneAt(step, Fold(s0, xs[..|xs| - 1], step).0, xs[|xs| - 1]);
    }
  }

  // The two helpers below only instantiate their requires at a state the
  // caller computed, which the solver does not do by itself for a state of
  // a type parameter.
  lemma AtMostOneAt<S, X, T>(step: (S, X) -> (S, seq<T>), s: S, x: X)
    requires forall s: S, x: X :: |step(s, x).1| <= 1
    ensures |step(s, x).1| <= 1
  {
  }

  lemma AllAt<S, X, T>(step: (S, X) -> (S, seq<T>), ok: T -> bool, s: S, x: X)
    requires forall s: S, x: X, t: T | t in step(s, x).1 :: ok(t)
    ensures forall t | t in step(s, x).1 :: ok(t)
  {
  }

  /** What every step emits satisfies `ok`, so everything emitted does. */
  lemma {:induction false} FoldAll<S, X, T>(s0: S, xs: seq<X>, step: (S, X) -> (S, seq<T>), ok: T -> bool)
    requires forall s: S, x: X, t: T | t in step(s, x).1 :: ok(t)
    ensures forall t | t in Fold(s0, xs, step).1 :: ok(t)
  {
    if |xs| > 0 {
      FoldAll(s0, xs[..|xs| - 1], step, ok);
      AllAt(step, ok, Fold(s0, xs[..|xs| - 1], step).0, xs[|xs| - 1]);
    }
  }

  method FoldLoop<S, X, T>(s0: S, xs: seq<X>, step: (S, X) -> (S, seq<T>)) returns (s: S, out: seq<T>)
    ensures (s, out) == Fold(s0, xs, step)
  {
    s, out := s0, [];
    var i := 0;
    while i < |xs|
      invariant 0 <= i <= |xs|
      invariant (s, out) == Fold(s0, xs[..i], step)
    {
      assert xs[..i + 1][..i] == xs[..i];
      var next := step(s, xs[i]);
      s, out := next.0, out + next.1;
      i := i + 1;
    }
    assert xs[..i] == xs;
  }

  /**
   * A pass over pages where any page may raise: `None` when one does
   * (the exception leaves the loop), otherwise the final state and
   * everything emitted.
   */
  function TryFold<S, X, T>(s0: S, xs: seq<X>, step: (S, X) -> Option<(S, seq<T>)>): Option<(S, seq<T>)>
  {
    if |xs| == 0 then Some((s0, []))
    else
      match TryFold(s0, xs[..|xs| - 1], step)
      case None => None
      case Some(prev) =>
        match step(prev.0, xs[|xs| - 1])
        case None => None
        case Some(next) => Some((next.0, prev.1 + next.1))
  }

  /** Once element `i` raises, after the elements before it went through, the whole pass raises. */
  lemma {:induction false} TryFoldStops<S, X, T>(s0: S, xs: seq<X>, step: (S, X) -> Option<(S, seq<T>)>, i: nat)
    requires i < |xs|
    requires TryFold(s0, xs[..i], step).Some? && step(TryFold(s0, xs[..i], step).value.0, xs[i]).None?
    ensures TryFold(s0, xs, step).None?
  {
    var front := xs[..|xs| - 1];
    if i < |xs| - 1 {
      assert front[..i] == xs[..i];
      TryFoldStops(s0, front, step, i);
    } else {
      assert front == xs[..i];
    }
  }

  /** When no step can raise, the pass is the plain fold of the same step. */
  lemma {:induction false} TryFoldTotal<S, X, T>(s0: S, xs: seq<X>, step: (S, X) -> Option<(S, seq<T>)>, plain: (S, X) -> (S, seq<T>))
    requires forall s: S, x: X :: step(s, x) == Some(plain(s, x))
    ensures TryFold(s0, xs, step) == Some(Fold(s0, xs, plain))
  {
    if |xs| > 0 {
      var front := xs[..|xs| - 1];
      TryFoldTotal(s0, front, step, plain);
      TotalAt(step, plain, Fold(s0, front, plain).0, xs[|xs| - 1]);
    }
  }

  lemma TotalAt<S, X, T>(step: (S, X) -> Option<(S, seq<T>)>, plain: (S, X) -> (S, seq<T>), s: S, x: X)
    requires forall s: S, x: X :: step(s, x) == Some(plain(s, x))
    ensures step(s, x) == Some(plain(s, x))
  {
  }

  /** What every successful step emits satisfies `ok`, so everything emitted does. */
  lemma {:induction false} TryFoldAll<S, X, T>(s0: S, xs: seq<X>, step: (S, X) -> Option<(S, seq<T>)>, ok: T -> bool)
    requires forall s: S, x: X, t: T | step(s, x).Some? && t in step(s, x).value.1 :: ok(t)
    ensures TryFold(s0, xs, step).Some? ==> forall t | t in TryFold(s0, xs, step).value.1 :: ok(t)
  {
    if |xs| > 0 {
      var front := xs[..|xs| - 1];
      TryFoldAll(s0, front, step, ok);
      if TryFold(s0, front, step).Some? {
        TryAllAt(step, ok, TryFold(s0, front, step).value.0, xs[|xs| - 1]);
      }
    }
  }

  lemma TryAllAt<S, X, T>(step: (S, X) -> Option<(S, seq<T>)>, ok: T -> bool, s: S, x: X)
    requires forall s: S, x: X, t: T | step(s, x).Some? && t in step(s, x).value.1 :: ok(t)
    ensures step(s, x).Some? ==> forall t | t in step(s, x).value.1 :: ok(t)
  {
  }

  /** `w(x_0) + ... + w(x_{n-1})`. */
  function SumOf<X>(xs: seq<X>, w: X -> nat): nat
  {
    if |xs| == 0 then 0 else SumOf(xs[..|xs| - 1], w) + w(xs[|xs| - 1])
  }

  /** Weighing every element 1 counts them. */
  lemma {:induction false} SumOfOnes<X>(xs: seq<X>, w: X -> nat)
    requires forall x: X :: w(x) == 1
    ensures SumOf(xs, w) == |xs|
  {
    if |xs| > 0 {
      SumOfOnes(xs[..|xs| - 1], w);
    }
  }

  /** When each step emits at most `w(x)` outputs, the whole pass emits at most their sum. */
  lemma {:induction false} TryFoldBound<S, X, T>(s0: S, xs: seq<X>, step: (S, X) -> Option<(S, seq<T>)>, w: X -> nat)
    requires forall s: S, x: X | step(s, x).Some? :: |step(s, x).value.1| <= w(x)
    ensures TryFold(s0, xs, step).Some? ==> |TryFold(s0, xs, step).value.1| <= SumOf(xs, w)
  {
    if |xs| > 0 {
      var front := xs[..|xs| - 1];
      TryFoldBound(s0, front, step, w);
      if TryFold(s0, front, step).Some? {
        BoundAt(step, w, TryFold(s0, front, step).value.0, xs[|xs| - 1]);
      }
    }
  }

  lemma BoundAt<S, X, T>(step: (S, X) -> Option<(S, seq<T>)>, w: X -> nat, s: S, x: X)
    requires forall s: S, x: X | step(s, x).Some? :: |step(s, x).value.1| <= w(x)
    ensures step(s, x).Some? ==> |step(s, x).value.1| <= w(x)
  {
  }

  /** When each step emits no more outputs than it adds to the measure `w` of the state, the whole pass does too. */
  lemma {:induction false} TryFoldGrow<S, X, T>(s0: S, xs: seq<X>, step: (S, X) -> Option<(S, seq<T>)>, w: S -> int)
    requires forall s: S, x: X | step(s, x).Some? :: w(s) + |step(s, x).value.1| <= w(step(s, x).value.0)
    ensures TryFold(s0, xs, step).Some? ==> w(s0) + |TryFold(s0, xs, step).value.1| <= w(TryFold(s0, xs, step).value.0)
  {
    if |xs| > 0 {
      var front := xs[..|xs| - 1];
      TryFoldGrow(s0, front, step, w);
      if TryFold(s0, front, step).Some? {
        GrowAt(step, w, TryFold(s0, front, step).value.0, xs[|xs| - 1]);
      }
    }
  }

  lemma GrowAt<S, X, T>(step: (S, X) -> Option<(S, seq<T>)>, w: S -> int, s: S, x: X)
    requires forall s: S, x: X | step(s, x).Some? :: w(s) + |step(s, x).value.1| <= w(step(s, x).value.0)
    ensures step(s, x).Some? ==> w(s) + |step(s, x).value.1| <= w(step(s, x).value.0)
  {
  }

  method TryFoldLoop<S, X, T>(s0: S, xs: seq<X>, step: (S, X) -> Option<(S, seq<T>)>) returns (r: Option<(S, seq<T>)>)
    ensures r == TryFold(s0, xs, step)
  {
    var s, out := s0, [];
    var i := 0;
    while i < |xs|
      invariant 0 <= i <= |xs|
      invariant TryFold(s0, xs[..i], step) == Some((s, out))
    {
      assert xs[..i + 1][..i] == xs[..i];
      var next := step(s, xs[i]);
      if next.None? {
        TryFoldStops(s0, xs, step, i);
        return None;
      }
      s, out := next.value.0, out + next.value.1;
      i := i + 1;
    }
    assert xs[..i] == xs;
    r := Some((s, out));
  }

  /** The first non-empty `f(c, x)` over `xs`, in order; empty when every one is. */
  function FirstNonEmpty<C, X, T>(c: C, xs: seq<X>, f: (C, X) -> seq<T>): seq<T>
  {
    if |xs| == 0 then []
    else if f(c, xs[0]) != [] then f(c, xs[0])
    else FirstNonEmpty(c, xs[1..], f)
  }

  lemma {:induction false} FirstNonEmptyEmpty<C, X, T>(c: C, xs: seq<X>, f: (C, X) -> seq<T>)
    ensures FirstNonEmpty(c, xs, f) == [] <==> forall k | 0 <= k < |xs| :: f(c, xs[k]) == []
  {
    if |xs| > 0 && f(c, xs[0]) == [] {
      FirstNonEmptyEmpty(c, xs[1..], f);
      assert forall k | 1 <= k < |xs| :: xs[1..][k - 1] == xs[k];
    }
  }

  lemma {:induction false} FirstNonEmptyFound<C, X, T>(c: C, xs: seq<X>, f: (C, X) -> seq<T>)
    requires FirstNonEmpty(c, xs, f) != []
    ensures exists k | 0 <= k < |xs| ::
        && FirstNonEmpty(c, xs, f) == f(c, xs[k])
        && forall j | 0 <= j < k :: f(c, xs[j]) == []
  {
    if f(c, xs[0]) == [] {
      var tail := xs[1..];
      FirstNonEmptyFound(c, tail, f);
      var k :| 0 <= k < |tail| && FirstNonEmpty(c, tail, f) == f(c, tail[k])
        && forall j | 0 <= j < k :: f(c, tail[j]) == [];
      assert FirstNonEmpty(c, xs, f) == f(c, xs[k + 1]);
      forall j | 0 <= j < k + 1 ensures f(c, xs[j]) == [] {
        if j > 0 {
          assert xs[j] == tail[j - 1];
        }
      }
    } else {
      assert FirstNonEmpty(c, xs, f) == f(c, xs[0]);
    }
  }

  /** From the `k`-th element on: that element's items when it has any, else the search goes on after it. */
  lemma FirstNonEmptyAt<C, X, T>(c: C, xs: seq<X>, f: (C, X) -> seq<T>, k: nat)
    requires k < |xs|
    ensures FirstNonEmpty(c, xs[k..], f) == if f(c, xs[k]) != [] then f(c, xs[k]) else FirstNonEmpty(c, xs[k + 1..], f)
  {
    assert xs[k..][0] == xs[k];
    assert xs[k..][1..] == xs[k + 1..];
  }

  /** A state that only a loop over the elements changes, with nothing emitted. */
  function Thread<S, X>(s0: S, xs: seq<X>, step: (S, X) -> S): S
  {
    if |xs| == 0 then s0 else step(Thread(s0, xs[..|xs| - 1], step), xs[|xs| - 1])
  }

  /** Two steps, one element after the other. */
  lemma ThreadTwo<S, X>(s0: S, a: X, b: X, step: (S, X) -> S)
    ensures Thread(s0, [a, b], step) == step(step(s0, a), b)
  {
    var xs := [a, b];
    assert xs[..1] == [a] && [a][..0] == [];
    assert Thread(s0, [a], step) == step(Thread(s0, [], step), a);
    assert Thread(s0, xs, step) == step(Thread(s0, [a], step), b);
  }

  /** One more element: the state after it is the step applied to the state before it. */
  lemma ThreadNext<S, X>(s0: S, xs: seq<X>, i: nat, step: (S, X) -> S)
    requires i < |xs|
    ensures Thread(s0, xs[..i + 1], step) == step(Thread(s0, xs[..i], step), xs[i])
  {
    assert xs[..i + 1][..i] == xs[..i];
  }

  method ThreadLoop<S, X>(s0: S, xs: seq<X>, step: (S, X) -> S) returns (s: S)
    ensures s == Thread(s0, xs, step)
  {
    s := s0;
    var i := 0;
    while i < |xs|
      invariant 0 <= i <= |xs|
      invariant s == Thread(s0, xs[..i], step)
    {
      ThreadNext(s0, xs, i, step);
      s := step(s, xs[i]);
      i := i + 1;
    }
    assert xs[..i] == xs;
  }

  /** Threading through `xs + ys` is threading through `xs`, then on through `ys`. */
  lemma {:induction false} ThreadAppend<S, X>(s0: S, xs: seq<X>, ys: seq<X>, step: (S, X) -> S)
    ensures Thread(s0, xs + ys, step) == Thread(Thread(s0, xs, step), ys, step)
  {
    if |ys| > 0 {
      ThreadAppend(s0, xs, ys[..|ys| - 1], step);
      assert (xs + ys)[..|xs + ys| - 1] == xs + ys[..|ys| - 1];
    } else {
      assert xs + ys == xs;
    }
  }

  /** A step that leaves the state alone whenever `keep` holds leaves it alone over elements that all satisfy `keep`. */
  lemma {:induction false} ThreadSteady<S, X>(s0: S, xs: seq<X>, step: (S, X) -> S, keep: X -> bool)
    requires forall s: S, x: X | keep(x) :: step(s, x) == s
    requires forall i | 0 <= i < |xs| :: keep(xs[i])
    ensures Thread(s0, xs, step) == s0
  {
    if |xs| > 0 {
      ThreadSteady(s0, xs[..|xs| - 1], step, keep);
    }
  }

  /**
   * A field that each element either sets or leaves alone ends up as the
   * last setting element set it, or as it started when none sets it; `i`
   * is that element, or -1.
   */
  lemma {:induction false} ThreadLast<S, X, V>(s0: S, xs: seq<X>, step: (S, X) -> S, get: S -> Option<V>, put: X -> Option<V>) returns (i: int)
    requires forall s: S, x: X :: get(step(s, x)) == if put(x).Some? then put(x) else get(s)
    ensures -1 <= i < |xs|
    ensures i == -1 ==> get(Thread(s0, xs, step)) == get(s0) && forall j | 0 <= j < |xs| :: put(xs[j]).None?
    ensures i >= 0 ==> put(xs[i]).Some? && get(Thread(s0, xs, step)) == put(xs[i])
    ensures i >= 0 ==> forall j | i < j < |xs| :: put(xs[j]).None?
  {
    if |xs| == 0 {
      return -1;
    }
    var n := |xs| - 1;
    if put(xs[n]).Some? {
      return n;
    }
    i := ThreadLast(s0, xs[..n], step, get, put);
    assert forall j | 0 <= j < n :: xs[..n][j] == xs[j];
  }

  /** `f` applied to every element, in order. */
  function Each<T, U>(s: seq<T>, f: T -> U): (r: seq<U>)
    ensures |r| == |s|
  {
    if |s| == 0 then [] else [f(s[0])] + Each(s[1..], f)
  }

  lemma {:induction false} EachAll<T, U>(s: seq<T>, f: T -> U)
    ensures forall i | 0 <= i < |s| :: Each(s, f)[i] == f(s[i])
  {
    if |s| > 0 {
      EachAll(s[1..], f);
      assert forall i | 1 <= i < |s| :: s[1..][i - 1] == s[i];
    }
  }

  lemma {:induction false} EachAppend<T, U>(a: seq<T>, b: seq<T>, f: T -> U)
    ensures Each(a + b, f) == Each(a, f) + Each(b, f)
  {
    if |a| == 0 {
      assert a + b == b;
    } else {
      assert (a + b)[1..] == a[1..] + b;
      EachAppend(a[1..], b, f);
    }
  }

  /** Taking the same element out of two permutations leaves two permutations. */
  lemma PermRest<T>(a: seq<T>, b: seq<T>, j: nat)
    requires multiset(a) == multiset(b) && |a| > 0 && j < |b| && b[j] == a[0]
    ensures multiset(a[1..]) == multiset(b[..j] + b[j + 1..])
  {
    var x := a[0];
    var rest := b[..j] + b[j + 1..];
    assert a == [x] + a[1..];
    assert b == b[..j] + [x] + b[j + 1..];
    assert multiset(a) == multiset{x} + multiset(a[1..]);
    assert multiset(b) == multiset{x} + multiset(rest);
    MultisetCancel(multiset(a[1..]), multiset(rest), x);
  }

  lemma MultisetCancel<T>(m: multiset<T>, n: multiset<T>, x: T)
    requires multiset{x} + m == multiset{x} + n
    ensures m == n
  {
    assert m == (multiset{x} + m) - multiset{x};
    assert n == (multiset{x} + n) - multiset{x};
  }

  /** Applying `f` to every element of two permutations gives two permutations. */
  lemma {:induction false} EachPerm<T, U>(a: seq<T>, b: seq<T>, f: T -> U)
    requires multiset(a) == multiset(b)
    ensures multiset(Each(a, f)) == multiset(Each(b, f))
    decreases |a|
  {
    if |a| > 0 {
      var x := a[0];
      assert x in multiset(b);
      var j :| 0 <= j < |b| && b[j] == x;
      PermRest(a, b, j);
      EachPerm(a[1..], b[..j] + b[j + 1..], f);
      EachAround(a, 0, f);
      assert a[..0] + a[1..] == a[1..];
      EachAround(b, j, f);
    }
  }

  /** The image of a sequence is the image of the sequence without one element, and that element's image. */
  lemma EachAround<T, U>(s: seq<T>, j: nat, f: T -> U)
    requires j < |s|
    ensures multiset(Each(s, f)) == multiset(Each(s[..j] + s[j + 1..], f)) + multiset{f(s[j])}
  {
    SplitAt(s, j);
    EachMiddle(s[..j], s[j], s[j + 1..], f);
  }

  lemma SplitAt<T>(s: seq<T>, j: nat)
    requires j < |s|
    ensures s == s[..j] + ([s[j]] + s[j + 1..])
  {
  }

  lemma EachMiddle<T, U>(pre: seq<T>, x: T, post: seq<T>, f: T -> U)
    ensures multiset(Each(pre + ([x] + post), f)) == multiset(Each(pre + post, f)) + multiset{f(x)}
  {
    EachAppend(pre, [x] + post, f);
    EachAppend([x], post, f);
    EachAppend(pre, post, f);
    assert Each([x], f) == [f(x)];
    MultisetMiddle(Each(pre, f), f(x), Each(post, f));
  }

  lemma MultisetMiddle<U>(a: seq<U>, y: U, b: seq<U>)
    ensures multiset(a + ([y] + b)) == multiset(a + b) + multiset{y}
  {
  }

  /** A duplicate-free sequence holds each element at most once. */
  lemma {:induction false} DistinctOnce<T>(a: seq<T>, x: T)
    requires forall i, j | 0 <= i < j < |a| :: a[i] != a[j]
    ensures multiset(a)[x] <= 1
  {
    if |a| > 0 {
      assert a == [a[0]] + a[1..];
      DistinctOnce(a[1..], x);
      if a[0] == x {
        assert x !in a[1..];
      }
    }
  }

  /** A permutation of a duplicate-free sequence is duplicate-free. */
  lemma DistinctPerm<T>(a: seq<T>, b: seq<T>)
    requires forall i, j | 0 <= i < j < |a| :: a[i] != a[j]
    requires multiset(a) == multiset(b)
    ensures forall i, j | 0 <= i < j < |b| :: b[i] != b[j]
  {
    forall i, j | 0 <= i < j < |b| ensures b[i] != b[j] {
      if b[i] == b[j] {
        var x := b[i];
        assert b == b[..i] + [x] + b[i + 1..j] + [x] + b[j + 1..];
        assert multiset(b)[x] >= 2;
        DistinctOnce(a, x);
        assert false;
      }
    }
  }
}
