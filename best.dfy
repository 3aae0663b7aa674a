/**
 * The selection loop shared by the two generic extractors: strategies run
 * in a fixed order, a strategy that raises is skipped, and a result replaces
 * the best one so far only when it has strictly more rows; the header
 * information is updated by the strategies that improved the result.
 */
module Best {
  import opened Frames
  import opened BaseExtractor

  /** A header dictionary as the generic strategies fill it. */
  type Info = map<string, string>

  /** What one strategy call gives: an exception, or a table and its header fields. */
  datatype Outcome = Raised | Produced(frame: Frame, info: Info)

  ghost predicate AllWellFormed(outs: seq<Outcome>)
  {
    forall k | 0 <= k < |outs| && outs[k].Produced? :: WellFormed(outs[k].frame)
  }

  /** The best table and the header after the loop has seen `outs`, starting from an empty table and `header`. */
  function BestOf(outs: seq<Outcome>, header: Info): (r: (Frame, Info))
    ensures AllWellFormed(outs) ==> WellFormed(r.0)
  {
    if |outs| == 0 then (EmptyFrame, header)
    else
      var front := outs[..|outs| - 1];
      assert AllWellFormed(outs) ==> AllWellFormed(front) by {
        if AllWellFormed(outs) {
          forall k | 0 <= k < |front| && front[k].Produced? ensures WellFormed(front[k].frame) {
            assert front[k] == outs[k];
          }
        }
      }
      var prev := BestOf(front, header);
      var o := outs[|outs| - 1];
      if o.Produced? && |o.frame.rows| > |prev.0.rows| then (o.frame, prev.1 + o.info) else prev
  }

  /** Strategy `k` replaced the best result when its turn came. */
  predicate Improves(outs: seq<Outcome>, header: Info, k: nat)
    requires k < |outs|
  {
    outs[k].Produced? && |outs[k].frame.rows| > |BestOf(outs[..k], header).0.rows|
  }

  /** No strategy that ran without raising has more rows than the chosen table. */
  lemma {:induction false} BestCovers(outs: seq<Outcome>, header: Info)
    ensures forall k | 0 <= k < |outs| && outs[k].Produced? :: |outs[k].frame.rows| <= |BestOf(outs, header).0.rows|
  {
    if |outs| > 0 {
      var front := outs[..|outs| - 1];
      BestCovers(front, header);
      forall k | 0 <= k < |outs| - 1 && outs[k].Produced?
        ensures |outs[k].frame.rows| <= |BestOf(outs, header).0.rows|
      {
        assert front[k] == outs[k];
      }
    }
  }

  /**
   * A non-empty choice is the table of the first strategy that reached the
   * largest row count: every earlier strategy had strictly fewer rows, so a
   * tie goes to the earliest. An empty choice is the initial empty table.
   */
  lemma {:induction false} BestIsFirstLargest(outs: seq<Outcome>, header: Info)
    ensures |BestOf(outs, header).0.rows| == 0 ==> BestOf(outs, header).0 == EmptyFrame
    ensures |BestOf(outs, header).0.rows| > 0 ==>
      exists k | 0 <= k < |outs| ::
        && outs[k].Produced? && outs[k].frame == BestOf(outs, header).0
        && forall j | 0 <= j < k && outs[j].Produced? :: |outs[j].frame.rows| < |outs[k].frame.rows|
  {
    if |outs| > 0 {
      var front := outs[..|outs| - 1];
      var prev := BestOf(front, header);
      var o := outs[|outs| - 1];
      BestIsFirstLargest(front, header);
      if o.Produced? && |o.frame.rows| > |prev.0.rows| {
        BestCovers(front, header);
        forall j | 0 <= j < |outs| - 1 && outs[j].Produced?
          ensures |outs[j].frame.rows| < |o.frame.rows|
        {
          assert front[j] == outs[j];
        }
      } else if |prev.0.rows| > 0 {
        var k :| 0 <= k < |front| && front[k].Produced? && front[k].frame == prev.0
          && forall j | 0 <= j < k && front[j].Produced? :: |front[j].frame.rows| < |front[k].frame.rows|;
        assert outs[k] == front[k];
        forall j | 0 <= j < k && outs[j].Produced?
          ensures |outs[j].frame.rows| < |outs[k].frame.rows|
        {
          assert outs[j] == front[j];
        }
      }
    }
  }

  /** The header changes only through the strategies that improved the result, and only by their keys. */
  lemma {:induction false} HeaderFromImprovers(outs: seq<Outcome>, header: Info)
    ensures (forall k | 0 <= k < |outs| :: !Improves(outs, header, k)) ==> BestOf(outs, header).1 == header
    ensures forall x | x in BestOf(outs, header).1 ::
      x in header || exists k | 0 <= k < |outs| :: Improves(outs, header, k) && x in outs[k].info
  {
    if |outs| > 0 {
      var n := |outs| - 1;
      var front := outs[..n];
      var prev := BestOf(front, header);
      HeaderFromImprovers(front, header);
      forall k | 0 <= k < n
        ensures Improves(front, header, k) <==> Improves(outs, header, k)
        ensures front[k] == outs[k]
      {
        assert front[..k] == outs[..k];
      }
      assert outs[..n] == front;
      var last := Improves(outs, header, n);
      assert BestOf(outs, header).1 == if last then prev.1 + outs[n].info else prev.1;
      forall x | x in BestOf(outs, header).1
        ensures x in header || exists k | 0 <= k < |outs| :: Improves(outs, header, k) && x in outs[k].info
      {
        if last && x in outs[n].info {
        } else if x !in header {
          assert x in prev.1;
          var k :| 0 <= k < n && Improves(front, header, k) && x in front[k].info;
          assert Improves(outs, header, k) && x in outs[k].info;
        }
      }
    }
  }

  /** Strategies that report no header fields leave the header as it started. */
  lemma {:induction false} SilentStrategies(outs: seq<Outcome>, header: Info)
    requires forall k | 0 <= k < |outs| && outs[k].Produced? :: outs[k].info == map[]
    ensures BestOf(outs, header).1 == header
  {
    if |outs| > 0 {
      var front := outs[..|outs| - 1];
      assert forall k | 0 <= k < |front| :: front[k] == outs[k];
      SilentStrategies(front, header);
      assert header + map[] == header;
    }
  }

  /** The loop only adds or overwrites header fields; it never removes one. */
  lemma {:induction false} HeaderKept(outs: seq<Outcome>, header: Info)
    ensures header.Keys <= BestOf(outs, header).1.Keys
  {
    if |outs| > 0 {
      HeaderKept(outs[..|outs| - 1], header);
    }
  }

  /** When the starting header and every strategy's fields use only keys of `ks`, so does the final header. */
  lemma {:induction false} HeaderWithin(outs: seq<Outcome>, header: Info, ks: set<string>)
    requires header.Keys <= ks
    requires forall k | 0 <= k < |outs| && outs[k].Produced? :: outs[k].info.Keys <= ks
    ensures BestOf(outs, header).1.Keys <= ks
  {
    if |outs| > 0 {
      var front := outs[..|outs| - 1];
      assert forall k | 0 <= k < |front| :: front[k] == outs[k];
      HeaderWithin(front, header, ks);
    }
  }

  /** `extract_statement` after the loop: a non-empty best table is standardised, an empty one returned as it is. */
  function Conclude(outs: seq<Outcome>, header: Info): (r: (Frame, Info))
    requires AllWellFormed(outs)
    ensures r.1 == BestOf(outs, header).1
    ensures IsEmpty(BestOf(outs, header).0) ==> r.0 == BestOf(outs, header).0
    ensures !IsEmpty(BestOf(outs, header).0) ==> r.0 == Standardize(BestOf(outs, header).0)
  {
    var best := BestOf(outs, header);
    if IsEmpty(best.0) then best else (Standardize(best.0), best.1)
  }

  /** When no strategy produced a row, the result is the empty table and the header is untouched. */
  lemma NothingFound(outs: seq<Outcome>, header: Info)
    requires AllWellFormed(outs)
    requires forall k | 0 <= k < |outs| && outs[k].Produced? :: |outs[k].frame.rows| == 0
    ensures Conclude(outs, header) == (EmptyFrame, header)
  {
    BestCovers(outs, header);
    BestIsFirstLargest(outs, header);
    HeaderFromImprovers(outs, header);
    forall k | 0 <= k < |outs| ensures !Improves(outs, header, k) {
    }
  }

  /** The selection loop of `extract_statement`. */
  method PickBest(outs: seq<Outcome>, header: Info) returns (best: Frame, info: Info)
    ensures (best, info) == BestOf(outs, header)
  {
    best, info := EmptyFrame, header;
    var k := 0;
    while k < |outs|
      invariant 0 <= k <= |outs|
      invariant (best, info) == BestOf(outs[..k], header)
    {
      assert outs[..k + 1][..k] == outs[..k];
      var o := outs[k];
      if o.Produced? && |o.frame.rows| > |best.rows| {
        best := o.frame;
        info := info + o.info;
      }
      k := k + 1;
    }
    assert outs[..k] == outs;
  }

  /** `extract_statement` once the strategies have run: pick, then standardise a non-empty result. */
  method Finish(outs: seq<Outcome>, header: Info) returns (df: Frame, info: Info)
    requires AllWellFormed(outs)
    ensures (df, info) == Conclude(outs, header)
  {
    df, info := PickBest(outs, header);
    if !IsEmpty(df) {
      df := StandardizeOutput(df);
    }
  }
}
