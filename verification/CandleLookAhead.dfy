/**
 * What the candle evidence can see: a bounded window, the focus candle and at most one
 * closed candle after it. Nothing later changes it, and the live tail is invisible.
 */
module CandleLookAhead {
  import opened Wrappers
  import opened RealMath
  import opened CandleEvidence

  /** Position i has been overtaken: the candle after it is final, or is itself followed by another. */
  predicate Settled(candles: seq<Candle>, i: nat) {
    i + 1 < |candles| && (i + 2 < |candles| || candles[i + 1].isFinal)
  }

  /** The candles from the start of the window to position i agree. */
  predicate SameUpTo(a: seq<Candle>, b: seq<Candle>, i: nat, request: Request) {
    && i < |a| && i < |b|
    && forall j {:trigger a[j]} {:trigger b[j]} :: MaxInt(0, i - Lookback(request)) <= j <= i ==> a[j] == b[j]
  }

  /**
   * The assessment is a function of the window, the focus candle and, once position i is
   * settled, the next candle. Everything older and everything later is without effect.
   */
  lemma NoLookAhead(a: seq<Candle>, b: seq<Candle>, i: nat, request: Request)
    requires SameUpTo(a, b, i, request)
    requires Settled(a, i) == Settled(b, i)
    requires Settled(a, i) ==> a[i + 1] == b[i + 1]
    ensures Assess(a, i, request) == Assess(b, i, request)
  {
    hide EvidenceOf;
    assert a[i] == b[i];
    assert Window(a, i, request) == Window(b, i, request);
    assert Following(a, i) == Following(b, i);
  }

  /** Once position i is settled, no number of further candles changes its assessment. */
  lemma SettledEvidenceIsPermanent(candles: seq<Candle>, later: seq<Candle>, i: nat, request: Request)
    requires Settled(candles, i)
    ensures Assess(candles + later, i, request) == Assess(candles, i, request)
  {
    NoLookAhead(candles + later, candles, i, request);
  }

  /** On the last candle the answer is always "pending", and nothing is confirmed or invalidated. */
  lemma LastCandleIsPending(candles: seq<Candle>, request: Request)
    ensures var r := Assess(candles, -1, request);
            r.Success? ==> r.value.confirmation == Pending && r.value.state == Observed
                           && NextCandleFollowThrough !in r.value.aligned
                           && NextCandleInvalidated !in r.value.conflicting
  {
    hide EvidenceOf;
    if candles != [] && Valid(candles[|candles| - 1]) {
      var i := |candles| - 1;
      assert Following(candles, i) == None;
      PendingEvidence(candles[i], Window(candles, i, request), request);
    }
  }

  /** Without a verdict on the next candle there is no label for it. */
  lemma PendingLabels(desired: Direction, shape: Shape, atLevel: bool, breakout: Breakout, volume: Option<real>)
    ensures NextCandleFollowThrough !in AlignedLabels(ChecksOf(desired, shape, atLevel, breakout, volume, Pending))
    ensures NextCandleInvalidated !in ConflictLabels(ConflictsOf(desired, shape, Pending))
  {
    hide SideOf;
  }

  lemma PendingEvidence(c: Candle, history: seq<Candle>, request: Request)
    ensures var e := EvidenceOf(c, history, None, request);
            && e.confirmation == Pending && e.state == Observed
            && NextCandleFollowThrough !in e.aligned && NextCandleInvalidated !in e.conflicting
  {
    hide EvidenceOf, ShapeOf, LevelsAt, RangePosition, RelativeVolume, BreakoutOf, AverageTrueRange, Tail, ScorePct, NearestSide,
         AtKeyLevel, ContextOf, LevelDistanceAtr, Desired, PreviousClose, Span, ChecksOf, ConflictsOf, AlignedLabels, ConflictLabels;
    RecordFields(c, history, None, request);
    var e := EvidenceOf(c, history, None, request);
    PendingLabels(e.desired, e.shape, e.atKeyLevel, e.breakout, e.relativeVolume);
  }

  // ---- The current and the previous candle together ----

  lemma LatestPending(candles: seq<Candle>, direction: Option<Direction>)
    requires candles != []
    ensures Following(candles, LatestIndex(candles)) == None
  {}

  lemma StateNeedsConfirmation(c: Candle, history: seq<Candle>, following: Option<Candle>, request: Request)
    ensures var e := EvidenceOf(c, history, following, request);
            && (e.state == ConfirmedState <==> e.confirmation == Confirmed && e.scorePct >= 60.0)
            && (e.state == InvalidatedState <==> e.confirmation == Invalidated)
  {
    RecordFields(c, history, following, request);
    hide EvidenceOf, ShapeOf, LevelsAt, RangePosition, RelativeVolume, BreakoutOf, AverageTrueRange, FollowUp, ScorePct,
         Tail, ChecksOf, ConflictsOf, AlignedLabels, ConflictLabels, NearestSide, AtKeyLevel, ContextOf;
  }

  /**
   * The chosen record is confirmed exactly when it is the previous candle's. The latest one is
   * always unconfirmed, an invalidated record is never chosen, and a chosen previous candle is
   * never reported as conflicting.
   */
  lemma SelectionIsSound(candles: seq<Candle>, direction: Option<Direction>)
    requires BuildIntelligence(candles, direction).Success?
    ensures var r := BuildIntelligence(candles, direction).value;
            && r.latest.confirmation == Pending
            && (r.confirmationRequired <==> r.selection == LatestObservation)
            && (r.selection == PreviousConfirmed <==> r.previous.Some? && r.previous.value.state == ConfirmedState)
            && r.selected.state != InvalidatedState
            && (r.selection == PreviousConfirmed ==> r.alignment != Conflicting && r.selected.scorePct >= 60.0)
  {
    hide EvidenceOf;
    var i := LatestIndex(candles);
    var request := DefaultRequest(direction);
    LatestPending(candles, direction);
    PendingEvidence(candles[i], Window(candles, i, request), request);
    if i >= 1 {
      StateNeedsConfirmation(candles[i - 1], Window(candles, i - 1, request), Following(candles, i - 1), request);
    }
  }

  /** A tail candle that has not closed changes nothing: the answer is the one given before it appeared. */
  lemma LiveTailIsInvisible(closed: seq<Candle>, tail: Candle, direction: Option<Direction>)
    requires closed != [] && !tail.isFinal
    requires |closed| == 1 || closed[|closed| - 1].isFinal
    ensures BuildIntelligence(closed + [tail], direction) == BuildIntelligence(closed, direction)
  {
    hide EvidenceOf, Window, Following;
    var request := DefaultRequest(direction);
    var n := |closed|;
    assert LatestIndex(closed + [tail]) == LatestIndex(closed) == n - 1;
    NoLookAhead(closed + [tail], closed, n - 1, request);
    if n >= 2 {
      NoLookAhead(closed + [tail], closed, n - 2, request);
    }
  }

  /** Two unfinished tails after the same candles lead to the same answer. */
  lemma LiveTailsAgree(before: seq<Candle>, one: Candle, other: Candle, direction: Option<Direction>)
    requires before != [] && !one.isFinal && !other.isFinal
    ensures BuildIntelligence(before + [one], direction) == BuildIntelligence(before + [other], direction)
  {
    hide EvidenceOf, Window, Following;
    var request := DefaultRequest(direction);
    var n := |before|;
    NoLookAhead(before + [one], before + [other], n - 1, request);
    if n >= 2 {
      NoLookAhead(before + [one], before + [other], n - 2, request);
    }
  }
}
