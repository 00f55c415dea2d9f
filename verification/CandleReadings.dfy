/**
 * What a candle record says, read off the candles alone: for every field of the record that
 * Assess returns, the condition on prices and volumes under which it has its value. Nothing here
 * goes through the functions CandleEvidence computes the fields with.
 */
module CandleReadings {
  import opened Wrappers
  import opened RealMath
  import opened CandleEvidence
  import opened CandleLevels

  // ---- When there is a record ----

  predicate BadPrices(c: Candle) {
    c.low <= 0.0 || c.high < c.low || c.open < c.low || c.open > c.high || c.close < c.low || c.close > c.high
  }

  lemma RefusedExactly(candles: seq<Candle>, focus: int, request: Request)
    ensures var r, n := Assess(candles, focus, request), |candles|;
            && (r == Failure(NoCandles) <==> n == 0)
            && (r == Failure(FocusOutOfRange) <==> n > 0 && (focus >= n || focus < -n))
            && (r == Failure(InvalidFocusCandle) <==>
                  -n <= focus < n && BadPrices(candles[if focus >= 0 then focus else n + focus]))
  {
    hide EvidenceOf, Window, Following;
  }

  lemma NegativeFocusCountsBack(candles: seq<Candle>, back: nat, request: Request)
    requires 0 < back <= |candles|
    ensures Assess(candles, 0 - back, request) == Assess(candles, |candles| - back, request)
  {
    hide EvidenceOf, Window, Following, Valid;
    assert Position(candles, 0 - back) == Position(candles, |candles| - back);
  }

  /** Position i is assessed. */
  predicate HasRecord(candles: seq<Candle>, i: nat) { i < |candles| && !BadPrices(candles[i]) }

  /** The record of position i. */
  function Record(candles: seq<Candle>, i: nat, request: Request): Evidence
    requires HasRecord(candles, i)
  {
    RefusedExactly(candles, i, request);
    Assess(candles, i, request).value
  }

  lemma RecordIs(candles: seq<Candle>, i: nat, request: Request)
    requires HasRecord(candles, i)
    ensures Valid(candles[i])
    ensures Record(candles, i, request) == EvidenceOf(candles[i], Window(candles, i, request), Following(candles, i), request)
  {
    hide EvidenceOf, Window, Following;
  }

  // ---- The candle after it ----

  /** The next candle counts: it is usable, and it has closed or been overtaken. */
  predicate NextCounts(candles: seq<Candle>, i: nat) {
    i + 1 < |candles| && (i + 2 < |candles| || candles[i + 1].isFinal) && !BadPrices(candles[i + 1])
  }

  lemma NextCandleFields(candles: seq<Candle>, i: nat, request: Request)
    requires HasRecord(candles, i)
    ensures var e := Record(candles, i, request);
            (e.confirmation, e.followThrough) == FollowUp(e.desired, candles[i], Following(candles, i))
  {
    hide EvidenceOf, Window, Following, Valid, Record, Assess, ShapeOf, LevelsAt, Tail, RangePosition, RelativeVolume,
         FollowUp, BreakoutOf, NearestSide, AtKeyLevel, AverageTrueRange, ContextOf, ChecksOf, ConflictsOf, AlignedLabels,
         ConflictLabels, ScorePct, StateOf, LevelDistanceAtr, Desired, PreviousClose, Span;
    RecordIs(candles, i, request);
    RecordFields(candles[i], Window(candles, i, request), Following(candles, i), request);
  }

  /**
   * The verdict of the next candle. A bullish reading is invalidated by a close below the low of the
   * focus, confirmed by a close above its high or by a rising candle that closes above its close.
   */
  lemma NextCandleDecides(candles: seq<Candle>, i: nat, request: Request)
    requires HasRecord(candles, i)
    ensures var e, c := Record(candles, i, request), candles[i];
            && (e.confirmation == Pending <==> !NextCounts(candles, i))
            && (e.followThrough == NotYet <==> e.confirmation == Pending)
            && (e.followThrough == Opposed <==> e.confirmation == Invalidated)
            && (e.followThrough == Absent <==> e.confirmation == Unconfirmed)
            && (NextCounts(candles, i) ==>
                  var f := candles[i + 1];
                  && (e.desired == Bullish ==>
                        && (e.confirmation == Invalidated <==> f.close < c.low)
                        && (e.followThrough == Strong <==> f.close > c.high)
                        && (e.confirmation == Confirmed <==>
                              f.close >= c.low && (f.close > c.high || (f.close > c.close && f.close > f.open))))
                  && (e.desired == Bearish ==>
                        && (e.confirmation == Invalidated <==> f.close > c.high)
                        && (e.followThrough == Strong <==> f.close < c.low)
                        && (e.confirmation == Confirmed <==>
                              f.close <= c.high && (f.close < c.low || (f.close < c.close && f.close < f.open))))
                  && (e.desired == Indecision ==> e.confirmation == Unconfirmed))
  {
    hide EvidenceOf, Record, Assess;
    NextCandleFields(candles, i, request);
    RecordIs(candles, i, request);
  }

  // ---- The candle on its own ----

  lemma ShapeFields(candles: seq<Candle>, i: nat, request: Request)
    requires HasRecord(candles, i)
    ensures var e := Record(candles, i, request);
            Valid(candles[i]) && e.shape == ShapeOf(candles[i]) && e.desired == Desired(candles[i], request)
  {
    hide EvidenceOf, Window, Following, Valid, Record, Assess, ShapeOf, LevelsAt, Tail, RangePosition, RelativeVolume,
         FollowUp, BreakoutOf, NearestSide, AtKeyLevel, AverageTrueRange, ContextOf, ChecksOf, ConflictsOf, AlignedLabels,
         ConflictLabels, ScorePct, StateOf, LevelDistanceAtr, Desired, PreviousClose, Span;
    RecordIs(candles, i, request);
    RecordFields(candles[i], Window(candles, i, request), Following(candles, i), request);
  }

  /** Height of a candle, at least 1e-12. */
  function Height(c: Candle): real {
    if c.high - c.low >= 0.000000000001 then c.high - c.low else 0.000000000001
  }

  lemma SharesOf(c: Candle)
    ensures var s, h := ShapeOf(c), Height(c);
            && (s.direction == Bullish <==> c.close > c.open) && (s.direction == Bearish <==> c.close < c.open)
            && s.bodyRatio * h == (if c.close >= c.open then c.close - c.open else c.open - c.close)
            && s.upperWick * h == (if c.close >= c.open then c.high - c.close else c.high - c.open)
            && s.lowerWick * h == (if c.close >= c.open then c.open - c.low else c.close - c.low)
            && s.closeLocation * h == c.close - c.low
  {
    assert Span(c) == Height(c);
    hide Height, Span, BodyClassOf, PressureOf, ControlOf, RejectionOf, RejectionStrength;
    ShareTimes(Abs(c.close - c.open), Height(c));
    ShareTimes(c.high - Max(c.open, c.close), Height(c));
    ShareTimes(Min(c.open, c.close) - c.low, Height(c));
    ShareTimes(c.close - c.low, Height(c));
  }

  /** The direction, and the ratios: body, wicks and close as shares of the height. */
  lemma SharesOfTheHeight(candles: seq<Candle>, i: nat, request: Request)
    requires HasRecord(candles, i)
    ensures var e, c := Record(candles, i, request), candles[i];
            var s, h := e.shape, Height(c);
            && (s.direction == Bullish <==> c.close > c.open) && (s.direction == Bearish <==> c.close < c.open)
            && e.desired == (if request.direction.Some? then request.direction.value else s.direction)
            && s.bodyRatio * h == (if c.close >= c.open then c.close - c.open else c.open - c.close)
            && s.upperWick * h == (if c.close >= c.open then c.high - c.close else c.high - c.open)
            && s.lowerWick * h == (if c.close >= c.open then c.open - c.low else c.close - c.low)
            && s.closeLocation * h == c.close - c.low
  {
    hide Assess, Record, ShapeOf, Height, Valid;
    ShapeFields(candles, i, request);
    SharesOf(candles[i]);
  }

  /** How the ratios are called. */
  lemma NamesOfTheRatios(candles: seq<Candle>, i: nat, request: Request)
    requires HasRecord(candles, i)
    ensures var s := Record(candles, i, request).shape;
            && (s.bodyClass == IndecisiveBody <==> s.bodyRatio <= 0.15)
            && (s.bodyClass == StrongBody(s.direction) <==> s.bodyRatio >= 0.65)
            && (s.bodyClass == ModerateBody(s.direction) <==> 0.15 < s.bodyRatio < 0.65)
            && (s.pressure == Balanced <==> s.bodyRatio <= 0.15)
            && (s.pressure == Buying <==> 0.15 < s.bodyRatio < 0.65 && s.direction == Bullish)
            && (s.pressure == StrongBuying <==> s.bodyRatio >= 0.65 && s.direction == Bullish)
            && (s.pressure == Selling <==> 0.15 < s.bodyRatio < 0.65 && s.direction != Bullish)
            && (s.control == Buyers <==> s.closeLocation >= 0.7) && (s.control == Sellers <==> s.closeLocation <= 0.3)
            && (s.rejection == LowerPriceRejection <==> s.lowerWick >= 0.45 && 2.0 * s.lowerWick >= 3.0 * s.upperWick)
            && (s.rejection == HigherPriceRejection <==> s.upperWick >= 0.45 && 2.0 * s.upperWick >= 3.0 * s.lowerWick)
            && s.rejectionStrength == (if s.lowerWick >= s.upperWick then s.lowerWick else s.upperWick)
  {
    hide Assess, Record;
    ShapeFields(candles, i, request);
    var c := candles[i];
    WicksNotNegative(c);
    hide Span;
  }

  lemma WicksNotNegative(c: Candle)
    requires Valid(c)
    ensures ShapeOf(c).upperWick >= 0.0 && ShapeOf(c).lowerWick >= 0.0
  {
    QuotientOrder(0.0, c.high - Max(c.open, c.close), Span(c));
    QuotientOrder(0.0, Min(c.open, c.close) - c.low, Span(c));
  }

  // ---- The rows before it ----

  /** Where the rows looked back at begin: n rows before the focus; for n <= 0 what Python's slice makes of it. */
  function Start(i: nat, n: int, request: Request): (start: nat)
    ensures start <= i
  {
    var first := MaxInt(0, i - MaxInt(MaxInt(request.levelLookback, request.volumeLookback), 14));
    if n > 0 then MaxInt(first, i - n) else MinInt(i, first - n)
  }

  function Before(candles: seq<Candle>, i: nat, n: int, request: Request): seq<Candle>
    requires i <= |candles|
  {
    candles[Start(i, n, request)..i]
  }

  lemma TailOfWindow(candles: seq<Candle>, i: nat, n: int, request: Request)
    requires i < |candles|
    ensures Tail(Window(candles, i, request), n) == Before(candles, i, n, request)
  {}

  /** The last n rows before the focus, or all there are. */
  lemma LooksBackExactly(candles: seq<Candle>, i: nat, n: int, request: Request)
    requires i < |candles| && 0 < n && (n == request.levelLookback || n == request.volumeLookback || n == 14)
    ensures Tail(Window(candles, i, request), n) == if i <= n then candles[..i] else candles[i - n..i]
  {
    TailOfWindow(candles, i, n, request);
  }

  lemma {:induction false} ValidRowsFromTheEnd(rows: seq<Candle>)
    requires rows != []
    ensures var last := rows[|rows| - 1];
            ValidRows(rows) == ValidRows(rows[..|rows| - 1]) + if Valid(last) then [last] else []
  {
    hide Valid;
    if |rows| > 1 {
      assert rows[1..][..|rows| - 2] == rows[..|rows| - 1][1..];
      ValidRowsFromTheEnd(rows[1..]);
    }
  }

  /** From the highest to the lowest of the candle and the close before it. */
  function Reach(c: Candle, previousClose: real): real {
    (if c.high >= previousClose then c.high else previousClose) - (if c.low <= previousClose then c.low else previousClose)
  }

  lemma TrueRangeReachesBack(c: Candle, previousClose: real)
    requires Valid(c)
    ensures TrueRange(c, Some(previousClose)) == Reach(c, previousClose)
  {}

  /** The true range of row j of a sequence of valid rows. */
  function RangeAt(v: seq<Candle>, j: nat): real
    requires j < |v|
  {
    if j == 0 then v[0].high - v[0].low else Reach(v[j], v[j - 1].close)
  }

  /** One true range for each valid row, measured against the valid row before it. */
  lemma {:induction false} TrueRangesOfValidRows(rows: seq<Candle>)
    ensures var v, t := ValidRows(rows), TrueRanges(rows);
            && |t| == |v|
            && LastClose(rows) == (if v == [] then None else Some(v[|v| - 1].close))
            && forall j :: 0 <= j < |t| ==> t[j] == RangeAt(v, j)
  {
    if rows != [] {
      var last, before := rows[|rows| - 1], rows[..|rows| - 1];
      var v, w := ValidRows(rows), ValidRows(before);
      TrueRangesOfValidRows(before);
      ValidRowsFromTheEnd(rows);
      forall j | 0 <= j < |v| ensures TrueRanges(rows)[j] == RangeAt(v, j) {
        if j < |w| {
          assert RangeAt(v, j) == RangeAt(w, j);
        } else if 0 < j {
          TrueRangeReachesBack(last, w[j - 1].close);
        }
      }
    }
  }

  /** The average of the true ranges of the last fourteen rows; without any, the height of the focus. */
  lemma AverageRange(candles: seq<Candle>, i: nat, request: Request)
    requires i < |candles|
    ensures var rows := if i <= 14 then candles[..i] else candles[i - 14..i];
            var v, atr := ValidRows(rows), AverageTrueRange(Window(candles, i, request), Span(candles[i]));
            if v == [] then atr == Height(candles[i]) else atr * |v| as real == Sum(TrueRanges(rows))
  {
    hide Window, Sum, TrueRanges, ValidRows, Tail;
    LooksBackExactly(candles, i, 14, request);
    var rows := Tail(Window(candles, i, request), 14);
    TrueRangesOfValidRows(rows);
    if ValidRows(rows) != [] { ShareTimes(Sum(TrueRanges(rows)), |TrueRanges(rows)| as real); }
  }

  // ---- The levels ----

  lemma LevelFields(candles: seq<Candle>, i: nat, request: Request)
    requires HasRecord(candles, i)
    ensures var e, c, history := Record(candles, i, request), candles[i], Window(candles, i, request);
            var rows := Before(candles, i, request.levelLookback, request);
            var atr := AverageTrueRange(history, Span(c));
            var levels := LevelsOf(c, PastLevels(rows, c.close), atr);
            && i < |candles| && Valid(c)
            && e.support == (if levels.NoLevels? then None else Some(levels.support))
            && e.resistance == (if levels.NoLevels? then None else Some(levels.resistance))
            && e.nearest == NearestSide(e.desired, levels)
            && e.atKeyLevel == AtKeyLevel(e.desired, levels)
            && e.levelDistanceAtr == LevelDistanceAtr(e.desired, levels, atr)
            && e.breakout == BreakoutOf(c.close, PreviousClose(c, history), levels)
            && e.rangePosition == RangePosition(c, rows)
            && (e.atKeyLevel ==> e.nearest.Some?)
            && e.context == ContextOf(e.breakout, e.atKeyLevel, e.nearest, e.rangePosition)
  {
    hide EvidenceOf, Window, Following, Valid, Record, Assess, ShapeOf, Tail, RangePosition, RelativeVolume, Before,
         FollowUp, BreakoutOf, NearestSide, AtKeyLevel, AverageTrueRange, ContextOf, ChecksOf, ConflictsOf, AlignedLabels,
         ConflictLabels, ScorePct, StateOf, LevelDistanceAtr, Desired, PreviousClose, Span, LevelsOf, PastLevels;
    RecordIs(candles, i, request);
    TailOfWindow(candles, i, request.levelLookback, request);
    RecordFields(candles[i], Window(candles, i, request), Following(candles, i), request);
  }

  /** Support and resistance exist exactly when a row looked at is valid, and are its nearest pivots. */
  lemma LevelsFound(candles: seq<Candle>, i: nat, request: Request)
    requires HasRecord(candles, i)
    ensures var e, close := Record(candles, i, request), candles[i].close;
            var rows := Before(candles, i, request.levelLookback, request);
            && (e.support.Some? <==> exists c :: c in rows && Valid(c)) && (e.resistance.Some? <==> e.support.Some?)
            && (e.support.Some? ==>
                  var s, r := e.support.value, e.resistance.value;
                  && s <= r
                  && (if exists x :: SupportCandidate(rows, close, x)
                      then SupportCandidate(rows, close, s) && forall x :: SupportCandidate(rows, close, x) ==> x <= s
                      else (exists c :: c in rows && Valid(c) && c.low == s) && forall c :: c in rows && Valid(c) ==> s <= c.low)
                  && (if exists x :: ResistanceCandidate(rows, close, x)
                      then ResistanceCandidate(rows, close, r) && forall x :: ResistanceCandidate(rows, close, x) ==> r <= x
                      else (exists c :: c in rows && Valid(c) && c.high == r) && forall c :: c in rows && Valid(c) ==> c.high <= r))
  {
    hide Window, Valid, Record, Assess, Before, AverageTrueRange, Span, SupportCandidate, ResistanceCandidate, SupportLevel,
         ResistanceLevel, RangePosition, BreakoutOf, NearestSide, AtKeyLevel, ContextOf, LevelDistanceAtr, PreviousClose, ValidRows;
    LevelFields(candles, i, request);
    var rows, close := Before(candles, i, request.levelLookback, request), candles[i].close;
    ValidRowsMembers(rows);
    if ValidRows(rows) != [] {
      assert ValidRows(rows)[0] in ValidRows(rows);
      SupportBelowResistance(rows, close);
      SupportIsNearestPivot(rows, close);
      ResistanceIsNearestPivot(rows, close);
    }
  }

  /** How far the candle stays from a level: with its near end or with its close, whichever is nearer. */
  function Distance(end: real, close: real, level: real): real {
    var a, b := if end >= level then end - level else level - end, if close >= level then close - level else level - close;
    if a <= b then a else b
  }

  lemma DistanceIs(end: real, close: real, level: real)
    ensures Distance(end, close, level) == Min(Abs(end - level), Abs(close - level))
  {}

  lemma NearestOf(desired: Direction, c: Candle, s: real, r: real, atr: real)
    ensures var levels := LevelsOf(c, Some((s, r)), atr);
            var toSupport, toResistance := Distance(c.low, c.close, s), Distance(c.high, c.close, r);
            && NearestSide(desired, levels).Some?
            && (NearestSide(desired, levels) == Some(Support) <==>
                  desired == Bullish || (desired == Indecision && toSupport <= toResistance))
  {
    DistanceIs(c.low, c.close, s);
    DistanceIs(c.high, c.close, r);
    hide Distance, Min, Abs;
  }

  lemma DistanceOverUnit(desired: Direction, levels: Levels, atr: real, unit: real)
    requires levels.Levels? && unit == Max(atr, TINY)
    ensures var distance := LevelDistanceAtr(desired, levels, atr);
            && distance.Some?
            && distance.value * unit
               == if NearestSide(desired, levels) == Some(Support) then levels.supportDistance else levels.resistanceDistance
  {
    ShareTimes(levels.supportDistance, unit);
    ShareTimes(levels.resistanceDistance, unit);
  }

  lemma DistanceInRanges(desired: Direction, c: Candle, s: real, r: real, atr: real)
    ensures var levels := LevelsOf(c, Some((s, r)), atr);
            var unit := if atr >= 0.000000000001 then atr else 0.000000000001;
            var distance := LevelDistanceAtr(desired, levels, atr);
            && distance.Some?
            && distance.value * unit
               == if NearestSide(desired, levels) == Some(Support) then Distance(c.low, c.close, s) else Distance(c.high, c.close, r)
  {
    hide Distance, LevelDistanceAtr, NearestSide, Abs;
    DistanceIs(c.low, c.close, s);
    DistanceIs(c.high, c.close, r);
    DistanceOverUnit(desired, LevelsOf(c, Some((s, r)), atr), atr, Max(atr, TINY));
  }

  lemma AtLevelOf(desired: Direction, c: Candle, s: real, r: real, atr: real)
    ensures var levels := LevelsOf(c, Some((s, r)), atr);
            AtKeyLevel(desired, levels) <==>
              if NearestSide(desired, levels) == Some(Support)
              then (c.low <= s && (s <= c.open || s <= c.close)) || Distance(c.low, c.close, s) * 2.0 <= atr
              else (r <= c.high && (c.open <= r || c.close <= r)) || Distance(c.high, c.close, r) * 2.0 <= atr
  {
    DistanceIs(c.low, c.close, s);
    DistanceIs(c.high, c.close, r);
    hide Distance, Abs;
  }

  /**
   * The nearest level, the distance to it in average ranges, and when the candle counts as being at it:
   * its body or wick reaches it, or it stays within half an average range.
   */
  lemma StandsToTheLevel(candles: seq<Candle>, i: nat, request: Request)
    requires HasRecord(candles, i)
    ensures var e, c := Record(candles, i, request), candles[i];
            var atr := AverageTrueRange(Window(candles, i, request), Span(c));
            var unit := if atr >= 0.000000000001 then atr else 0.000000000001;
            && (e.resistance.Some? <==> e.support.Some?)
            && (e.nearest.Some? <==> e.support.Some?) && (e.levelDistanceAtr.Some? <==> e.support.Some?)
            && (e.support.None? ==> !e.atKeyLevel)
            && (e.support.Some? ==>
                  var s, r := e.support.value, e.resistance.value;
                  var toSupport, toResistance := Distance(c.low, c.close, s), Distance(c.high, c.close, r);
                  && (e.nearest == Some(Support) <==>
                        e.desired == Bullish || (e.desired == Indecision && toSupport <= toResistance))
                  && e.levelDistanceAtr.value * unit == (if e.nearest == Some(Support) then toSupport else toResistance)
                  && (e.atKeyLevel <==>
                        if e.nearest == Some(Support)
                        then (c.low <= s && (s <= c.open || s <= c.close)) || toSupport * 2.0 <= atr
                        else (r <= c.high && (c.open <= r || c.close <= r)) || toResistance * 2.0 <= atr))
  {
    hide *;
    LevelFields(candles, i, request);
    var e, c := Record(candles, i, request), candles[i];
    var levels := PastLevels(Before(candles, i, request.levelLookback, request), c.close);
    var atr := AverageTrueRange(Window(candles, i, request), Span(c));
    LevelsShown(c, levels, atr, e.desired);
    if levels.Some? {
      NearestOf(e.desired, c, levels.value.0, levels.value.1, atr);
      DistanceInRanges(e.desired, c, levels.value.0, levels.value.1, atr);
      AtLevelOf(e.desired, c, levels.value.0, levels.value.1, atr);
    }
  }

  lemma LevelsShown(c: Candle, levels: Option<(real, real)>, atr: real, desired: Direction)
    ensures LevelsOf(c, levels, atr).NoLevels? <==> levels.None?
    ensures levels.Some? ==> LevelsOf(c, levels, atr).support == levels.value.0 && LevelsOf(c, levels, atr).resistance == levels.value.1
    ensures levels.None? ==> NearestSide(desired, LevelsOf(c, levels, atr)).None? && !AtKeyLevel(desired, LevelsOf(c, levels, atr))
                             && LevelDistanceAtr(desired, LevelsOf(c, levels, atr), atr).None?
  {}

  /** low and high are the lowest low and the highest high of the valid rows, or those of c when there are none. */
  ghost predicate IsRange(c: Candle, rows: seq<Candle>, low: real, high: real) {
    if exists row :: row in rows && Valid(row) then
      && (exists row :: row in rows && Valid(row) && row.low == low) && (forall row :: row in rows && Valid(row) ==> low <= row.low)
      && (exists row :: row in rows && Valid(row) && row.high == high) && forall row :: row in rows && Valid(row) ==> row.high <= high
    else low == c.low && high == c.high
  }

  lemma RangeIs(c: Candle, rows: seq<Candle>, low: real, high: real)
    requires IsRange(c, rows, low, high)
    ensures var valid := ValidRows(rows);
            if valid == [] then low == c.low && high == c.high else low == MinOf(Lows(valid)) && high == MaxOf(Highs(valid))
  {
    var valid := ValidRows(rows);
    ValidRowsMembers(rows);
    if valid != [] {
      assert valid[0] in valid;
      LowestLow(rows);
      HighestHigh(rows);
    } else {
      forall row | row in rows ensures !Valid(row) { assert row !in valid; }
    }
  }

  /** Where the close lies between the lowest low and the highest high looked back at. */
  lemma PlaceInTheRange(candles: seq<Candle>, i: nat, request: Request, low: real, high: real)
    requires HasRecord(candles, i)
    requires IsRange(candles[i], Before(candles, i, request.levelLookback, request), low, high)
    ensures var position, close := Record(candles, i, request).rangePosition, candles[i].close;
            && (position.None? <==> high <= low)
            && (position.Some? && close <= low ==> position.value == 0.0)
            && (position.Some? && close >= high ==> position.value == 1.0)
            && (position.Some? && low <= close <= high ==> position.value * (high - low) == close - low)
  {
    hide Window, Valid, Record, Assess, Before, AverageTrueRange, Span, PastLevels, BreakoutOf, ContextOf, IsRange,
         PreviousClose, LevelsOf, NearestSide, AtKeyLevel, LevelDistanceAtr, ValidRows;
    LevelFields(candles, i, request);
    var c, rows := candles[i], Before(candles, i, request.levelLookback, request);
    RangeIs(c, rows, low, high);
    if high > low { ShareOfTheWay(c.close - low, high - low); }
  }

  lemma ShareOfTheWay(way: real, whole: real)
    requires whole > 0.0
    ensures var share := Clamp(way / whole, 0.0, 1.0);
            && (way <= 0.0 ==> share == 0.0) && (way >= whole ==> share == 1.0)
            && (0.0 <= way <= whole ==> share * whole == way)
  {
    ShareTimes(way, whole);
    assert whole / whole == 1.0;
    if way <= 0.0 {
      QuotientOrder(way, 0.0, whole);
    } else if way >= whole {
      QuotientOrder(whole, way, whole);
    } else {
      QuotientOrder(0.0, way, whole);
      QuotientOrder(way, whole, whole);
    }
  }

  /** A breakout is a close beyond a level that the row just before the focus had not closed beyond. */
  lemma BreaksOut(candles: seq<Candle>, i: nat, request: Request)
    requires HasRecord(candles, i)
    ensures var e, close := Record(candles, i, request), candles[i].close;
            var previous := if i == 0 then close else candles[i - 1].close;
            && (e.breakout == BullishBreakout <==>
                  e.resistance.Some? && previous <= e.resistance.value < close)
            && (e.breakout == BearishBreakdown <==>
                  e.support.Some? && close < e.support.value <= previous)
  {
    hide Valid, Record, Assess, Before, AverageTrueRange, Span, PastLevels, RangePosition, ContextOf, NearestSide, AtKeyLevel,
         LevelDistanceAtr;
    LevelFields(candles, i, request);
    LevelsFound(candles, i, request);
  }

  /** The context: a breakout, else the level the candle is at, else the quarter of the range. */
  lemma ContextIsTheFirstThatHolds(candles: seq<Candle>, i: nat, request: Request)
    requires HasRecord(candles, i)
    ensures var e := Record(candles, i, request);
            var broken, position := e.breakout != NoBreakout, e.rangePosition;
            && (e.context.Breaking? <==> broken) && (broken ==> e.context.breakout == e.breakout)
            && (e.context.AtLevel? <==> !broken && e.atKeyLevel)
            && (e.context.AtLevel? ==> e.nearest == Some(e.context.side))
            && (e.context == LowerRange <==> !broken && !e.atKeyLevel && position.Some? && position.value <= 0.25)
            && (e.context == UpperRange <==> !broken && !e.atKeyLevel && position.Some? && position.value >= 0.75)
  {
    hide Window, Valid, Record, Assess, Before, AverageTrueRange, Span, PastLevels, RangePosition, BreakoutOf, NearestSide,
         AtKeyLevel, LevelDistanceAtr, PreviousClose, LevelsOf;
    LevelFields(candles, i, request);
  }

  // ---- Volume ----

  /** t lists the positive values of s in ascending order, each as often as s has it. */
  ghost predicate OrderedPositives(t: seq<real>, s: seq<real>) {
    Ascending(t) && forall x {:trigger multiset(t)[x]} :: multiset(t)[x] == if x > 0.0 then multiset(s)[x] else 0
  }

  lemma {:induction false} PositiveCounts(s: seq<real>)
    ensures forall x {:trigger multiset(Positive(s))[x]} :: multiset(Positive(s))[x] == if x > 0.0 then multiset(s)[x] else 0
  {
    if s != [] {
      PositiveCounts(s[1..]);
      assert s == [s[0]] + s[1..];
      if s[0] > 0.0 { assert Positive(s) == [s[0]] + Positive(s[1..]); }
    }
  }

  lemma VolumeFields(candles: seq<Candle>, i: nat, request: Request)
    requires HasRecord(candles, i)
    ensures var e := Record(candles, i, request);
            && i < |candles|
            && e.relativeVolume == RelativeVolume(candles[i], Before(candles, i, request.volumeLookback, request))
            && e.volumeConfirmation == (if e.relativeVolume.None? then None else Some(e.relativeVolume.value >= 1.2))
  {
    hide EvidenceOf, Window, Following, Valid, Record, Assess, ShapeOf, LevelsAt, Tail, RangePosition, RelativeVolume, Before,
         FollowUp, BreakoutOf, NearestSide, AtKeyLevel, AverageTrueRange, ContextOf, ChecksOf, ConflictsOf, AlignedLabels,
         ConflictLabels, ScorePct, StateOf, LevelDistanceAtr, Desired, PreviousClose, Span;
    RecordIs(candles, i, request);
    TailOfWindow(candles, i, request.volumeLookback, request);
    RecordFields(candles[i], Window(candles, i, request), Following(candles, i), request);
  }

  /**
   * The relative volume compares with the median of the positive volumes looked back at: the value in
   * the middle of their order, or half the sum of the two in the middle.
   */
  lemma VolumeAgainstTheMedian(candles: seq<Candle>, i: nat, request: Request, t: seq<real>)
    requires HasRecord(candles, i)
    requires OrderedPositives(t, Volumes(Before(candles, i, request.volumeLookback, request)))
    ensures var e, volume := Record(candles, i, request), candles[i].volume;
            && (e.relativeVolume.Some? <==> volume > 0.0 && t != [])
            && (e.volumeConfirmation.Some? <==> e.relativeVolume.Some?)
            && (e.relativeVolume.Some? ==>
                  && e.relativeVolume.value * ((t[(|t| - 1) / 2] + t[|t| / 2]) / 2.0) == volume
                  && (e.volumeConfirmation.value <==> e.relativeVolume.value >= 1.2))
  {
    hide Assess, Record, Before, Ascending, OrderedPositives;
    VolumeFields(candles, i, request);
    var rows := Before(candles, i, request.volumeLookback, request);
    MedianIs(Volumes(rows), t);
    if t != [] { ShareTimes(candles[i].volume, Median(Positive(Volumes(rows)))); }
  }

  lemma MedianIs(s: seq<real>, t: seq<real>)
    requires OrderedPositives(t, s)
    ensures t == [] <==> Positive(s) == []
    ensures t != [] ==> Median(Positive(s)) == (t[(|t| - 1) / 2] + t[|t| / 2]) / 2.0 && Median(Positive(s)) > 0.0
  {
    hide Sorted, Positive, Ascending, OrderedPositives;
    SameOrder(s, t);
    AboveZero(s, t);
    if |t| % 2 == 1 { assert (|t| - 1) / 2 == |t| / 2; } else { assert (|t| - 1) / 2 == |t| / 2 - 1; }
  }

  lemma SameOrder(s: seq<real>, t: seq<real>)
    requires OrderedPositives(t, s)
    ensures t == Sorted(Positive(s))
  {
    hide Sorted, Positive, Ascending;
    SortedIsAscendingPermutation(Positive(s));
    PositiveCounts(s);
    var sorted := Sorted(Positive(s));
    forall x ensures multiset(t)[x] == multiset(sorted)[x] {
      assert multiset(sorted)[x] == multiset(Positive(s))[x];
    }
    assert multiset(t) == multiset(sorted);
    OrderIsUnique(t, Sorted(Positive(s)));
  }

  lemma AboveZero(s: seq<real>, t: seq<real>)
    requires OrderedPositives(t, s)
    ensures forall j :: 0 <= j < |t| ==> t[j] > 0.0
  {
    hide Ascending;
    forall j | 0 <= j < |t| ensures t[j] > 0.0 { assert t[j] in multiset(t) && multiset(t)[t[j]] > 0; }
  }

  /** There is only one ascending order of the same values. */
  lemma {:induction false} OrderIsUnique(s: seq<real>, t: seq<real>)
    requires Ascending(s) && Ascending(t) && multiset(s) == multiset(t)
    ensures s == t
  {
    hide Ascending;
    assert |multiset(s)| == |s| && |multiset(t)| == |t|;
    if s != [] {
      LeastIsFirst(s, t);
      LeastIsFirst(t, s);
      OrderIsUnique(s[1..], t[1..]);
      assert s == [s[0]] + s[1..] && t == [t[0]] + t[1..];
    }
  }

  lemma LeastIsFirst(s: seq<real>, t: seq<real>)
    requires Ascending(s) && s != [] && t != [] && multiset(s) == multiset(t)
    ensures s[0] <= t[0] && Ascending(s[1..])
    ensures s[0] == t[0] ==> multiset(s[1..]) == multiset(t[1..])
  {
    hide Ascending;
    AscendingFrom(s);
    assert t[0] in multiset(t);
    RestOf(s);
    RestOf(t);
  }

  lemma RestOf(s: seq<real>)
    requires s != []
    ensures multiset(s[1..]) == multiset(s) - multiset{s[0]}
    ensures forall x :: x in multiset(s) <==> x in s
  {
    assert s == [s[0]] + s[1..];
  }

  lemma {:induction false} AscendingFrom(s: seq<real>)
    requires Ascending(s) && s != []
    ensures Ascending(s[1..]) && forall x :: x in s ==> s[0] <= x
  {
    var rest := s[1..];
    assert forall i :: 0 <= i < |rest| ==> rest[i] == s[i + 1];
    if rest != [] {
      AscendingFrom(rest);
      assert s[0] <= s[1];
    }
    assert s == [s[0]] + rest;
  }

  // ---- The verdict ----

  lemma VerdictFields(candles: seq<Candle>, i: nat, request: Request)
    requires HasRecord(candles, i)
    ensures var e := Record(candles, i, request);
            var checks := ChecksOf(e.desired, e.shape, e.atKeyLevel, e.breakout, e.relativeVolume, e.confirmation);
            var conflicts := ConflictsOf(e.desired, e.shape, e.confirmation);
            && e.aligned == AlignedLabels(checks) && e.conflicting == ConflictLabels(conflicts)
            && e.score == |e.aligned| && e.scorePct == ScorePct(checks, conflicts)
            && e.state == StateOf(e.confirmation, e.scorePct)
  {
    hide EvidenceOf, Window, Following, Valid, Record, Assess, ShapeOf, LevelsAt, Tail, RangePosition, RelativeVolume,
         FollowUp, BreakoutOf, NearestSide, AtKeyLevel, AverageTrueRange, ContextOf, ChecksOf, ConflictsOf, AlignedLabels,
         ConflictLabels, ScorePct, StateOf, LevelDistanceAtr, Desired, PreviousClose, Span;
    RecordIs(candles, i, request);
    RecordFields(candles[i], Window(candles, i, request), Following(candles, i), request);
  }

  /** Place of a label in the order in which they are given. */
  function Rank(tag: Label): nat {
    match tag
    case BodyPressure => 0
    case WickRejection => 1
    case CloseControl => 2
    case LocationContext => 3
    case VolumeExpansion => 4
    case NextCandleFollowThrough => 5
    case OpposingBodyPressure => 6
    case OpposingWickRejection => 7
    case OpposingCloseControl => 8
    case NextCandleInvalidated => 9
  }

  /** In order, so each label at most once, and all ranks from a up to but not including b. */
  predicate InOrder(labels: seq<Label>, a: nat, b: nat) {
    && (forall j :: 0 <= j < |labels| ==> a <= Rank(labels[j]) < b)
    && forall j, k :: 0 <= j < k < |labels| ==> Rank(labels[j]) < Rank(labels[k])
  }

  lemma NotedInOrder(labels: seq<Label>, b: bool, tag: Label, first: nat)
    requires first <= Rank(tag) && InOrder(labels, first, Rank(tag))
    ensures InOrder(Noted(labels, b, tag), first, Rank(tag) + 1)
    ensures |Noted(labels, b, tag)| == |labels| + if b then 1 else 0
    ensures forall x :: x in Noted(labels, b, tag) <==> x in labels || (b && x == tag)
  {}

  lemma NotedTwice(labels: seq<Label>, b: bool, tag: Label, d: bool, next: Label, first: nat)
    requires first <= Rank(tag) && Rank(next) == Rank(tag) + 1 && InOrder(labels, first, Rank(tag))
    ensures var all := Noted(Noted(labels, b, tag), d, next);
            && InOrder(all, first, Rank(next) + 1)
            && |all| == |labels| + (if b then 1 else 0) + (if d then 1 else 0)
            && forall x :: x in all <==> x in labels || (b && x == tag) || (d && x == next)
  {
    hide InOrder, Noted;
    NotedInOrder(labels, b, tag, first);
    NotedInOrder(Noted(labels, b, tag), d, next, first);
  }

  lemma BaseLabelsAre(k: Checks)
    ensures var labels := BaseLabels(k);
            && InOrder(labels, 0, 4) && |labels| <= 4
            && (BodyPressure in labels <==> k.body) && (WickRejection in labels <==> k.wick)
            && (CloseControl in labels <==> k.control) && (LocationContext in labels <==> k.location)
            && VolumeExpansion !in labels && NextCandleFollowThrough !in labels
  {
    hide InOrder, Noted;
    InOrderEmpty(0);
    NotedTwice([], k.body, BodyPressure, k.wick, WickRejection, 0);
    NotedTwice(Noted(Noted([], k.body, BodyPressure), k.wick, WickRejection), k.control, CloseControl, k.location, LocationContext, 0);
  }

  lemma AlignedLabelsAre(k: Checks)
    ensures var labels := AlignedLabels(k);
            && InOrder(labels, 0, 6) && |labels| <= Asked(k)
            && (BodyPressure in labels <==> k.body) && (WickRejection in labels <==> k.wick)
            && (CloseControl in labels <==> k.control) && (LocationContext in labels <==> k.location)
            && (VolumeExpansion in labels <==> k.volume == Some(true))
            && (NextCandleFollowThrough in labels <==> k.followThrough == Some(true))
  {
    hide InOrder, Noted, BaseLabels;
    BaseLabelsAre(k);
    NotedTwice(BaseLabels(k), k.volume == Some(true), VolumeExpansion, k.followThrough == Some(true), NextCandleFollowThrough, 0);
  }

  lemma InOrderEmpty(first: nat)
    ensures InOrder([], first, first)
  {}

  lemma ConflictLabelsAre(k: Conflicts)
    ensures var labels := ConflictLabels(k);
            && InOrder(labels, 6, 10)
            && (OpposingBodyPressure in labels <==> k.body) && (OpposingWickRejection in labels <==> k.wick)
            && (OpposingCloseControl in labels <==> k.control) && (NextCandleInvalidated in labels <==> k.invalidated)
  {
    hide InOrder, Noted;
    InOrderEmpty(6);
    NotedTwice([], k.body, OpposingBodyPressure, k.wick, OpposingWickRejection, 6);
    NotedTwice(Noted(Noted([], k.body, OpposingBodyPressure), k.wick, OpposingWickRejection),
               k.control, OpposingCloseControl, k.invalidated, NextCandleInvalidated, 6);
  }

  /** What speaks for the reading: each label with the condition under which it is given. */
  lemma AlignedExactly(candles: seq<Candle>, i: nat, request: Request)
    requires HasRecord(candles, i)
    ensures var e := Record(candles, i, request);
            var s, bullish, bearish := e.shape, e.desired == Bullish, e.desired == Bearish;
            && (BodyPressure in e.aligned <==> s.bodyRatio >= 0.25 && s.direction == e.desired)
            && (WickRejection in e.aligned <==>
                  (bullish && s.rejection == LowerPriceRejection) || (bearish && s.rejection == HigherPriceRejection))
            && (CloseControl in e.aligned <==> (bullish && s.control == Buyers) || (bearish && s.control == Sellers))
            && (LocationContext in e.aligned <==>
                  || (WickRejection in e.aligned && e.atKeyLevel)
                  || (bullish && e.breakout == BullishBreakout) || (bearish && e.breakout == BearishBreakdown))
            && (VolumeExpansion in e.aligned <==> e.relativeVolume.Some? && e.relativeVolume.value >= 1.2)
            && (NextCandleFollowThrough in e.aligned <==> e.confirmation == Confirmed)
            && InOrder(e.aligned, 0, 6)
  {
    hide Assess, Record, ScorePct, StateOf, ConflictLabels, ConflictsOf, AlignedLabels, InOrder;
    VerdictFields(candles, i, request);
    var e := Record(candles, i, request);
    AlignedLabelsAre(ChecksOf(e.desired, e.shape, e.atKeyLevel, e.breakout, e.relativeVolume, e.confirmation));
  }

  /** What speaks against it. */
  lemma ConflictingExactly(candles: seq<Candle>, i: nat, request: Request)
    requires HasRecord(candles, i)
    ensures var e := Record(candles, i, request);
            var s, bullish, bearish := e.shape, e.desired == Bullish, e.desired == Bearish;
            && (OpposingBodyPressure in e.conflicting <==>
                  s.bodyRatio >= 0.45 && s.direction != Indecision && s.direction != e.desired)
            && (OpposingWickRejection in e.conflicting <==>
                  (bullish && s.rejection == HigherPriceRejection) || (bearish && s.rejection == LowerPriceRejection))
            && (OpposingCloseControl in e.conflicting <==> (bullish && s.control == Sellers) || (bearish && s.control == Buyers))
            && (NextCandleInvalidated in e.conflicting <==> e.confirmation == Invalidated)
            && InOrder(e.conflicting, 6, 10)
  {
    hide Assess, Record, ScorePct, StateOf, AlignedLabels, ChecksOf, ConflictLabels, InOrder;
    VerdictFields(candles, i, request);
    var e := Record(candles, i, request);
    ConflictLabelsAre(ConflictsOf(e.desired, e.shape, e.confirmation));
  }

  lemma ScoreIs(k: Checks, conflicts: Conflicts)
    ensures var asked, yes, no := Asked(k) as real, |AlignedLabels(k)| as real, |ConflictLabels(conflicts)| as real;
            var points := 100.0 * yes - 15.0 * no * asked;
            && yes <= asked
            && ScorePct(k, conflicts) * asked == (if points >= 0.0 then points else 0.0)
            && 0.0 <= ScorePct(k, conflicts) <= 100.0
  {
    hide AlignedLabels, ConflictLabels, Asked;
    AlignedLabelsAre(k);
    AskedFour(k);
    var asked, yes, no := Asked(k) as real, |AlignedLabels(k)| as real, |ConflictLabels(conflicts)| as real;
    ClampedPoints(yes, no, asked);
  }

  lemma AskedFour(k: Checks)
    ensures Asked(k) >= 4
  {}

  lemma ClampedPoints(yes: real, no: real, asked: real)
    requires asked > 0.0 && 0.0 <= yes <= asked && no >= 0.0
    ensures var points := 100.0 * yes - 15.0 * no * asked;
            var pct := Clamp(100.0 * yes / asked - 15.0 * no, 0.0, 100.0);
            pct * asked == (if points >= 0.0 then points else 0.0) && 0.0 <= pct <= 100.0
  {
    var q := 100.0 * yes / asked;
    ShareTimes(100.0 * yes, asked);
    assert q * asked == 100.0 * yes;
    QuotientOrder(100.0 * yes, 100.0 * asked, asked);
    ShareTimes(100.0 * asked, asked);
    assert q <= 100.0 by { assert 100.0 * asked / asked == 100.0; }
    assert (q - 15.0 * no) * asked == 100.0 * yes - 15.0 * no * asked;
    if q - 15.0 * no >= 0.0 {
      ProductOrder(0.0, q - 15.0 * no, asked);
    } else {
      StrictProduct(q - 15.0 * no, 0.0, asked);
    }
  }

  /**
   * The score: the share of the questions answered yes, four always and one each for a known volume and
   * a known next candle, less fifteen points for every conflict, never below zero.
   */
  lemma ScoreAndState(candles: seq<Candle>, i: nat, request: Request)
    requires HasRecord(candles, i)
    ensures var e := Record(candles, i, request);
            var asked := 4 + (if e.relativeVolume.Some? then 1 else 0) + (if e.confirmation != Pending then 1 else 0);
            var points := 100.0 * |e.aligned| as real - 15.0 * |e.conflicting| as real * asked as real;
            && e.score == |e.aligned| <= asked
            && e.scorePct * asked as real == (if points >= 0.0 then points else 0.0)
            && 0.0 <= e.scorePct <= 100.0
            && (e.state == InvalidatedState <==> e.confirmation == Invalidated)
            && (e.state == ConfirmedState <==> e.confirmation == Confirmed && e.scorePct >= 60.0)
  {
    hide Assess, Record, ScorePct, AlignedLabels, ConflictLabels, ConflictsOf;
    VerdictFields(candles, i, request);
    var e := Record(candles, i, request);
    ScoreIs(ChecksOf(e.desired, e.shape, e.atKeyLevel, e.breakout, e.relativeVolume, e.confirmation),
            ConflictsOf(e.desired, e.shape, e.confirmation));
  }

  // ---- The current and the previous candle together ----

  /** Which positions are assessed, and with which lookbacks. */
  lemma LooksAtTwoCandles(candles: seq<Candle>, direction: Option<Direction>)
    ensures var n, r := |candles|, BuildIntelligence(candles, direction);
            var latest := if n >= 2 && !candles[n - 1].isFinal then n - 2 else n - 1;
            && (n == 0 ==> r == Failure(NoCandles))
            && (n > 0 ==>
                  var now := Assess(candles, latest, Request(direction, 40, 20));
                  && (r.Failure? <==> now.Failure? || (latest >= 1 && Assess(candles, latest - 1, Request(direction, 40, 20)).Failure?))
                  && (r.Failure? ==> r.error == InvalidFocusCandle)
                  && (r.Success? ==>
                        && now == Success(r.value.latest)
                        && (r.value.previous.Some? <==> latest >= 1)
                        && (latest >= 1 ==>
                              Assess(candles, latest - 1, Request(direction, 40, 20)) == Success(r.value.previous.value))))
  {
    hide EvidenceOf, Window, Following, Valid, AlignmentOf;
  }

  lemma CombinedIs(candles: seq<Candle>, direction: Option<Direction>)
    ensures var r := BuildIntelligence(candles, direction);
            r.Success? ==> r.value == Combine(r.value.latest, r.value.previous)
  {
    hide Assess;
  }

  /** What is reported of the two: the previous record when it is confirmed, else the latest. */
  lemma ReportsTheConfirmedOne(candles: seq<Candle>, direction: Option<Direction>)
    requires BuildIntelligence(candles, direction).Success?
    ensures var r := BuildIntelligence(candles, direction).value;
            var e, confirmed := r.selected, r.previous.Some? && r.previous.value.state == ConfirmedState;
            && e == (if confirmed then r.previous.value else r.latest)
            && (r.selection == PreviousConfirmed <==> confirmed)
            && (r.confirmationRequired <==> e.confirmation != Confirmed)
            && (r.alignment == Conflicting <==> e.state == InvalidatedState || e.scorePct < 30.0)
            && (r.alignment == Supportive <==> e.state != InvalidatedState && e.scorePct >= 60.0 && e.conflicting == [])
  {
    hide BuildIntelligence;
    CombinedIs(candles, direction);
  }
}
