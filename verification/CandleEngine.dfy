/** The loops of core/candle_evidence.py, each proved to compute what CandleEvidence says. */
module CandleEngine {
  import opened Wrappers
  import opened RealMath
  import opened CandleEvidence

  method TrueRangeScan(candles: seq<Candle>) returns (values: seq<real>)
    ensures values == TrueRanges(candles)
  {
    values := [];
    var previousClose: Option<real> := None;
    for i := 0 to |candles|
      invariant values == TrueRanges(candles[..i]) && previousClose == LastClose(candles[..i])
    {
      var c := candles[i];
      assert candles[..i + 1][..i] == candles[..i];
      if Valid(c) {
        var value := c.high - c.low;
        if previousClose.Some? {
          value := Max(Max(value, Abs(c.high - previousClose.value)), Abs(c.low - previousClose.value));
        }
        values := values + [value];
        previousClose := Some(c.close);
      }
    }
    assert candles[..|candles|] == candles;
  }

  /** The last two rows cannot be pivots, so the scan may stop before them. */
  lemma {:induction false} NoPivotAtTheEnds(rows: seq<Candle>, n: nat)
    requires n <= |rows|
    ensures n <= 2 ==> PivotHighs(rows, n) == [] && PivotLows(rows, n) == []
    ensures n >= |rows| - 2 && 2 <= |rows| - 2 ==>
              PivotHighs(rows, n) == PivotHighs(rows, |rows| - 2) && PivotLows(rows, n) == PivotLows(rows, |rows| - 2)
    ensures |rows| <= 4 ==> PivotHighs(rows, n) == [] && PivotLows(rows, n) == []
  {
    if n > 0 { NoPivotAtTheEnds(rows, n - 1); }
  }

  /** The two comparisons of the scan decide whether row i is a pivot. */
  lemma PivotsNext(rows: seq<Candle>, i: nat)
    requires 2 <= i < |rows| - 2
    ensures var valid := forall j :: i - 2 <= j <= i + 2 ==> Valid(rows[j]);
            && PivotHighs(rows, i + 1) == PivotHighs(rows, i)
               + (if valid && forall j :: i - 2 <= j <= i + 2 && j != i ==> rows[i].high >= rows[j].high then [rows[i].high] else [])
            && PivotLows(rows, i + 1) == PivotLows(rows, i)
               + (if valid && forall j :: i - 2 <= j <= i + 2 && j != i ==> rows[i].low <= rows[j].low then [rows[i].low] else [])
  {}

  /** The scan for pivots, which leaves out the two rows at either end. */
  method PivotScan(history: seq<Candle>) returns (pivotHighs: seq<real>, pivotLows: seq<real>)
    ensures pivotHighs == PivotHighs(history, |history|) && pivotLows == PivotLows(history, |history|)
  {
    hide PivotHighs, PivotLows, Valid;
    pivotHighs, pivotLows := [], [];
    var stop := MaxInt(2, |history| - 2);
    var index := 2;
    NoPivotAtTheEnds(history, if |history| < 2 then |history| else 2);
    while index < stop
      invariant 2 <= index <= stop
      invariant index <= |history| ==> pivotHighs == PivotHighs(history, index) && pivotLows == PivotLows(history, index)
      invariant |history| <= 4 ==> pivotHighs == [] && pivotLows == []
    {
      PivotsNext(history, index);
      if forall position :: index - 2 <= position <= index + 2 ==> Valid(history[position]) {
        var high, low := history[index].high, history[index].low;
        if forall position :: index - 2 <= position <= index + 2 && position != index ==> high >= history[position].high {
          pivotHighs := pivotHighs + [high];
        }
        if forall position :: index - 2 <= position <= index + 2 && position != index ==> low <= history[position].low {
          pivotLows := pivotLows + [low];
        }
      }
      index := index + 1;
    }
    NoPivotAtTheEnds(history, |history|);
  }

  method PastLevelScan(history: seq<Candle>, close: real) returns (levels: Option<(real, real)>)
    ensures levels == PastLevels(history, close)
  {
    var rows := ValidRows(history);
    if rows == [] {
      return None;
    }
    var pivotHighs, pivotLows := PivotScan(history);
    var supports := AtMost(pivotLows, close);
    if supports == [] { supports := [MinOf(Lows(rows))]; }
    var resistances := AtLeast(pivotHighs, close);
    if resistances == [] { resistances := [MaxOf(Highs(rows))]; }
    levels := Some((MaxOf(supports), MinOf(resistances)));
  }

  function CountTrue(s: seq<bool>): nat {
    if s == [] then 0 else CountTrue(s[..|s| - 1]) + (if s[|s| - 1] then 1 else 0)
  }

  lemma CountTrueAppend(s: seq<bool>, b: bool)
    ensures CountTrue(s + [b]) == CountTrue(s) + (if b then 1 else 0)
  {}

  /** Labels of the first n rows of a table that passed. */
  function Passed(table: seq<(Label, bool)>, n: nat): seq<Label>
    requires n <= |table|
  {
    if n == 0 then [] else Noted(Passed(table, n - 1), table[n - 1].1, table[n - 1].0)
  }

  /** The loop over the four questions that are always asked. */
  method CollectBase(k: Checks) returns (aligned: seq<Label>, asked: seq<bool>)
    ensures aligned == BaseLabels(k)
    ensures |asked| == 4 && CountTrue(asked) == |aligned|
  {
    var table := [(BodyPressure, k.body), (WickRejection, k.wick), (CloseControl, k.control), (LocationContext, k.location)];
    aligned, asked := [], [];
    for i := 0 to |table|
      invariant |asked| == i && aligned == Passed(table, i) && CountTrue(asked) == |aligned|
    {
      CountTrueAppend(asked, table[i].1);
      asked := asked + [table[i].1];
      if table[i].1 { aligned := aligned + [table[i].0]; }
    }
    assert Passed(table, 1) == Noted([], k.body, BodyPressure);
    assert Passed(table, 2) == Noted(Passed(table, 1), k.wick, WickRejection);
    assert Passed(table, 3) == Noted(Passed(table, 2), k.control, CloseControl);
  }

  /** One entry in `asked` per question that could be answered, one label per yes. */
  method CollectEvidence(k: Checks) returns (aligned: seq<Label>, asked: seq<bool>)
    ensures aligned == AlignedLabels(k)
    ensures |asked| == Asked(k) && CountTrue(asked) == |aligned|
  {
    aligned, asked := CollectBase(k);
    hide CountTrue, BaseLabels;
    if k.volume.Some? {
      CountTrueAppend(asked, k.volume.value);
      asked := asked + [k.volume.value];
      if k.volume.value { aligned := aligned + [VolumeExpansion]; }
    }
    if k.followThrough.Some? {
      CountTrueAppend(asked, k.followThrough.value);
      asked := asked + [k.followThrough.value];
      if k.followThrough.value { aligned := aligned + [NextCandleFollowThrough]; }
    }
  }

  /** Each conflict that applies is labelled, once, in the order of the program. */
  method CollectConflicts(k: Conflicts) returns (conflicts: seq<Label>)
    ensures conflicts == ConflictLabels(k)
    ensures OpposingBodyPressure in conflicts <==> k.body
    ensures OpposingWickRejection in conflicts <==> k.wick
    ensures OpposingCloseControl in conflicts <==> k.control
    ensures NextCandleInvalidated in conflicts <==> k.invalidated
    ensures |conflicts| == (if k.body then 1 else 0) + (if k.wick then 1 else 0) + (if k.control then 1 else 0)
                           + (if k.invalidated then 1 else 0)
  {
    conflicts := [];
    if k.body { conflicts := conflicts + [OpposingBodyPressure]; }
    if k.wick { conflicts := conflicts + [OpposingWickRejection]; }
    if k.control { conflicts := conflicts + [OpposingCloseControl]; }
    if k.invalidated { conflicts := conflicts + [NextCandleInvalidated]; }
  }

  lemma NothingFollows(desired: Direction, c: Candle)
    ensures FollowUp(desired, c, None) == (Pending, NotYet)
  {}

  lemma KeyLevelHasSide(desired: Direction, levels: Levels)
    ensures AtKeyLevel(desired, levels) ==> NearestSide(desired, levels).Some?
  {}

  /** The assessment of a focus that exists and is valid. */
  method AssessAt(candles: seq<Candle>, index: nat, request: Request) returns (e: Evidence)
    requires index < |candles| && Valid(candles[index])
    ensures e == EvidenceOf(candles[index], Window(candles, index, request), Following(candles, index), request)
  {
    hide ValidRows, Tail, PastLevels, RangePosition, RelativeVolume, BreakoutOf, FollowUp, ShapeOf, TrueRanges, Sum,
         LevelDistanceAtr, AlignedLabels, ConflictLabels, StateOf, ContextOf, ChecksOf, ConflictsOf, LevelsOf, Span,
         CountTrue, NearestSide, AtKeyLevel, Desired, Window;
    var c := candles[index];
    var shape := ShapeOf(c);
    var desired := Desired(c, request);
    var history := Window(candles, index, request);

    var ranges := TrueRangeScan(Tail(history, 14));
    var atr := if ranges == [] then Span(c) else Sum(ranges) / |ranges| as real;
    var pastLevels := PastLevelScan(Tail(history, request.levelLookback), c.close);
    var levels := LevelsOf(c, pastLevels, atr);
    var atLevel, nearest := AtKeyLevel(desired, levels), NearestSide(desired, levels);
    KeyLevelHasSide(desired, levels);

    var position := RangePosition(c, Tail(history, request.levelLookback));
    var breakout := BreakoutOf(c.close, PreviousClose(c, history), levels);
    var context := ContextOf(breakout, atLevel, nearest, position);
    var volume := RelativeVolume(c, Tail(history, request.volumeLookback));

    var confirmation, followThrough := Pending, NotYet;
    NothingFollows(desired, c);
    if index + 1 < |candles| && (index + 1 < |candles| - 1 || candles[index + 1].isFinal) {
      var (verdict, strength) := FollowUp(desired, c, Some(candles[index + 1]));
      confirmation, followThrough := verdict, strength;
    }
    assert (confirmation, followThrough) == FollowUp(desired, c, Following(candles, index));

    var checks := ChecksOf(desired, shape, atLevel, breakout, volume, confirmation);
    var aligned, asked := CollectEvidence(checks);
    var conflicts := CollectConflicts(ConflictsOf(desired, shape, confirmation));
    var score := CountTrue(asked);
    var scorePct := Clamp(100.0 * score as real / MaxInt(1, |asked|) as real - 15.0 * |conflicts| as real, 0.0, 100.0);
    assert scorePct == ScorePct(checks, ConflictsOf(desired, shape, confirmation));
    e := Evidence(
      shape, desired, volume, checks.volume,
      if levels.NoLevels? then None else Some(levels.support),
      if levels.NoLevels? then None else Some(levels.resistance),
      nearest, LevelDistanceAtr(desired, levels, atr), atLevel,
      position, context, breakout, confirmation, followThrough, aligned, conflicts,
      score, scorePct, StateOf(confirmation, scorePct));
  }

  method AssessCandleEvidence(candles: seq<Candle>, focus: int, request: Request)
    returns (result: Result<Evidence, Refusal>)
    ensures result == Assess(candles, focus, request)
  {
    hide EvidenceOf;
    if candles == [] { return Failure(NoCandles); }
    var index := if focus >= 0 then focus else |candles| + focus;
    if index < 0 || index >= |candles| { return Failure(FocusOutOfRange); }
    if !Valid(candles[index]) { return Failure(InvalidFocusCandle); }
    var evidence := AssessAt(candles, index, request);
    result := Success(evidence);
  }
}
