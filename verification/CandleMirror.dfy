/**
 * Mirror symmetry of the candle evidence: turning every price p into k - p and asking
 * for the opposite direction gives the same score, the same verdict on the next candle
 * and the mirrored levels.
 */
module CandleMirror {
  import opened Wrappers
  import opened RealMath
  import opened CandleEvidence
  import opened CandleLevels

  // ---- The mirror image of everything ----

  function Reflect(k: real, c: Candle): Candle {
    Candle(k - c.open, k - c.low, k - c.high, k - c.close, c.volume, c.isFinal)
  }

  function ReflectAll(k: real, rows: seq<Candle>): (r: seq<Candle>)
    ensures |r| == |rows| && forall i :: 0 <= i < |r| ==> r[i] == Reflect(k, rows[i])
  {
    seq(|rows|, i requires 0 <= i < |rows| => Reflect(k, rows[i]))
  }

  function Flip(k: real, s: seq<real>): (r: seq<real>)
    ensures |r| == |s| && forall i :: 0 <= i < |r| ==> r[i] == k - s[i]
  {
    seq(|s|, i requires 0 <= i < |s| => k - s[i])
  }

  /** A row and its image are valid together. For a valid row this says that its high is below k. */
  predicate Reflectable(k: real, rows: seq<Candle>) {
    forall i {:trigger rows[i]} :: 0 <= i < |rows| ==> (Valid(Reflect(k, rows[i])) <==> Valid(rows[i]))
  }

  function Opposite(d: Direction): Direction {
    match d case Bullish => Bearish case Bearish => Bullish case Indecision => Indecision
  }

  function OppositeBody(b: BodyClass): BodyClass {
    match b
    case IndecisiveBody => IndecisiveBody
    case ModerateBody(d) => ModerateBody(Opposite(d))
    case StrongBody(d) => StrongBody(Opposite(d))
  }

  function OppositePressure(p: Pressure): Pressure {
    match p
    case Balanced => Balanced
    case Buying => Selling
    case Selling => Buying
    case StrongBuying => StrongSelling
    case StrongSelling => StrongBuying
  }

  function OppositeControl(c: Control): Control {
    match c case Buyers => Sellers case Sellers => Buyers case Contested => Contested
  }

  function OppositeRejection(r: Rejection): Rejection {
    match r
    case LowerPriceRejection => HigherPriceRejection
    case HigherPriceRejection => LowerPriceRejection
    case NoRejection => NoRejection
  }

  function OppositeShape(s: Shape): Shape {
    Shape(Opposite(s.direction), s.bodyRatio, OppositeBody(s.bodyClass), OppositePressure(s.pressure),
          s.lowerWick, s.upperWick, 1.0 - s.closeLocation, OppositeControl(s.control),
          OppositeRejection(s.rejection), s.rejectionStrength)
  }

  function OppositeLevels(k: real, l: Levels): Levels {
    match l
    case NoLevels => NoLevels
    case Levels(support, resistance, supportDistance, resistanceDistance, supportTouched, resistanceTouched) =>
      Levels(k - resistance, k - support, resistanceDistance, supportDistance, resistanceTouched, supportTouched)
  }

  function OppositeSide(s: Option<Side>): Option<Side> {
    match s case None => None case Some(Support) => Some(Resistance) case Some(Resistance) => Some(Support)
  }

  function OppositeBreakout(b: Breakout): Breakout {
    match b
    case BullishBreakout => BearishBreakdown
    case BearishBreakdown => BullishBreakout
    case NoBreakout => NoBreakout
  }

  function OppositeContext(c: Context): Context {
    match c
    case Breaking(b) => Breaking(OppositeBreakout(b))
    case AtLevel(Support) => AtLevel(Resistance)
    case AtLevel(Resistance) => AtLevel(Support)
    case LowerRange => UpperRange
    case UpperRange => LowerRange
    case MidRange => MidRange
  }

  function OppositeRequest(r: Request): Request {
    r.(direction := if r.direction.Some? then Some(Opposite(r.direction.value)) else None)
  }

  function FlipOption(k: real, x: Option<real>): Option<real> {
    if x.Some? then Some(k - x.value) else None
  }

  /** The record one would expect of the mirrored candles. Labels, score and state stay as they are. */
  function OppositeEvidence(k: real, e: Evidence): Evidence {
    e.(shape := OppositeShape(e.shape), desired := Opposite(e.desired),
       support := FlipOption(k, e.resistance), resistance := FlipOption(k, e.support),
       nearest := OppositeSide(e.nearest), rangePosition := FlipOption(1.0, e.rangePosition),
       context := OppositeContext(e.context), breakout := OppositeBreakout(e.breakout))
  }

  // ---- One candle ----

  lemma ShareSum(a: real, b: real, s: real)
    requires s > 0.0 && a + b == s
    ensures b / s == 1.0 - a / s
  {
    assert a / s + b / s == (a + b) / s;
  }

  lemma ShareOrder(a: real, b: real, s: real)
    requires s > 0.0 && a < b
    ensures a / s < b / s
  {}

  lemma ShareNonNegative(a: real, s: real)
    requires s > 0.0 && a >= 0.0
    ensures a / s >= 0.0
  {}

  lemma WicksExcludeEachOther(upper: real, lower: real)
    requires upper >= 0.0 && lower >= 0.0
    ensures RejectionOf(lower, upper) == OppositeRejection(RejectionOf(upper, lower))
    ensures RejectionStrength(lower, upper) == RejectionStrength(upper, lower)
  {}

  lemma BodyIsSilentWithoutDirection(ratio: real, d: Direction)
    requires d == Indecision ==> ratio <= 0.15
    ensures BodyClassOf(ratio, Opposite(d)) == OppositeBody(BodyClassOf(ratio, d))
    ensures PressureOf(ratio, Opposite(d)) == OppositePressure(PressureOf(ratio, d))
  {}

  /** Everything about the shape but the place of the close is mirrored, whatever the size of the candle. */
  lemma ShapeMirrorsExceptClose(k: real, c: Candle)
    requires Valid(c)
    ensures ShapeOf(Reflect(k, c)) ==
            OppositeShape(ShapeOf(c)).(closeLocation := ShapeOf(Reflect(k, c)).closeLocation,
                                       control := ShapeOf(Reflect(k, c)).control)
  {
    var m := Reflect(k, c);
    assert Span(m) == Span(c);
    assert Abs(m.close - m.open) == Abs(c.close - c.open);
    assert m.high - Max(m.open, m.close) == Min(c.open, c.close) - c.low;
    assert Min(m.open, m.close) - m.low == c.high - Max(c.open, c.close);
    var shape := ShapeOf(c);
    ShareNonNegative(c.high - Max(c.open, c.close), Span(c));
    ShareNonNegative(Min(c.open, c.close) - c.low, Span(c));
    assert shape.upperWick >= 0.0 && shape.lowerWick >= 0.0;
    assert shape.direction == Indecision ==> shape.bodyRatio == 0.0;
    WicksExcludeEachOther(shape.upperWick, shape.lowerWick);
    BodyIsSilentWithoutDirection(shape.bodyRatio, shape.direction);
  }

  /** The close is mirrored exactly when the candle is at least 1e-12 high. */
  lemma CloseLocationMirrors(k: real, c: Candle)
    requires Valid(c)
    ensures ShapeOf(Reflect(k, c)).closeLocation == 1.0 - ShapeOf(c).closeLocation <==> c.high - c.low >= TINY
    ensures c.high - c.low >= TINY ==> ShapeOf(Reflect(k, c)).control == OppositeControl(ShapeOf(c).control)
  {
    var m := Reflect(k, c);
    assert m.close - m.low == c.high - c.close && Span(m) == Span(c);
    if c.high - c.low >= TINY {
      ShareSum(c.close - c.low, c.high - c.close, Span(c));
    } else {
      assert Span(c) == TINY;
      assert (c.close - c.low) / TINY + (c.high - c.close) / TINY == (c.high - c.low) / TINY;
      ShareOrder(c.high - c.low, TINY, TINY);
    }
  }

  // ---- The rows before it ----

  lemma {:induction false} ValidRowsMirror(k: real, rows: seq<Candle>)
    requires Reflectable(k, rows)
    ensures ValidRows(ReflectAll(k, rows)) == ReflectAll(k, ValidRows(rows))
  {
    if rows != [] {
      assert ReflectAll(k, rows)[1..] == ReflectAll(k, rows[1..]);
      ValidRowsMirror(k, rows[1..]);
      assert ReflectAll(k, [rows[0]] + ValidRows(rows[1..])) == [Reflect(k, rows[0])] + ReflectAll(k, ValidRows(rows[1..]));
    }
  }

  lemma {:induction false} LastCloseMirror(k: real, rows: seq<Candle>)
    requires Reflectable(k, rows)
    ensures LastClose(ReflectAll(k, rows)) == FlipOption(k, LastClose(rows))
  {
    if rows != [] {
      assert ReflectAll(k, rows)[..|rows| - 1] == ReflectAll(k, rows[..|rows| - 1]);
      LastCloseMirror(k, rows[..|rows| - 1]);
    }
  }

  lemma {:induction false} TrueRangesMirror(k: real, rows: seq<Candle>)
    requires Reflectable(k, rows)
    ensures TrueRanges(ReflectAll(k, rows)) == TrueRanges(rows)
  {
    if rows != [] {
      assert ReflectAll(k, rows)[..|rows| - 1] == ReflectAll(k, rows[..|rows| - 1]);
      TrueRangesMirror(k, rows[..|rows| - 1]);
      LastCloseMirror(k, rows[..|rows| - 1]);
    }
  }

  lemma TailMirror(k: real, rows: seq<Candle>, n: int)
    requires Reflectable(k, rows)
    ensures Tail(ReflectAll(k, rows), n) == ReflectAll(k, Tail(rows, n))
    ensures Reflectable(k, Tail(rows, n))
  {}

  lemma AverageTrueRangeMirror(k: real, history: seq<Candle>, span: real)
    requires Reflectable(k, history)
    ensures AverageTrueRange(ReflectAll(k, history), span) == AverageTrueRange(history, span)
  {
    TailMirror(k, history, 14);
    TrueRangesMirror(k, Tail(history, 14));
  }

  lemma {:induction false} ExtremesMirror(k: real, s: seq<real>)
    requires s != []
    ensures MaxOf(Flip(k, s)) == k - MinOf(s)
    ensures MinOf(Flip(k, s)) == k - MaxOf(s)
  {
    if |s| > 1 {
      assert Flip(k, s)[1..] == Flip(k, s[1..]);
      ExtremesMirror(k, s[1..]);
    }
  }

  lemma FlipCons(k: real, x: real, s: seq<real>)
    ensures Flip(k, [x] + s) == [k - x] + Flip(k, s)
  {}

  lemma FlipAppend(k: real, s: seq<real>, x: real)
    ensures Flip(k, s + [x]) == Flip(k, s) + [k - x]
  {}

  lemma {:induction false} AtMostMirror(k: real, s: seq<real>, bound: real)
    ensures AtMost(Flip(k, s), k - bound) == Flip(k, AtLeast(s, bound))
  {
    if s != [] {
      var rest := s[1..];
      assert Flip(k, s)[1..] == Flip(k, rest);
      AtMostMirror(k, rest, bound);
      FlipCons(k, s[0], AtLeast(rest, bound));
    }
  }

  lemma {:induction false} AtLeastMirror(k: real, s: seq<real>, bound: real)
    ensures AtLeast(Flip(k, s), k - bound) == Flip(k, AtMost(s, bound))
  {
    if s != [] {
      var rest := s[1..];
      assert Flip(k, s)[1..] == Flip(k, rest);
      AtLeastMirror(k, rest, bound);
      FlipCons(k, s[0], AtMost(rest, bound));
    }
  }

  lemma PivotMirror(k: real, rows: seq<Candle>, i: int)
    requires Reflectable(k, rows)
    ensures IsPivotLow(ReflectAll(k, rows), i) <==> IsPivotHigh(rows, i)
    ensures IsPivotHigh(ReflectAll(k, rows), i) <==> IsPivotLow(rows, i)
  {}

  lemma {:induction false} PivotsMirror(k: real, rows: seq<Candle>, n: nat)
    requires n <= |rows| && Reflectable(k, rows)
    ensures PivotLows(ReflectAll(k, rows), n) == Flip(k, PivotHighs(rows, n))
    ensures PivotHighs(ReflectAll(k, rows), n) == Flip(k, PivotLows(rows, n))
  {
    if n > 0 {
      PivotsMirror(k, rows, n - 1);
      PivotMirror(k, rows, n - 1);
      hide IsPivotHigh, IsPivotLow, Reflectable;
      FlipAppend(k, PivotHighs(rows, n - 1), rows[n - 1].high);
      FlipAppend(k, PivotLows(rows, n - 1), rows[n - 1].low);
    }
  }

  lemma SupportMirrors(k: real, rows: seq<Candle>, close: real)
    requires Reflectable(k, rows) && ValidRows(rows) != [] && ValidRows(ReflectAll(k, rows)) != []
    ensures SupportLevel(ReflectAll(k, rows), k - close) == k - ResistanceLevel(rows, close)
  {
    hide Reflectable, IsPivotHigh, IsPivotLow, PivotHighs, PivotLows, AtLeast, AtMost, MaxOf, MinOf, Valid;
    ValidRowsMirror(k, rows);
    PivotsMirror(k, rows, |rows|);
    var above := AtLeast(PivotHighs(rows, |rows|), close);
    AtMostMirror(k, PivotHighs(rows, |rows|), close);
    var highs := Highs(ValidRows(rows));
    assert Lows(ValidRows(ReflectAll(k, rows))) == Flip(k, highs);
    ExtremesMirror(k, if above == [] then highs else above);
  }

  lemma ResistanceMirrors(k: real, rows: seq<Candle>, close: real)
    requires Reflectable(k, rows) && ValidRows(rows) != [] && ValidRows(ReflectAll(k, rows)) != []
    ensures ResistanceLevel(ReflectAll(k, rows), k - close) == k - SupportLevel(rows, close)
  {
    hide Reflectable, IsPivotHigh, IsPivotLow, PivotHighs, PivotLows, AtLeast, AtMost, MaxOf, MinOf, Valid;
    ValidRowsMirror(k, rows);
    PivotsMirror(k, rows, |rows|);
    var below := AtMost(PivotLows(rows, |rows|), close);
    AtLeastMirror(k, PivotLows(rows, |rows|), close);
    var lows := Lows(ValidRows(rows));
    assert Highs(ValidRows(ReflectAll(k, rows))) == Flip(k, lows);
    ExtremesMirror(k, if below == [] then lows else below);
  }

  /** The scan mirrors: the support of the image is the image of the resistance, and the other way round. */
  lemma PastLevelsMirror(k: real, rows: seq<Candle>, close: real)
    requires Reflectable(k, rows)
    ensures var image := PastLevels(ReflectAll(k, rows), k - close);
            match PastLevels(rows, close)
            case None => image == None
            case Some((support, resistance)) => image == Some((k - resistance, k - support))
  {
    hide Reflectable, SupportLevel, ResistanceLevel, ValidRows, Valid;
    ValidRowsMirror(k, rows);
    if ValidRows(rows) != [] {
      SupportMirrors(k, rows, close);
      ResistanceMirrors(k, rows, close);
    }
  }

  // ---- The pieces of the record ----

  lemma LevelsOfMirror(k: real, c: Candle, levels: Option<(real, real)>, image: Option<(real, real)>, atr: real)
    requires levels.None? ==> image.None?
    requires levels.Some? ==> image == Some((k - levels.value.1, k - levels.value.0))
    ensures LevelsOf(Reflect(k, c), image, atr) == OppositeLevels(k, LevelsOf(c, levels, atr))
  {}

  lemma LevelsMirror(k: real, c: Candle, history: seq<Candle>, request: Request)
    requires Reflectable(k, history)
    ensures LevelsAt(Reflect(k, c), ReflectAll(k, history), OppositeRequest(request))
         == OppositeLevels(k, LevelsAt(c, history, request))
  {
    hide SupportLevel, ResistanceLevel, ValidRows, AverageTrueRange, Tail, LevelsOf, ReflectAll, Reflectable;
    var m := Reflect(k, c);
    assert Span(m) == Span(c) && m.close == k - c.close;
    AverageTrueRangeMirror(k, history, Span(c));
    TailMirror(k, history, request.levelLookback);
    var rows := Tail(history, request.levelLookback);
    PastLevelsMirror(k, rows, c.close);
    LevelsOfMirror(k, c, PastLevels(rows, c.close), PastLevels(ReflectAll(k, rows), m.close),
                   AverageTrueRange(history, Span(c)));
  }

  /** Both levels are equally near and no direction is wanted: the one case the program decides for the support. */
  predicate Undecided(desired: Direction, levels: Levels) {
    desired == Indecision && levels.Levels? && levels.supportDistance == levels.resistanceDistance
  }

  lemma NearestMirror(k: real, desired: Direction, levels: Levels, atr: real)
    ensures NearestSide(Opposite(desired), OppositeLevels(k, levels)) == OppositeSide(NearestSide(desired, levels))
            <==> !Undecided(desired, levels)
    ensures !Undecided(desired, levels) ==>
              AtKeyLevel(Opposite(desired), OppositeLevels(k, levels)) == AtKeyLevel(desired, levels)
    ensures LevelDistanceAtr(Opposite(desired), OppositeLevels(k, levels), atr)
         == LevelDistanceAtr(desired, levels, atr)
  {}

  lemma ClampedShareMirror(close: real, low: real, high: real)
    requires high - low > 0.0
    ensures Clamp((high - close) / (high - low), 0.0, 1.0) == 1.0 - Clamp((close - low) / (high - low), 0.0, 1.0)
  {
    ShareSum(close - low, high - close, high - low);
  }

  lemma RangePositionMirror(k: real, c: Candle, rows: seq<Candle>)
    requires Reflectable(k, rows)
    ensures RangePosition(Reflect(k, c), ReflectAll(k, rows)) == FlipOption(1.0, RangePosition(c, rows))
  {
    ValidRowsMirror(k, rows);
    var valid := ValidRows(rows);
    var low := if valid == [] then c.low else MinOf(Lows(valid));
    var high := if valid == [] then c.high else MaxOf(Highs(valid));
    if valid != [] {
      var image := ValidRows(ReflectAll(k, rows));
      assert Lows(image) == Flip(k, Highs(valid)) && Highs(image) == Flip(k, Lows(valid));
      ExtremesMirror(k, Highs(valid));
      ExtremesMirror(k, Lows(valid));
    }
    hide ValidRows, Reflectable, ReflectAll, Lows, Highs, MinOf, MaxOf, Clamp;
    if high - low > 0.0 {
      ClampedShareMirror(c.close, low, high);
      assert (k - c.close) - (k - high) == high - c.close && (k - low) - (k - high) == high - low;
    }
  }

  lemma BreakoutMirror(k: real, close: real, previousClose: real, levels: Levels)
    requires levels.Levels? ==> levels.support <= levels.resistance
    ensures BreakoutOf(k - close, k - previousClose, OppositeLevels(k, levels))
         == OppositeBreakout(BreakoutOf(close, previousClose, levels))
  {}

  lemma ContextMirror(breakout: Breakout, atLevel: bool, side: Option<Side>, position: Option<real>)
    requires atLevel ==> side.Some?
    ensures ContextOf(OppositeBreakout(breakout), atLevel, OppositeSide(side), FlipOption(1.0, position))
         == OppositeContext(ContextOf(breakout, atLevel, side, position))
  {}

  lemma VolumeMirror(k: real, c: Candle, rows: seq<Candle>)
    ensures RelativeVolume(Reflect(k, c), ReflectAll(k, rows)) == RelativeVolume(c, rows)
  {
    assert Volumes(ReflectAll(k, rows)) == Volumes(rows);
  }

  function ReflectOption(k: real, c: Option<Candle>): Option<Candle> {
    if c.Some? then Some(Reflect(k, c.value)) else None
  }

  lemma FollowUpMirror(k: real, desired: Direction, c: Candle, following: Option<Candle>)
    requires following.Some? ==> (Valid(Reflect(k, following.value)) <==> Valid(following.value))
    ensures FollowUp(Opposite(desired), Reflect(k, c), ReflectOption(k, following)) == FollowUp(desired, c, following)
  {}

  lemma ChecksMirror(desired: Direction, shape: Shape, image: Shape, atLevel: bool, atLevelImage: bool,
                     breakout: Breakout, volume: Option<real>, confirmation: Confirmation)
    requires image == OppositeShape(shape)
    requires desired != Indecision ==> atLevel == atLevelImage
    ensures ChecksOf(Opposite(desired), image, atLevelImage, OppositeBreakout(breakout), volume, confirmation)
         == ChecksOf(desired, shape, atLevel, breakout, volume, confirmation)
    ensures ConflictsOf(Opposite(desired), image, confirmation) == ConflictsOf(desired, shape, confirmation)
  {}

  // ---- The main results ----

  lemma LevelsAreOrdered(c: Candle, history: seq<Candle>, request: Request)
    ensures var levels := LevelsAt(c, history, request); levels.Levels? ==> levels.support <= levels.resistance
  {
    var rows := Tail(history, request.levelLookback);
    if ValidRows(rows) != [] { SupportBelowResistance(rows, c.close); }
  }

  /** What both results about one focus candle ask of its surroundings. */
  predicate Mirrorable(k: real, c: Candle, history: seq<Candle>, following: Option<Candle>) {
    && Valid(c)
    && Reflectable(k, history)
    && (following.Some? ==> (Valid(Reflect(k, following.value)) <==> Valid(following.value)))
  }

  function Image(k: real, c: Candle, history: seq<Candle>, following: Option<Candle>, request: Request): Evidence {
    EvidenceOf(Reflect(k, c), ReflectAll(k, history), ReflectOption(k, following), OppositeRequest(request))
  }

  /** The fields that depend on volume and on the candle after the focus. */
  lemma VolumeFields(c: Candle, history: seq<Candle>, following: Option<Candle>, request: Request)
    ensures var e := EvidenceOf(c, history, following, request);
            && e.desired == Desired(c, request)
            && e.relativeVolume == RelativeVolume(c, Tail(history, request.volumeLookback))
            && e.volumeConfirmation == (if e.relativeVolume.None? then None else Some(e.relativeVolume.value >= 1.2))
            && (e.confirmation, e.followThrough) == FollowUp(Desired(c, request), c, following)
  {
    hide EvidenceOf, LevelsAt, ShapeOf, Tail, RangePosition, RelativeVolume, FollowUp, BreakoutOf, NearestSide, AtKeyLevel,
         AverageTrueRange, ContextOf, ChecksOf, ConflictsOf, AlignedLabels, ConflictLabels, ScorePct, StateOf, LevelDistanceAtr,
         Desired, PreviousClose, Span;
    RecordFields(c, history, following, request);
  }

  lemma VolumeAndFollowUpMirror(k: real, c: Candle, history: seq<Candle>, following: Option<Candle>, request: Request)
    requires Mirrorable(k, c, history, following)
    ensures var e, m := EvidenceOf(c, history, following, request), Image(k, c, history, following, request);
            && m.desired == Opposite(e.desired)
            && m.relativeVolume == e.relativeVolume && m.volumeConfirmation == e.volumeConfirmation
            && m.confirmation == e.confirmation && m.followThrough == e.followThrough
  {
    hide EvidenceOf, Tail, Reflect, ReflectAll, ReflectOption, Reflectable, RelativeVolume, FollowUp, Desired, Valid;
    VolumeFields(c, history, following, request);
    VolumeFields(Reflect(k, c), ReflectAll(k, history), ReflectOption(k, following), OppositeRequest(request));
    FocusMirror(k, c, history, request);
    TailMirror(k, history, request.volumeLookback);
    VolumeMirror(k, c, Tail(history, request.volumeLookback));
    FollowUpMirror(k, Desired(c, request), c, following);
  }

  lemma FocusMirror(k: real, c: Candle, history: seq<Candle>, request: Request)
    ensures Span(Reflect(k, c)) == Span(c)
    ensures Desired(Reflect(k, c), OppositeRequest(request)) == Opposite(Desired(c, request))
    ensures PreviousClose(Reflect(k, c), ReflectAll(k, history)) == k - PreviousClose(c, history)
    ensures Reflect(k, c).close == k - c.close
    ensures OppositeRequest(request).levelLookback == request.levelLookback
  {}

  /** Everything about a record that has to do with the place of the focus among the rows. */
  datatype Place = Place(levels: Levels, distance: Option<real>, position: Option<real>, breakout: Breakout)

  function PlaceOf(c: Candle, history: seq<Candle>, request: Request): Place {
    var levels := LevelsAt(c, history, request);
    Place(levels, LevelDistanceAtr(Desired(c, request), levels, AverageTrueRange(history, Span(c))),
          RangePosition(c, Tail(history, request.levelLookback)),
          BreakoutOf(c.close, PreviousClose(c, history), levels))
  }

  lemma PlaceFields(c: Candle, history: seq<Candle>, following: Option<Candle>, request: Request)
    ensures var e, p := EvidenceOf(c, history, following, request), PlaceOf(c, history, request);
            && e.support == (if p.levels.NoLevels? then None else Some(p.levels.support))
            && e.resistance == (if p.levels.NoLevels? then None else Some(p.levels.resistance))
            && e.levelDistanceAtr == p.distance && e.rangePosition == p.position && e.breakout == p.breakout
  {
    hide EvidenceOf, LevelsAt, ShapeOf, Tail, RangePosition, RelativeVolume, FollowUp,
         BreakoutOf, NearestSide, AtKeyLevel, AverageTrueRange, ContextOf, ChecksOf, ConflictsOf, AlignedLabels,
         ConflictLabels, ScorePct, StateOf, LevelDistanceAtr, Desired, PreviousClose, Span;
    RecordFields(c, history, following, request);
  }

  lemma PlaceMirror(k: real, c: Candle, history: seq<Candle>, request: Request)
    requires Reflectable(k, history)
    ensures var p := PlaceOf(c, history, request);
            PlaceOf(Reflect(k, c), ReflectAll(k, history), OppositeRequest(request))
            == Place(OppositeLevels(k, p.levels), p.distance, FlipOption(1.0, p.position), OppositeBreakout(p.breakout))
  {
    hide LevelsAt, Tail, Reflect, ReflectAll, Reflectable, RangePosition, BreakoutOf, AverageTrueRange,
         LevelDistanceAtr, Desired, PreviousClose, Span, OppositeRequest, Opposite, Valid, OppositeLevels,
         OppositeBreakout, FlipOption, NearestSide, AtKeyLevel, OppositeSide;
    FocusMirror(k, c, history, request);
    LevelsMirror(k, c, history, request);
    LevelsAreOrdered(c, history, request);
    AverageTrueRangeMirror(k, history, Span(c));
    TailMirror(k, history, request.levelLookback);
    var levels := LevelsAt(c, history, request);
    NearestMirror(k, Desired(c, request), levels, AverageTrueRange(history, Span(c)));
    RangePositionMirror(k, c, Tail(history, request.levelLookback));
    BreakoutMirror(k, c.close, PreviousClose(c, history), levels);
  }

  lemma PlacesMirror(k: real, c: Candle, history: seq<Candle>, following: Option<Candle>, request: Request)
    requires Mirrorable(k, c, history, following)
    ensures var e, m := EvidenceOf(c, history, following, request), Image(k, c, history, following, request);
            && m.support == FlipOption(k, e.resistance) && m.resistance == FlipOption(k, e.support)
            && m.levelDistanceAtr == e.levelDistanceAtr
            && m.rangePosition == FlipOption(1.0, e.rangePosition)
            && m.breakout == OppositeBreakout(e.breakout)
  {
    hide EvidenceOf, PlaceOf, Reflect, ReflectAll, Reflectable, OppositeRequest, Valid, OppositeBreakout;
    PlaceFields(c, history, following, request);
    PlaceFields(Reflect(k, c), ReflectAll(k, history), ReflectOption(k, following), OppositeRequest(request));
    PlaceMirror(k, c, history, request);
  }

  /** Mirror symmetry of the verdict, for every wanted direction and every candle at least 1e-12 high. */
  lemma VerdictMirrors(k: real, c: Candle, history: seq<Candle>, following: Option<Candle>, request: Request)
    requires Mirrorable(k, c, history, following) && c.high - c.low >= TINY
    ensures var e, m := EvidenceOf(c, history, following, request), Image(k, c, history, following, request);
            && m.score == e.score && m.scorePct == e.scorePct
            && m.aligned == e.aligned && m.conflicting == e.conflicting
            && m.confirmation == e.confirmation && m.state == e.state
            && m.shape == OppositeShape(e.shape)
            && m.support == FlipOption(k, e.resistance) && m.resistance == FlipOption(k, e.support)
  {
    ShapeMirrorsExceptClose(k, c);
    CloseLocationMirrors(k, c);
    VolumeAndFollowUpMirror(k, c, history, following, request);
    PlacesMirror(k, c, history, following, request);
    LevelsMirror(k, c, history, request);
    var levels := LevelsAt(c, history, request);
    var e := EvidenceOf(c, history, following, request);
    var m := Image(k, c, history, following, request);
    RecordFields(c, history, following, request);
    RecordFields(Reflect(k, c), ReflectAll(k, history), ReflectOption(k, following), OppositeRequest(request));
    hide EvidenceOf, LevelsAt, RelativeVolume, RangePosition, Tail, ReflectAll, Reflectable, AverageTrueRange, FollowUp,
         BreakoutOf, ContextOf, AlignedLabels, ConflictLabels, ScorePct, StateOf, ShapeOf, ChecksOf, ConflictsOf;
    NearestMirror(k, e.desired, levels, AverageTrueRange(history, Span(c)));
    ChecksMirror(e.desired, e.shape, m.shape, e.atKeyLevel, m.atKeyLevel, e.breakout, e.relativeVolume, e.confirmation);
  }

  /** The whole record is mirrored exactly when the candle is at least 1e-12 high and the tie rule was not used. */
  lemma RecordMirrorsExactly(k: real, c: Candle, history: seq<Candle>, following: Option<Candle>, request: Request)
    requires Mirrorable(k, c, history, following)
    ensures Image(k, c, history, following, request) == OppositeEvidence(k, EvidenceOf(c, history, following, request))
            <==> c.high - c.low >= TINY && !Undecided(Desired(c, request), LevelsAt(c, history, request))
  {
    VolumeAndFollowUpMirror(k, c, history, following, request);
    PlacesMirror(k, c, history, following, request);
    CloseLocationMirrors(k, c);
    LevelsMirror(k, c, history, request);
    var e := EvidenceOf(c, history, following, request);
    var m := Image(k, c, history, following, request);
    NearestMirror(k, e.desired, LevelsAt(c, history, request), AverageTrueRange(history, Span(c)));
    RecordFields(c, history, following, request);
    RecordFields(Reflect(k, c), ReflectAll(k, history), ReflectOption(k, following), OppositeRequest(request));
    hide EvidenceOf, LevelsAt, RelativeVolume, RangePosition, Tail, ReflectAll, Reflectable, AverageTrueRange, FollowUp,
         BreakoutOf, ContextOf, AlignedLabels, ConflictLabels, ScorePct, StateOf, ShapeOf, ChecksOf, ConflictsOf;
    if c.high - c.low >= TINY && !Undecided(e.desired, LevelsAt(c, history, request)) {
      VerdictMirrors(k, c, history, following, request);
      ContextMirror(e.breakout, e.atKeyLevel, e.nearest, e.rangePosition);
    }
  }

  function MirrorResult(k: real, r: Result<Evidence, Refusal>): Result<Evidence, Refusal> {
    match r case Success(e) => Success(OppositeEvidence(k, e)) case Failure(f) => Failure(f)
  }

  lemma SurroundingsInASequence(k: real, candles: seq<Candle>, i: nat, request: Request)
    requires i < |candles| && Reflectable(k, candles)
    ensures Window(ReflectAll(k, candles), i, OppositeRequest(request)) == ReflectAll(k, Window(candles, i, request))
    ensures Following(ReflectAll(k, candles), i) == ReflectOption(k, Following(candles, i))
    ensures Valid(candles[i]) ==> Mirrorable(k, candles[i], Window(candles, i, request), Following(candles, i))
  {}

  lemma AssessImage(k: real, candles: seq<Candle>, focus: int, request: Request)
    requires Reflectable(k, candles)
    ensures var i := Position(candles, focus);
            var m := Assess(ReflectAll(k, candles), focus, OppositeRequest(request));
            if 0 <= i < |candles| && Valid(candles[i]) then
              && Mirrorable(k, candles[i], Window(candles, i, request), Following(candles, i))
              && m == Success(Image(k, candles[i], Window(candles, i, request), Following(candles, i), request))
            else m == Assess(candles, focus, request)
  {
    hide EvidenceOf;
    var i := Position(candles, focus);
    var image := ReflectAll(k, candles);
    assert |image| == |candles| && (candles == [] <==> image == []);
    if 0 <= i < |candles| {
      assert image[i] == Reflect(k, candles[i]) && (Valid(image[i]) <==> Valid(candles[i]));
      SurroundingsInASequence(k, candles, i, request);
      hide Window, Following, ReflectAll, Reflectable, Mirrorable;
    }
  }

  /** Mirror symmetry of the program's result on a whole sequence, refusals included. */
  lemma AssessMirrors(k: real, candles: seq<Candle>, focus: int, request: Request)
    requires Reflectable(k, candles)
    ensures var r, m := Assess(candles, focus, request), Assess(ReflectAll(k, candles), focus, OppositeRequest(request));
            && (r.Failure? ==> m == r)
            && (r.Success? ==>
                  var c := candles[Position(candles, focus)];
                  var window := Window(candles, Position(candles, focus), request);
                  && m.Success?
                  && (c.high - c.low >= TINY ==>
                        m.value.scorePct == r.value.scorePct && m.value.score == r.value.score
                        && m.value.confirmation == r.value.confirmation && m.value.state == r.value.state)
                  && (m == MirrorResult(k, r) <==>
                        c.high - c.low >= TINY && !Undecided(Desired(c, request), LevelsAt(c, window, request))))
  {
    var i := Position(candles, focus);
    AssessImage(k, candles, focus, request);
    hide ReflectAll, Reflectable, EvidenceOf, Window, Following, OppositeEvidence, LevelsAt, Image, Mirrorable;
    if 0 <= i < |candles| && Valid(candles[i]) {
      var window, following := Window(candles, i, request), Following(candles, i);
      if candles[i].high - candles[i].low >= TINY {
        VerdictMirrors(k, candles[i], window, following, request);
      }
      RecordMirrorsExactly(k, candles[i], window, following, request);
    }
  }

  /** A candle without height is scored as controlled by sellers both ways, so its score does change. */
  lemma FlatCandleScoreChanges()
    ensures var c := Candle(2.0, 2.0, 2.0, 2.0, 0.0, true);
            var request := DefaultRequest(Some(Bearish));
            && Reflectable(4.0, [c]) && ReflectAll(4.0, [c]) == [c]
            && Assess([c], 0, request).Success?
            && Assess([c], 0, OppositeRequest(request)).Success?
            && Assess([c], 0, request).value.score == 1
            && Assess([c], 0, OppositeRequest(request)).value.score == 0
  {
    hide EvidenceOf, Lookback;
    var c := Candle(2.0, 2.0, 2.0, 2.0, 0.0, true);
    var request := DefaultRequest(Some(Bearish));
    assert ReflectAll(4.0, [c]) == [c];
    assert Window([c], 0, request) == [] && Window([c], 0, OppositeRequest(request)) == [];
    LonelyFlatScore(c, request);
    LonelyFlatScore(c, OppositeRequest(request));
  }

  /**
   * The tie rule does decide: around the one row before it this doji stands in the middle, the picture is
   * its own mirror image, and both ways the record names the support.
   */
  lemma TieRuleIsNotMirrored(candles: seq<Candle>, request: Request)
    requires candles == [Candle(2.0, 3.0, 1.0, 2.0, 0.0, true), Candle(2.0, 2.5, 1.5, 2.0, 0.0, true)]
    requires request == DefaultRequest(None)
    ensures Reflectable(4.0, candles) && ReflectAll(4.0, candles) == candles && OppositeRequest(request) == request
    ensures Assess(candles, 1, request).Success? && Assess(candles, 1, request).value.nearest == Some(Support)
    ensures MirrorResult(4.0, Assess(candles, 1, request)) != Assess(candles, 1, request)
  {
    var c, history, following := candles[1], candles[..1], Following(candles, 1);
    assert ReflectAll(4.0, candles) == candles;
    WholeWindow(candles, request);
    InTheMiddle(c, history, request);
    TieGoesToSupport(c, history, following, request);
    hide EvidenceOf, Window, LevelsAt, DefaultRequest, Following, ReflectAll, Reflectable;
  }

  lemma TieGoesToSupport(c: Candle, history: seq<Candle>, following: Option<Candle>, request: Request)
    requires Undecided(Desired(c, request), LevelsAt(c, history, request))
    ensures EvidenceOf(c, history, following, request).nearest == Some(Support)
  {
    RecordFields(c, history, following, request);
    hide EvidenceOf, LevelsAt, ShapeOf, Tail, RangePosition, RelativeVolume, FollowUp, BreakoutOf, AtKeyLevel, AverageTrueRange,
         ContextOf, ChecksOf, ConflictsOf, AlignedLabels, ConflictLabels, ScorePct, StateOf, LevelDistanceAtr, PreviousClose, Span;
  }

  lemma WholeWindow(candles: seq<Candle>, request: Request)
    requires |candles| == 2 && request == DefaultRequest(None)
    ensures Window(candles, 1, request) == candles[..1]
  {}

  lemma InTheMiddle(c: Candle, history: seq<Candle>, request: Request)
    requires c == Candle(2.0, 2.5, 1.5, 2.0, 0.0, true) && history == [Candle(2.0, 3.0, 1.0, 2.0, 0.0, true)]
    requires request.direction == None && request.levelLookback >= 1
    ensures Undecided(Desired(c, request), LevelsAt(c, history, request))
  {
    hide AverageTrueRange, LevelsAt, LevelsOf, Undecided, Span, DirectionOf;
    LevelsAfterOneRow(c, history, request);
    MiddleDistances(c, AverageTrueRange(history, Span(c)));
  }

  lemma LevelsAfterOneRow(c: Candle, history: seq<Candle>, request: Request)
    requires |history| == 1 && Valid(history[0]) && request.levelLookback >= 1
    ensures LevelsAt(c, history, request)
         == LevelsOf(c, Some((history[0].low, history[0].high)), AverageTrueRange(history, Span(c)))
  {
    hide AverageTrueRange, PastLevels, LevelsOf, Span, Tail;
    TailOfOne(history, request.levelLookback);
    LevelsOfOneRow(history, c.close);
  }

  lemma TailOfOne(history: seq<Candle>, n: int)
    requires |history| == 1 && n >= 1
    ensures Tail(history, n) == history
  {}

  lemma MiddleDistances(c: Candle, atr: real)
    requires c == Candle(2.0, 2.5, 1.5, 2.0, 0.0, true)
    ensures DirectionOf(c) == Indecision && Undecided(Indecision, LevelsOf(c, Some((1.0, 3.0)), atr))
  {}

  /** Around a single row the levels are its low and its high. */
  lemma LevelsOfOneRow(history: seq<Candle>, close: real)
    requires |history| == 1 && Valid(history[0])
    ensures PastLevels(history, close) == Some((history[0].low, history[0].high))
  {
    assert history == [history[0]] && history[1..] == [];
    assert ValidRows(history) == history;
    NoPivotInOneRow(history);
    hide Valid, PivotLows, PivotHighs, ValidRows;
  }

  lemma NoPivotInOneRow(history: seq<Candle>)
    requires |history| == 1
    ensures PivotLows(history, 1) == [] && PivotHighs(history, 1) == []
  {
    assert !Surrounded(history, 0);
    assert PivotLows(history, 0) == [] && PivotHighs(history, 0) == [];
    hide Surrounded;
  }

  lemma LonelyFlatShape(c: Candle)
    requires c.open == c.high == c.low == c.close
    ensures var s := ShapeOf(c);
            s.bodyRatio == 0.0 && s.direction == Indecision && s.control == Sellers && s.rejection == NoRejection
  {}

  lemma NothingBefore(c: Candle, request: Request)
    requires c.volume == 0.0
    ensures LevelsAt(c, [], request) == NoLevels && RelativeVolume(c, Tail([], request.volumeLookback)) == None
  {}

  lemma LonelyFlatScore(c: Candle, request: Request)
    requires c.open == c.high == c.low == c.close && c.volume == 0.0 && request.direction.Some?
    ensures EvidenceOf(c, [], None, request).score == if request.direction == Some(Bearish) then 1 else 0
  {
    hide EvidenceOf, ShapeOf, LevelsAt, Tail, RelativeVolume, RangePosition, ScorePct, ConflictLabels, StateOf,
         ContextOf, AverageTrueRange, LevelDistanceAtr, ConflictsOf, PreviousClose;
    RecordFields(c, [], None, request);
    LonelyFlatShape(c);
    NothingBefore(c, request);
  }
}
