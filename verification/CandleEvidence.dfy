/**
 * Candlestick evidence (core/candle_evidence.py): what the record says about one
 * focus candle, given the candles before it and at most one candle after it.
 *
 * The functions say what every field means. CandleEngine has the loops of the program, proved to
 * compute exactly that.
 */
module CandleEvidence {
  import opened Wrappers
  import opened RealMath

  /** One row. The numbers are already finite (anything else was read as 0.0), and
      isFinal is the program's verdict on whether the candle has closed. */
  datatype Candle = Candle(open: real, high: real, low: real, close: real, volume: real, isFinal: bool)

  datatype Direction = Bullish | Bearish | Indecision
  datatype BodyClass = IndecisiveBody | ModerateBody(direction: Direction) | StrongBody(direction: Direction)
  datatype Pressure = Balanced | Buying | Selling | StrongBuying | StrongSelling
  datatype Control = Buyers | Sellers | Contested
  datatype Rejection = LowerPriceRejection | HigherPriceRejection | NoRejection
  datatype Side = Support | Resistance
  datatype Breakout = BullishBreakout | BearishBreakdown | NoBreakout
  datatype Context = Breaking(breakout: Breakout) | AtLevel(side: Side) | LowerRange | UpperRange | MidRange
  datatype Confirmation = Pending | Confirmed | Unconfirmed | Invalidated
  datatype FollowThrough = NotYet | Opposed | Strong | Present | Absent
  datatype Observation = ConfirmedState | InvalidatedState | Observed
  datatype Label =
    | BodyPressure | WickRejection | CloseControl | LocationContext | VolumeExpansion | NextCandleFollowThrough
    | OpposingBodyPressure | OpposingWickRejection | OpposingCloseControl | NextCandleInvalidated

  const TINY := 0.000000000001

  // ---- One candle on its own ----

  predicate Valid(c: Candle) {
    0.0 < c.low <= c.high && c.low <= c.open <= c.high && c.low <= c.close <= c.high
  }

  datatype Shape = Shape(
    direction: Direction, bodyRatio: real, bodyClass: BodyClass, pressure: Pressure,
    upperWick: real, lowerWick: real, closeLocation: real, control: Control,
    rejection: Rejection, rejectionStrength: real)

  function Span(c: Candle): (span: real)
    ensures span >= TINY && span >= c.high - c.low
  {
    Max(c.high - c.low, TINY)
  }

  function DirectionOf(c: Candle): Direction {
    if c.close > c.open then Bullish else if c.close < c.open then Bearish else Indecision
  }

  function BodyClassOf(ratio: real, direction: Direction): BodyClass {
    if ratio <= 0.15 then IndecisiveBody
    else if ratio >= 0.65 then StrongBody(direction)
    else ModerateBody(direction)
  }

  function PressureOf(ratio: real, direction: Direction): Pressure {
    if ratio <= 0.15 then Balanced
    else if ratio >= 0.65 then (if direction == Bullish then StrongBuying else StrongSelling)
    else if direction == Bullish then Buying else Selling
  }

  function ControlOf(location: real): Control {
    if location >= 0.7 then Buyers else if location <= 0.3 then Sellers else Contested
  }

  function RejectionOf(upper: real, lower: real): Rejection {
    if lower >= 0.45 && lower >= upper * 1.5 then LowerPriceRejection
    else if upper >= 0.45 && upper >= lower * 1.5 then HigherPriceRejection
    else NoRejection
  }

  function RejectionStrength(upper: real, lower: real): real {
    match RejectionOf(upper, lower)
    case LowerPriceRejection => lower
    case HigherPriceRejection => upper
    case NoRejection => Max(upper, lower)
  }

  function ShapeOf(c: Candle): Shape {
    var span := Span(c);
    var body := Abs(c.close - c.open) / span;
    var upper := (c.high - Max(c.open, c.close)) / span;
    var lower := (Min(c.open, c.close) - c.low) / span;
    var location := (c.close - c.low) / span;
    Shape(DirectionOf(c), body, BodyClassOf(body, DirectionOf(c)), PressureOf(body, DirectionOf(c)),
          upper, lower, location, ControlOf(location), RejectionOf(upper, lower), RejectionStrength(upper, lower))
  }

  // ---- The candles before it ----

  /** The slice s[-n:] of Python: all of s for n == 0, and s without its first |n| for n < 0. */
  function Tail<T>(s: seq<T>, n: int): (t: seq<T>)
    ensures |t| <= |s| && t == s[|s| - |t|..]
  {
    if n == 0 || n >= |s| then s
    else if n > 0 then s[|s| - n..]
    else if -n >= |s| then []
    else s[-n..]
  }

  function ValidRows(rows: seq<Candle>): seq<Candle> {
    if rows == [] then []
    else if Valid(rows[0]) then [rows[0]] + ValidRows(rows[1..])
    else ValidRows(rows[1..])
  }

  function Highs(rows: seq<Candle>): (s: seq<real>)
    ensures |s| == |rows| && forall i :: 0 <= i < |s| ==> s[i] == rows[i].high
  {
    seq(|rows|, i requires 0 <= i < |rows| => rows[i].high)
  }

  function Lows(rows: seq<Candle>): (s: seq<real>)
    ensures |s| == |rows| && forall i :: 0 <= i < |s| ==> s[i] == rows[i].low
  {
    seq(|rows|, i requires 0 <= i < |rows| => rows[i].low)
  }

  function TrueRange(c: Candle, previousClose: Option<real>): real {
    if previousClose.None? then c.high - c.low
    else Max(Max(c.high - c.low, Abs(c.high - previousClose.value)), Abs(c.low - previousClose.value))
  }

  /** True ranges of the valid rows; an invalid row is passed over as if it were absent. */
  function TrueRanges(rows: seq<Candle>): seq<real>
  {
    if rows == [] then []
    else
      var last := rows[|rows| - 1];
      var before := rows[..|rows| - 1];
      if Valid(last) then TrueRanges(before) + [TrueRange(last, LastClose(before))] else TrueRanges(before)
  }

  /** Close of the last valid row. */
  function LastClose(rows: seq<Candle>): Option<real> {
    if rows == [] then None
    else if Valid(rows[|rows| - 1]) then Some(rows[|rows| - 1].close)
    else LastClose(rows[..|rows| - 1])
  }

  function AverageTrueRange(history: seq<Candle>, span: real): real {
    var ranges := TrueRanges(Tail(history, 14));
    if ranges == [] then span else Sum(ranges) / |ranges| as real
  }

  /** Row i and its two neighbours on either side exist and are valid. */
  predicate Surrounded(rows: seq<Candle>, i: int) {
    2 <= i < |rows| - 2 && forall j :: i - 2 <= j <= i + 2 ==> Valid(rows[j])
  }

  predicate IsPivotHigh(rows: seq<Candle>, i: int) {
    Surrounded(rows, i) && forall j :: i - 2 <= j <= i + 2 ==> rows[j].high <= rows[i].high
  }

  predicate IsPivotLow(rows: seq<Candle>, i: int) {
    Surrounded(rows, i) && forall j :: i - 2 <= j <= i + 2 ==> rows[i].low <= rows[j].low
  }

  /** Highs of the pivots among the first n rows, oldest first. */
  function PivotHighs(rows: seq<Candle>, n: nat): seq<real>
    requires n <= |rows|
  {
    if n == 0 then []
    else if IsPivotHigh(rows, n - 1) then PivotHighs(rows, n - 1) + [rows[n - 1].high]
    else PivotHighs(rows, n - 1)
  }

  function PivotLows(rows: seq<Candle>, n: nat): seq<real>
    requires n <= |rows|
  {
    if n == 0 then []
    else if IsPivotLow(rows, n - 1) then PivotLows(rows, n - 1) + [rows[n - 1].low]
    else PivotLows(rows, n - 1)
  }

  function AtMost(levels: seq<real>, bound: real): seq<real> {
    if levels == [] then []
    else if levels[0] <= bound then [levels[0]] + AtMost(levels[1..], bound)
    else AtMost(levels[1..], bound)
  }

  function AtLeast(levels: seq<real>, bound: real): seq<real> {
    if levels == [] then []
    else if levels[0] >= bound then [levels[0]] + AtLeast(levels[1..], bound)
    else AtLeast(levels[1..], bound)
  }

  function SupportLevel(rows: seq<Candle>, close: real): real
    requires ValidRows(rows) != []
  {
    var candidates := AtMost(PivotLows(rows, |rows|), close);
    if candidates == [] then MinOf(Lows(ValidRows(rows))) else MaxOf(candidates)
  }

  function ResistanceLevel(rows: seq<Candle>, close: real): real
    requires ValidRows(rows) != []
  {
    var candidates := AtLeast(PivotHighs(rows, |rows|), close);
    if candidates == [] then MaxOf(Highs(ValidRows(rows))) else MinOf(candidates)
  }

  /** Nearest support and resistance, or None when no past row is valid. */
  function PastLevels(rows: seq<Candle>, close: real): Option<(real, real)> {
    if ValidRows(rows) == [] then None
    else Some((SupportLevel(rows, close), ResistanceLevel(rows, close)))
  }

  /** How the focus candle stands to the two levels. */
  datatype Levels = NoLevels | Levels(
    support: real, resistance: real, supportDistance: real, resistanceDistance: real,
    supportTouched: bool, resistanceTouched: bool)

  function LevelsOf(c: Candle, levels: Option<(real, real)>, atr: real): Levels {
    if levels.None? then NoLevels
    else
      var (support, resistance) := levels.value;
      var supportDistance := Min(Abs(c.low - support), Abs(c.close - support));
      var resistanceDistance := Min(Abs(c.high - resistance), Abs(c.close - resistance));
      Levels(support, resistance, supportDistance, resistanceDistance,
             c.low <= support <= Max(c.open, c.close) || supportDistance <= atr * 0.5,
             Min(c.open, c.close) <= resistance <= c.high || resistanceDistance <= atr * 0.5)
  }

  /** The level the evidence is about; a tie goes to the support. */
  function NearestSide(desired: Direction, levels: Levels): Option<Side> {
    if levels.NoLevels? then None
    else if desired == Bullish then Some(Support)
    else if desired == Bearish then Some(Resistance)
    else if levels.supportDistance <= levels.resistanceDistance then Some(Support)
    else Some(Resistance)
  }

  function AtKeyLevel(desired: Direction, levels: Levels): bool {
    match NearestSide(desired, levels)
    case None => false
    case Some(Support) => levels.supportTouched
    case Some(Resistance) => levels.resistanceTouched
  }

  function LevelDistanceAtr(desired: Direction, levels: Levels, atr: real): Option<real> {
    match NearestSide(desired, levels)
    case None => None
    case Some(Support) => Some(levels.supportDistance / Max(atr, TINY))
    case Some(Resistance) => Some(levels.resistanceDistance / Max(atr, TINY))
  }

  function RangePosition(c: Candle, rows: seq<Candle>): Option<real> {
    var valid := ValidRows(rows);
    var low := if valid == [] then c.low else MinOf(Lows(valid));
    var high := if valid == [] then c.high else MaxOf(Highs(valid));
    if high - low > 0.0 then Some(Clamp((c.close - low) / (high - low), 0.0, 1.0)) else None
  }

  /** The close just before the focus; the row it comes from need not be valid. */
  function PreviousClose(c: Candle, history: seq<Candle>): real {
    if history == [] then c.close else history[|history| - 1].close
  }

  function BreakoutOf(close: real, previousClose: real, levels: Levels): Breakout {
    if levels.NoLevels? then NoBreakout
    else if close > levels.resistance && previousClose <= levels.resistance then BullishBreakout
    else if close < levels.support && previousClose >= levels.support then BearishBreakdown
    else NoBreakout
  }

  function ContextOf(breakout: Breakout, atLevel: bool, side: Option<Side>, position: Option<real>): Context
    requires atLevel ==> side.Some?
  {
    if breakout != NoBreakout then Breaking(breakout)
    else if atLevel then AtLevel(side.value)
    else if position.Some? && position.value <= 0.25 then LowerRange
    else if position.Some? && position.value >= 0.75 then UpperRange
    else MidRange
  }

  // ---- Volume ----

  function Positive(s: seq<real>): seq<real> {
    if s == [] then [] else if s[0] > 0.0 then [s[0]] + Positive(s[1..]) else Positive(s[1..])
  }

  function Volumes(rows: seq<Candle>): (s: seq<real>)
    ensures |s| == |rows| && forall i :: 0 <= i < |s| ==> s[i] == rows[i].volume
  {
    seq(|rows|, i requires 0 <= i < |rows| => rows[i].volume)
  }

  predicate Ascending(s: seq<real>) { forall i {:trigger s[i]} :: 0 < i < |s| ==> s[i - 1] <= s[i] }

  function Insert(x: real, s: seq<real>): (t: seq<real>)
    ensures |t| == |s| + 1
  {
    if s == [] then [x] else if x <= s[0] then [x] + s else [s[0]] + Insert(x, s[1..])
  }

  function Sorted(s: seq<real>): (t: seq<real>)
    ensures |t| == |s|
  {
    if s == [] then [] else Insert(s[0], Sorted(s[1..]))
  }

  lemma {:induction false} InsertAddsOne(x: real, s: seq<real>)
    ensures multiset(Insert(x, s)) == multiset(s) + multiset{x}
  {
    if s != [] && x > s[0] {
      InsertAddsOne(x, s[1..]);
      assert s == [s[0]] + s[1..];
    }
  }

  lemma {:induction false} InsertKeepsOrder(x: real, s: seq<real>)
    requires Ascending(s)
    ensures Ascending(Insert(x, s))
    ensures Insert(x, s)[0] == if s == [] || x <= s[0] then x else s[0]
  {
    if s != [] && x > s[0] {
      var rest := s[1..];
      assert Ascending(rest) by {
        forall i | 0 < i < |rest| ensures rest[i - 1] <= rest[i] { assert s[i] <= s[i + 1]; }
      }
      InsertKeepsOrder(x, rest);
      assert rest != [] ==> s[1] >= s[0];
    }
  }

  /** Sorted is what statistics.median sorts to: the same values in ascending order. */
  lemma {:induction false} SortedIsAscendingPermutation(s: seq<real>)
    ensures Ascending(Sorted(s)) && multiset(Sorted(s)) == multiset(s)
  {
    if s != [] {
      assert s == [s[0]] + s[1..];
      SortedIsAscendingPermutation(s[1..]);
      InsertKeepsOrder(s[0], Sorted(s[1..]));
      InsertAddsOne(s[0], Sorted(s[1..]));
    }
  }

  function Median(s: seq<real>): real
    requires s != []
  {
    var t := Sorted(s);
    if |t| % 2 == 1 then t[|t| / 2] else (t[|t| / 2 - 1] + t[|t| / 2]) / 2.0
  }

  function RelativeVolume(c: Candle, rows: seq<Candle>): Option<real> {
    var prior := Positive(Volumes(rows));
    if prior == [] then None
    else
      var baseline := Median(prior);
      if c.volume > 0.0 && baseline > 0.0 then Some(c.volume / baseline) else None
  }

  // ---- The candle after it ----

  /** Verdict of the candle that follows, seen by someone who wanted `desired`. */
  function FollowUp(desired: Direction, c: Candle, following: Option<Candle>): (Confirmation, FollowThrough) {
    if following.None? || !Valid(following.value) then (Pending, NotYet)
    else
      var f := following.value;
      match desired
      case Bullish =>
        if f.close < c.low then (Invalidated, Opposed)
        else if f.close > c.high then (Confirmed, Strong)
        else if f.close > c.close && f.close > f.open then (Confirmed, Present)
        else (Unconfirmed, Absent)
      case Bearish =>
        if f.close > c.high then (Invalidated, Opposed)
        else if f.close < c.low then (Confirmed, Strong)
        else if f.close < c.close && f.close < f.open then (Confirmed, Present)
        else (Unconfirmed, Absent)
      case Indecision => (Unconfirmed, Absent)
  }

  // ---- The evidence ----

  /** The six questions asked of a candle. The last two are asked only when they can be answered. */
  datatype Checks = Checks(
    body: bool, wick: bool, control: bool, location: bool, volume: Option<bool>, followThrough: Option<bool>)

  datatype Conflicts = Conflicts(body: bool, wick: bool, control: bool, invalidated: bool)

  predicate SideOf(desired: Direction, bullish: bool, bearish: bool) {
    (desired == Bullish && bullish) || (desired == Bearish && bearish)
  }

  function ChecksOf(desired: Direction, shape: Shape, atLevel: bool, breakout: Breakout,
                    relativeVolume: Option<real>, confirmation: Confirmation): Checks
  {
    var wick := SideOf(desired, shape.rejection == LowerPriceRejection, shape.rejection == HigherPriceRejection);
    Checks(
      shape.bodyRatio >= 0.25 && shape.direction == desired,
      wick,
      SideOf(desired, shape.control == Buyers, shape.control == Sellers),
      (wick && atLevel) || SideOf(desired, breakout == BullishBreakout, breakout == BearishBreakdown),
      if relativeVolume.None? then None else Some(relativeVolume.value >= 1.2),
      if confirmation == Pending then None else Some(confirmation == Confirmed))
  }

  function ConflictsOf(desired: Direction, shape: Shape, confirmation: Confirmation): Conflicts {
    Conflicts(
      shape.bodyRatio >= 0.45 && shape.direction != desired && shape.direction != Indecision,
      SideOf(desired, shape.rejection == HigherPriceRejection, shape.rejection == LowerPriceRejection),
      SideOf(desired, shape.control == Sellers, shape.control == Buyers),
      confirmation == Invalidated)
  }

  function Noted(labels: seq<Label>, b: bool, tag: Label): seq<Label> { if b then labels + [tag] else labels }

  /** Labels of the four questions that are always asked. */
  function BaseLabels(k: Checks): seq<Label> {
    Noted(Noted(Noted(Noted([], k.body, BodyPressure), k.wick, WickRejection), k.control, CloseControl),
          k.location, LocationContext)
  }

  function AlignedLabels(k: Checks): seq<Label> {
    Noted(Noted(BaseLabels(k), k.volume == Some(true), VolumeExpansion),
          k.followThrough == Some(true), NextCandleFollowThrough)
  }

  function ConflictLabels(k: Conflicts): seq<Label> {
    Noted(Noted(Noted(Noted([], k.body, OpposingBodyPressure), k.wick, OpposingWickRejection),
                k.control, OpposingCloseControl), k.invalidated, NextCandleInvalidated)
  }

  function Asked(k: Checks): nat {
    4 + (if k.volume.Some? then 1 else 0) + (if k.followThrough.Some? then 1 else 0)
  }

  function ScorePct(k: Checks, conflicts: Conflicts): real {
    Clamp(100.0 * |AlignedLabels(k)| as real / Asked(k) as real - 15.0 * |ConflictLabels(conflicts)| as real, 0.0, 100.0)
  }

  function StateOf(confirmation: Confirmation, scorePct: real): Observation {
    if confirmation == Invalidated then InvalidatedState
    else if confirmation == Confirmed && scorePct >= 60.0 then ConfirmedState
    else Observed
  }

  datatype Evidence = Evidence(
    shape: Shape, desired: Direction,
    relativeVolume: Option<real>, volumeConfirmation: Option<bool>,
    support: Option<real>, resistance: Option<real>,
    nearest: Option<Side>, levelDistanceAtr: Option<real>, atKeyLevel: bool,
    rangePosition: Option<real>, context: Context, breakout: Breakout,
    confirmation: Confirmation, followThrough: FollowThrough,
    aligned: seq<Label>, conflicting: seq<Label>,
    score: nat, scorePct: real, state: Observation)

  /** What a caller passes besides the candles; direction is None when the text was empty. */
  datatype Request = Request(direction: Option<Direction>, levelLookback: int, volumeLookback: int)

  function Desired(c: Candle, request: Request): Direction {
    if request.direction.Some? then request.direction.value else DirectionOf(c)
  }

  function LevelsAt(c: Candle, history: seq<Candle>, request: Request): Levels {
    LevelsOf(c, PastLevels(Tail(history, request.levelLookback), c.close), AverageTrueRange(history, Span(c)))
  }

  /** The record of a focus candle from its history and the candle observed after it. */
  function EvidenceOf(c: Candle, history: seq<Candle>, following: Option<Candle>, request: Request): Evidence {
    var shape := ShapeOf(c);
    var desired := Desired(c, request);
    var atr := AverageTrueRange(history, Span(c));
    var levels := LevelsAt(c, history, request);
    var atLevel := AtKeyLevel(desired, levels);
    var position := RangePosition(c, Tail(history, request.levelLookback));
    var breakout := BreakoutOf(c.close, PreviousClose(c, history), levels);
    var volume := RelativeVolume(c, Tail(history, request.volumeLookback));
    var (confirmation, followThrough) := FollowUp(desired, c, following);
    var checks := ChecksOf(desired, shape, atLevel, breakout, volume, confirmation);
    var conflicts := ConflictsOf(desired, shape, confirmation);
    Evidence(
      shape, desired, volume, checks.volume,
      if levels.NoLevels? then None else Some(levels.support),
      if levels.NoLevels? then None else Some(levels.resistance),
      NearestSide(desired, levels), LevelDistanceAtr(desired, levels, atr), atLevel,
      position, ContextOf(breakout, atLevel, NearestSide(desired, levels), position), breakout,
      confirmation, followThrough,
      AlignedLabels(checks), ConflictLabels(conflicts),
      |AlignedLabels(checks)|, ScorePct(checks, conflicts), StateOf(confirmation, ScorePct(checks, conflicts)))
  }

  /** The fields of a record one by one, each from the part of the input it depends on. */
  lemma RecordFields(c: Candle, history: seq<Candle>, following: Option<Candle>, request: Request)
    ensures var e := EvidenceOf(c, history, following, request);
            var desired, levels := Desired(c, request), LevelsAt(c, history, request);
            && e.shape == ShapeOf(c)
            && e.desired == desired
            && e.relativeVolume == RelativeVolume(c, Tail(history, request.volumeLookback))
            && e.volumeConfirmation == (if e.relativeVolume.None? then None else Some(e.relativeVolume.value >= 1.2))
            && e.support == (if levels.NoLevels? then None else Some(levels.support))
            && e.resistance == (if levels.NoLevels? then None else Some(levels.resistance))
            && e.nearest == NearestSide(desired, levels)
            && e.atKeyLevel == AtKeyLevel(desired, levels)
            && e.levelDistanceAtr == LevelDistanceAtr(desired, levels, AverageTrueRange(history, Span(c)))
            && e.rangePosition == RangePosition(c, Tail(history, request.levelLookback))
            && e.breakout == BreakoutOf(c.close, PreviousClose(c, history), levels)
            && (e.atKeyLevel ==> e.nearest.Some?)
            && e.context == ContextOf(e.breakout, e.atKeyLevel, e.nearest, e.rangePosition)
            && (e.confirmation, e.followThrough) == FollowUp(desired, c, following)
            && (var checks := ChecksOf(desired, e.shape, e.atKeyLevel, e.breakout, e.relativeVolume, e.confirmation);
                var conflicts := ConflictsOf(desired, e.shape, e.confirmation);
                && e.aligned == AlignedLabels(checks) && e.conflicting == ConflictLabels(conflicts)
                && e.score == |e.aligned| && e.scorePct == ScorePct(checks, conflicts)
                && e.state == StateOf(e.confirmation, e.scorePct))
  {
    hide ValidRows, Tail, LevelsAt, RangePosition, RelativeVolume, BreakoutOf, FollowUp, ShapeOf,
         AverageTrueRange, LevelDistanceAtr, AlignedLabels, ConflictLabels, ScorePct, StateOf, ContextOf;
  }

  // ---- A focus inside a sequence of candles ----

  datatype Refusal = NoCandles | FocusOutOfRange | InvalidFocusCandle

  function Lookback(request: Request): nat {
    MaxInt(MaxInt(request.levelLookback, request.volumeLookback), 14)
  }

  /** The candles before position i that are looked at. */
  function Window(candles: seq<Candle>, i: nat, request: Request): seq<Candle>
    requires i < |candles|
  {
    candles[MaxInt(0, i - Lookback(request))..i]
  }

  /** The candle after position i, when it may be used: it is final, or another one already follows it. */
  function Following(candles: seq<Candle>, i: nat): Option<Candle> {
    if i + 1 < |candles| && (i + 1 < |candles| - 1 || candles[i + 1].isFinal) then Some(candles[i + 1]) else None
  }

  function Position(candles: seq<Candle>, focus: int): int {
    if focus >= 0 then focus else |candles| + focus
  }

  function Assess(candles: seq<Candle>, focus: int, request: Request): Result<Evidence, Refusal> {
    var i := Position(candles, focus);
    if candles == [] then Failure(NoCandles)
    else if i < 0 || i >= |candles| then Failure(FocusOutOfRange)
    else if !Valid(candles[i]) then Failure(InvalidFocusCandle)
    else Success(EvidenceOf(candles[i], Window(candles, i, request), Following(candles, i), request))
  }

  // ---- The current and the previous candle together ----

  datatype Alignment = Conflicting | Supportive | Mixed
  datatype Selection = PreviousConfirmed | LatestObservation
  datatype Intelligence = Intelligence(
    selected: Evidence, alignment: Alignment, selection: Selection,
    latest: Evidence, previous: Option<Evidence>, confirmationRequired: bool)

  function LatestIndex(candles: seq<Candle>): int {
    if |candles| > 1 && !candles[|candles| - 1].isFinal then |candles| - 2 else |candles| - 1
  }

  function AlignmentOf(e: Evidence): Alignment {
    if e.state == InvalidatedState || e.scorePct < 30.0 then Conflicting
    else if e.scorePct >= 60.0 && e.conflicting == [] then Supportive
    else Mixed
  }

  function Combine(latest: Evidence, previous: Option<Evidence>): Intelligence {
    var usePrevious := previous.Some? && previous.value.state == ConfirmedState;
    var selected := if usePrevious then previous.value else latest;
    Intelligence(selected, AlignmentOf(selected), if usePrevious then PreviousConfirmed else LatestObservation,
                 latest, previous, selected.confirmation != Confirmed)
  }

  function DefaultRequest(direction: Option<Direction>): Request { Request(direction, 40, 20) }

  function BuildIntelligence(candles: seq<Candle>, direction: Option<Direction>): Result<Intelligence, Refusal> {
    var i := LatestIndex(candles);
    match Assess(candles, i, DefaultRequest(direction))
    case Failure(e) => Failure(e)
    case Success(latest) =>
      if i < 1 then Success(Combine(latest, None))
      else
        match Assess(candles, i - 1, DefaultRequest(direction))
        case Failure(e) => Failure(e)
        case Success(previous) => Success(Combine(latest, Some(previous)))
  }
}
