/** The execution lifecycle (core/execution_state_machine.py): one transition graph, one row. */
module ExecutionLifecycle {
  import opened Wrappers

  datatype State =
    | Reserved | Submitting | Ambiguous | Confirmed | PartiallyFilled | Filled | Open | ReconciliationPending
    | Closed | Cancelled | Rejected | Failed | Blocked

  datatype PositionState =
    | PendingEntry | OpenPosition | Reconciling | ClosedPosition | CancelledPosition | FailedPosition

  function Name(s: State): string {
    match s
    case Reserved => "reserved"
    case Submitting => "submitting"
    case Ambiguous => "ambiguous"
    case Confirmed => "confirmed"
    case PartiallyFilled => "partially_filled"
    case Filled => "filled"
    case Open => "open"
    case ReconciliationPending => "reconciliation_pending"
    case Closed => "closed"
    case Cancelled => "cancelled"
    case Rejected => "rejected"
    case Failed => "failed"
    case Blocked => "blocked"
  }

  /** A state name, or one of the words providers use; the text is already lower case and stripped. */
  function Normalize(raw: string): Option<State> {
    if raw == "pending" || raw == "reserved" then Some(Reserved)
    else if raw == "submitting" then Some(Submitting)
    else if raw == "ambiguous" then Some(Ambiguous)
    else if raw == "new" || raw == "submitted" || raw == "success" || raw == "confirmed" then Some(Confirmed)
    else if raw == "partiallyfilled" || raw == "partially_filled" then Some(PartiallyFilled)
    else if raw == "filled" then Some(Filled)
    else if raw == "open" then Some(Open)
    else if raw == "reconciliation_pending" then Some(ReconciliationPending)
    else if raw == "closed" then Some(Closed)
    else if raw == "deactivated" || raw == "canceled" || raw == "cancelled" then Some(Cancelled)
    else if raw == "rejected" then Some(Rejected)
    else if raw == "failed" then Some(Failed)
    else if raw == "blocked" then Some(Blocked)
    else None
  }

  predicate Terminal(s: State) { s in {Closed, Cancelled, Rejected, Failed, Blocked} }

  function Transitions(s: State): set<State> {
    match s
    case Reserved => {Submitting, Confirmed, Open, Blocked, Cancelled, Rejected, Failed}
    case Submitting => {Ambiguous, Confirmed, Open, ReconciliationPending, Cancelled, Rejected, Failed}
    case Ambiguous => {Confirmed, PartiallyFilled, Filled, Open, ReconciliationPending, Cancelled, Rejected, Failed}
    case Confirmed => {PartiallyFilled, Filled, Open, ReconciliationPending, Cancelled, Rejected, Failed}
    case PartiallyFilled => {Filled, Open, ReconciliationPending, Closed, Cancelled, Failed}
    case Filled => {Open, ReconciliationPending, Closed, Failed}
    case Open => {ReconciliationPending, Closed, Failed}
    case ReconciliationPending => {Confirmed, PartiallyFilled, Filled, Open, Closed, Cancelled, Rejected, Failed}
    case _ => {}
  }

  function PositionOf(s: State): PositionState {
    match s
    case Reserved => PendingEntry
    case Submitting => PendingEntry
    case Confirmed => PendingEntry
    case Ambiguous => Reconciling
    case ReconciliationPending => Reconciling
    case PartiallyFilled => OpenPosition
    case Filled => OpenPosition
    case Open => OpenPosition
    case Closed => ClosedPosition
    case Cancelled => CancelledPosition
    case Rejected => FailedPosition
    case Failed => FailedPosition
    case Blocked => FailedPosition
  }

  datatype Transition = Transition(current: State, target: State, idempotent: bool, position: PositionState)
  datatype Refusal = UnknownState(raw: string) | InvalidTransition(from: State, to: State)

  predicate Accepts(s: State, t: State) { s == t || t in Transitions(s) }

  function Evaluate(current: string, target: string): Result<Transition, Refusal> {
    match Normalize(current)
    case None => Failure(UnknownState(current))
    case Some(source) =>
      match Normalize(target)
      case None => Failure(UnknownState(target))
      case Some(destination) =>
        if !Accepts(source, destination) then Failure(InvalidTransition(source, destination))
        else Success(Transition(source, destination, source == destination, PositionOf(destination)))
  }

  lemma NamesNormalize(s: State)
    ensures Normalize(Name(s)) == Some(s)
  {}

  // ---- The graph and the words, looked at from the other side ----

  /** Where a state can be entered from. */
  function Sources(t: State): set<State> {
    match t
    case Reserved => {}
    case Submitting => {Reserved}
    case Ambiguous => {Submitting}
    case Confirmed => {Reserved, Submitting, Ambiguous, ReconciliationPending}
    case PartiallyFilled => {Ambiguous, Confirmed, ReconciliationPending}
    case Filled => {Ambiguous, Confirmed, PartiallyFilled, ReconciliationPending}
    case Open => {Reserved, Submitting, Ambiguous, Confirmed, PartiallyFilled, Filled, ReconciliationPending}
    case ReconciliationPending => {Submitting, Ambiguous, Confirmed, PartiallyFilled, Filled, Open}
    case Closed => {PartiallyFilled, Filled, Open, ReconciliationPending}
    case Cancelled => {Reserved, Submitting, Ambiguous, Confirmed, PartiallyFilled, ReconciliationPending}
    case Rejected => {Reserved, Submitting, Ambiguous, Confirmed, ReconciliationPending}
    case Failed => {Reserved, Submitting, Ambiguous, Confirmed, PartiallyFilled, Filled, Open, ReconciliationPending}
    case Blocked => {Reserved}
  }

  /** The edges listed by target are the edges listed by source. */
  lemma EdgesFromBothSides(s: State, t: State)
    ensures t in Transitions(s) <==> s in Sources(t)
  {}

  /** The terminal states are exactly those without an edge: every other state can fail. */
  lemma TerminalHasNoEdge(s: State)
    ensures Terminal(s) <==> Transitions(s) == {}
    ensures !Terminal(s) ==> Failed in Transitions(s)
  {}

  /** The texts that stand for a state: its own name and the words providers use for it. */
  predicate Reads(raw: string, s: State) {
    match s
    case Reserved => raw in {"reserved", "pending"}
    case Submitting => raw == "submitting"
    case Ambiguous => raw == "ambiguous"
    case Confirmed => raw in {"confirmed", "new", "submitted", "success"}
    case PartiallyFilled => raw in {"partially_filled", "partiallyfilled"}
    case Filled => raw == "filled"
    case Open => raw == "open"
    case ReconciliationPending => raw == "reconciliation_pending"
    case Closed => raw == "closed"
    case Cancelled => raw in {"cancelled", "canceled", "deactivated"}
    case Rejected => raw == "rejected"
    case Failed => raw == "failed"
    case Blocked => raw == "blocked"
  }

  lemma NormalizedExactly(raw: string, s: State)
    ensures Normalize(raw) == Some(s) <==> Reads(raw, s)
  {
    hide Normalize, Reads;
    if Reads(raw, s) { ReadAsItsState(raw, s); }
    if Normalize(raw) == Some(s) { OnlyItsTexts(raw); }
  }

  lemma ReadAsItsState(raw: string, s: State)
    requires Reads(raw, s)
    ensures Normalize(raw) == Some(s)
  {}

  lemma OnlyItsTexts(raw: string)
    requires Normalize(raw).Some?
    ensures Reads(raw, Normalize(raw).value)
  {}

  lemma UnknownExactly(raw: string)
    ensures Normalize(raw) == None <==> forall s: State :: !Reads(raw, s)
  {
    hide Reads;
    if Normalize(raw).Some? { NormalizedExactly(raw, Normalize(raw).value); }
    forall s: State { NormalizedExactly(raw, s); }
  }

  /** Every outcome of a transition between two texts, with the position that goes with the new state. */
  lemma EvaluatedExactly(current: string, target: string, s: State, t: State)
    ensures (forall x: State :: !Reads(current, x)) ==> Evaluate(current, target) == Failure(UnknownState(current))
    ensures Reads(current, s) && (forall x: State :: !Reads(target, x)) ==> Evaluate(current, target) == Failure(UnknownState(target))
    ensures Reads(current, s) && Reads(target, t) ==>
              if s == t || s in Sources(t) then
                && Evaluate(current, target).Success?
                && (var d := Evaluate(current, target).value;
                    && d.current == s && d.target == t && (d.idempotent <==> s == t)
                    && (d.position == PendingEntry <==> t == Reserved || t == Submitting || t == Confirmed)
                    && (d.position == Reconciling <==> t == Ambiguous || t == ReconciliationPending)
                    && (d.position == OpenPosition <==> t == PartiallyFilled || t == Filled || t == Open)
                    && (d.position == ClosedPosition <==> t == Closed) && (d.position == CancelledPosition <==> t == Cancelled)
                    && (d.position == FailedPosition <==> t == Rejected || t == Failed || t == Blocked))
              else Evaluate(current, target) == Failure(InvalidTransition(s, t))
  {
    hide Normalize, Reads, Transitions, Sources;
    UnknownExactly(current);
    UnknownExactly(target);
    NormalizedExactly(current, s);
    NormalizedExactly(target, t);
    EdgesFromBothSides(s, t);
  }

  // ---- Accepted runs ----

  /** Consecutive states of a row whose transitions were all accepted. */
  predicate IsRun(run: seq<State>) {
    run != [] && forall i {:trigger run[i]} :: 0 < i < |run| ==> Accepts(run[i - 1], run[i])
  }

  /** Transitions that changed the state. */
  function Moves(run: seq<State>): nat {
    if |run| < 2 then 0
    else Moves(run[..|run| - 1]) + (if run[|run| - 2] != run[|run| - 1] then 1 else 0)
  }

  /** Entries into ReconciliationPending from another state. */
  function Reconciliations(run: seq<State>): nat {
    if |run| < 2 then 0
    else
      Reconciliations(run[..|run| - 1])
      + (if run[|run| - 2] != run[|run| - 1] && run[|run| - 1] == ReconciliationPending then 1 else 0)
  }

  /** The most moves that can follow without another entry into reconciliation. */
  function Rank(s: State): nat {
    match s
    case Reserved => 7
    case Submitting => 6
    case Ambiguous => 5
    case ReconciliationPending => 5
    case Confirmed => 4
    case PartiallyFilled => 3
    case Filled => 2
    case Open => 1
    case _ => 0
  }

  lemma EveryMoveCosts(s: State, t: State)
    requires t in Transitions(s)
    ensures s != t && Rank(t) + 1 <= Rank(s) + (if t == ReconciliationPending then 5 else 0)
  {}

  lemma RunPrefix(run: seq<State>)
    requires IsRun(run) && |run| > 1
    ensures IsRun(run[..|run| - 1]) && Accepts(run[|run| - 2], run[|run| - 1])
  {}

  lemma {:induction false} MovesAreBudgeted(run: seq<State>)
    requires IsRun(run)
    ensures Moves(run) + Rank(run[|run| - 1]) <= Rank(run[0]) + 5 * Reconciliations(run)
  {
    if |run| > 1 {
      RunPrefix(run);
      var before := run[..|run| - 1];
      MovesAreBudgeted(before);
      var s, t := run[|run| - 2], run[|run| - 1];
      assert before[|before| - 1] == s && before[0] == run[0];
      if s != t { EveryMoveCosts(s, t); }
    }
  }

  /** A run from Reserved with r entries into reconciliation makes at most 7 + 5r moves. */
  lemma BoundedLifecycle(run: seq<State>)
    requires IsRun(run) && run[0] == Reserved
    ensures Moves(run) <= 7 + 5 * Reconciliations(run)
  {
    MovesAreBudgeted(run);
  }

  /** The longest run with r entries into reconciliation. */
  function LongestRun(r: nat): (run: seq<State>)
    ensures |run| >= 7 && run[0] == Reserved && run[|run| - 1] == Open
  {
    if r == 0 then [Reserved, Submitting, Ambiguous, Confirmed, PartiallyFilled, Filled, Open]
    else LongestRun(r - 1) + [ReconciliationPending, Confirmed, PartiallyFilled, Filled, Open]
  }

  lemma RunAppend(run: seq<State>, t: State)
    requires IsRun(run) && t in Transitions(run[|run| - 1])
    ensures IsRun(run + [t])
    ensures Moves(run + [t]) == Moves(run) + 1
    ensures Reconciliations(run + [t]) == Reconciliations(run) + (if t == ReconciliationPending then 1 else 0)
  {
    hide Transitions, Rank;
    EveryMoveCosts(run[|run| - 1], t);
    assert (run + [t])[..|run|] == run;
  }

  lemma RunAppendFive(run: seq<State>)
    requires IsRun(run) && run[|run| - 1] == Open
    ensures var longer := run + [ReconciliationPending, Confirmed, PartiallyFilled, Filled, Open];
            IsRun(longer) && Moves(longer) == Moves(run) + 5 && Reconciliations(longer) == Reconciliations(run) + 1
  {
    hide IsRun, Moves, Reconciliations;
    RunAppend(run, ReconciliationPending);
    var a := run + [ReconciliationPending];
    RunAppend(a, Confirmed);
    var b := a + [Confirmed];
    RunAppend(b, PartiallyFilled);
    var c := b + [PartiallyFilled];
    RunAppend(c, Filled);
    var d := c + [Filled];
    RunAppend(d, Open);
    assert d + [Open] == run + [ReconciliationPending, Confirmed, PartiallyFilled, Filled, Open];
  }

  lemma FirstSix()
    ensures IsRun(LongestRun(0)) && Moves(LongestRun(0)) == 6 && Reconciliations(LongestRun(0)) == 0
  {
    hide IsRun, Moves, Reconciliations;
    var a := [Reserved];
    assert IsRun(a) && Moves(a) == 0 && Reconciliations(a) == 0 by { JustReserved(); }
    RunAppend(a, Submitting);
    RunAppend(a + [Submitting], Ambiguous);
    var c := a + [Submitting] + [Ambiguous];
    RunAppend(c, Confirmed);
    RunAppend(c + [Confirmed], PartiallyFilled);
    var e := c + [Confirmed] + [PartiallyFilled];
    RunAppend(e, Filled);
    RunAppend(e + [Filled], Open);
    assert e + [Filled] + [Open] == LongestRun(0);
  }

  lemma JustReserved()
    ensures IsRun([Reserved]) && Moves([Reserved]) == 0 && Reconciliations([Reserved]) == 0
  {}

  lemma {:induction false} LongestRunCounts(r: nat)
    ensures IsRun(LongestRun(r)) && Moves(LongestRun(r)) == 6 + 5 * r && Reconciliations(LongestRun(r)) == r
  {
    if r == 0 {
      FirstSix();
    } else {
      LongestRunCounts(r - 1);
      RunAppendFive(LongestRun(r - 1));
    }
  }

  /** The bound is reached: for every r there is a run with exactly 7 + 5r moves. */
  lemma BoundIsReached(r: nat)
    ensures var run := LongestRun(r) + [Closed];
            IsRun(run) && run[0] == Reserved && Reconciliations(run) == r && Moves(run) == 7 + 5 * r
  {
    LongestRunCounts(r);
    RunAppend(LongestRun(r), Closed);
  }

  /** Terminal states absorb: once reached, the state never changes. */
  lemma {:induction false} TerminalAbsorbs(run: seq<State>, i: nat, j: nat)
    requires IsRun(run) && i <= j < |run| && Terminal(run[i])
    ensures run[j] == run[i]
  {
    if i < j {
      TerminalAbsorbs(run, i, j - 1);
      assert Accepts(run[j - 1], run[j]);
    }
  }

  /** Reserved, Submitting and Ambiguous are passed through in this order and never entered again. */
  lemma {:induction false} NeverBackToEarly(run: seq<State>, i: nat, j: nat)
    requires IsRun(run) && i <= j < |run| && run[j] in {Reserved, Submitting, Ambiguous}
    ensures run[i] in {Reserved, Submitting, Ambiguous} && Rank(run[j]) <= Rank(run[i])
  {
    if i < j {
      assert Accepts(run[j - 1], run[j]);
      NeverBackToEarly(run, i, j - 1);
    }
  }

  /** Between an open position and a later pending entry the position was being reconciled. */
  lemma {:induction false} OpenNeedsReconciling(run: seq<State>, i: nat, j: nat)
    requires IsRun(run) && i < j < |run|
    requires PositionOf(run[i]) == OpenPosition && PositionOf(run[j]) == PendingEntry
    ensures exists k :: i < k < j && PositionOf(run[k]) == Reconciling
  {
    assert Accepts(run[j - 1], run[j]);
    if PositionOf(run[j - 1]) == PendingEntry {
      OpenNeedsReconciling(run, i, j - 1);
      var k :| i < k < j - 1 && PositionOf(run[k]) == Reconciling;
    }
  }

  /** A closed position was open, or being reconciled, just before. */
  lemma ClosedComesFromOpen(run: seq<State>, j: nat)
    requires IsRun(run) && 0 < j < |run| && run[j] == Closed && run[j - 1] != Closed
    ensures PositionOf(run[j - 1]) == OpenPosition || PositionOf(run[j - 1]) == Reconciling
  {}

  // ---- The row ----

  datatype MetaValue = Text(s: string) | LastTransition(from: string, to: string, at: int, idempotent: bool)

  function PositionName(p: PositionState): string {
    match p
    case PendingEntry => "pending_entry"
    case OpenPosition => "open"
    case Reconciling => "reconciling"
    case ClosedPosition => "closed"
    case CancelledPosition => "cancelled"
    case FailedPosition => "failed"
  }

  function TransitionMeta(d: Transition, now: int): map<string, MetaValue> {
    map["execution_state" := Text(Name(d.target)), "position_state" := Text(PositionName(d.position)),
        "last_state_transition" := LastTransition(Name(d.current), Name(d.target), now, d.idempotent)]
  }

  /** What a caller adds to a transition. */
  datatype Details = Details(
    errorCode: string, meta: map<string, MetaValue>, realizedPct: Option<real>, realized: Option<real>, closedAt: Option<int>)

  lemma EvaluatedPosition(current: string, target: string)
    requires Evaluate(current, target).Success?
    ensures var d := Evaluate(current, target).value; d.position == PositionOf(d.target)
  {}

  /** What a transition writes into the metadata wins over what was there and over what the caller adds. */
  lemma MetaTellsTheState(before: map<string, MetaValue>, extra: map<string, MetaValue>, d: Transition, now: int)
    ensures var m := before + extra + TransitionMeta(d, now);
            && "execution_state" in m && m["execution_state"] == Text(Name(d.target))
            && "position_state" in m && m["position_state"] == Text(PositionName(d.position))
            && "last_state_transition" in m
            && m["last_state_transition"] == LastTransition(Name(d.current), Name(d.target), now, d.idempotent)
            && forall k: string :: k !in {"execution_state", "position_state", "last_state_transition"} ==>
                 (k in m <==> k in before || k in extra)
                 && (k in extra ==> m[k] == extra[k]) && (k in before && k !in extra ==> m[k] == before[k])
  {
    hide Name, PositionName;
  }

  class ExecutionRow {
    var status: string
    var updatedAt: int
    var errorCode: Option<string>
    var meta: map<string, MetaValue>
    var realizedPct: Option<real>
    var realized: Option<real>
    var closedAt: Option<int>

    constructor (status: string)
      ensures this.status == status && meta == map[] && errorCode == None && realizedPct == None && realized == None && closedAt == None
    {
      this.status, updatedAt, errorCode, meta := status, 0, None, map[];
      realizedPct, realized, closedAt := None, None, None;
    }

    /** The row's metadata tell the same story as its status. */
    predicate Consistent()
      reads this
    {
      "execution_state" in meta ==>
        match Normalize(status)
        case None => false
        case Some(s) =>
          && status == Name(s) && meta["execution_state"] == Text(status)
          && "position_state" in meta && meta["position_state"] == Text(PositionName(PositionOf(s)))
    }

    method Apply(target: string, now: int, details: Details) returns (r: Result<Transition, Refusal>)
      modifies this
      ensures r == Evaluate(old(status), target)
      ensures r.Failure? ==>
                && status == old(status) && updatedAt == old(updatedAt) && errorCode == old(errorCode) && meta == old(meta)
                && realizedPct == old(realizedPct) && realized == old(realized) && closedAt == old(closedAt)
      ensures r.Success? ==>
                && status == Name(r.value.target) && updatedAt == now
                && meta == old(meta) + details.meta + TransitionMeta(r.value, now)
                && (errorCode.Some? <==> details.errorCode != "")
                && (errorCode.Some? ==> errorCode.value <= details.errorCode
                                        && |errorCode.value| == if |details.errorCode| <= 128 then |details.errorCode| else 128)
                && realizedPct == (if details.realizedPct.Some? then details.realizedPct else old(realizedPct))
                && realized == (if details.realized.Some? then details.realized else old(realized))
                && closedAt == (if !Terminal(r.value.target) then old(closedAt)
                                else if details.closedAt.Some? then details.closedAt else Some(now))
      ensures r.Success? ==>
                && "last_state_transition" in meta
                && meta["last_state_transition"] == LastTransition(Name(r.value.current), Name(r.value.target), now, r.value.idempotent)
                && meta["execution_state"] == Text(status)
      ensures r.Success? ==> Consistent() && "execution_state" in meta
      ensures old(Consistent()) ==> Consistent()
    {
      hide Normalize, Name, PositionName, PositionOf, Transitions, Evaluate, Terminal, TransitionMeta;
      var evaluated := Evaluate(status, target);
      if evaluated.Failure? { return Failure(evaluated.error); }
      var decision := evaluated.value;
      EvaluatedPosition(status, target);
      NamesNormalize(decision.target);
      status := Name(decision.target);
      updatedAt := now;
      errorCode :=
        if details.errorCode == "" then None
        else Some(if |details.errorCode| > 128 then details.errorCode[..128] else details.errorCode);
      MetaTellsTheState(meta, details.meta, decision, now);
      meta := meta + details.meta + TransitionMeta(decision, now);
      if details.realizedPct.Some? { realizedPct := details.realizedPct; }
      if details.realized.Some? { realized := details.realized; }
      if Terminal(decision.target) {
        closedAt := if details.closedAt.Some? then details.closedAt else Some(now);
      }
      r := Success(decision);
    }
  }
}
