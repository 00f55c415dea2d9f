/**
 * The lease protocol of core/job_leases.py and core/execution_claims.py: SET key token NX EX ttl to
 * take the lease, and a compare-and-delete of one's own token to give it back. The client sends a
 * command that times out again, and a SET NX sent twice answers no although it has set the key.
 */
module Leases {
  import opened Wrappers
  import opened RealMath

  datatype Lease = Lease(token: string, expiresAt: int)

  predicate Live(l: Option<Lease>, now: int) { l.Some? && now < l.value.expiresAt }

  const MIN_LEASE_SECONDS := 30

  function Ttl(leaseSeconds: int): int { MaxInt(MIN_LEASE_SECONDS, leaseSeconds) }

  /** Where a process stands. Inside means it got the lease and has not given it back. */
  datatype Process =
    | Outside
    | Asking(token: string)
    | Inside(token: string, since: int, ttl: int)

  /** tokens is every token ever drawn. */
  datatype System = System(now: int, key: Option<Lease>, processes: seq<Process>, tokens: set<string>)

  datatype Action =
    | Tick(seconds: nat)
    | Draw(i: nat, token: string)
    | TrySet(i: nat, leaseSeconds: int)
    | SetTwice(i: nat, leaseSeconds: int)
    | GiveUp(i: nat)
    | Release(i: nat)
    | Crash(i: nat)

  function SetNx(key: Option<Lease>, token: string, ttl: int, now: int): Option<Lease> {
    if Live(key, now) then key else Some(Lease(token, now + ttl))
  }

  function CompareAndDelete(key: Option<Lease>, token: string, now: int): Option<Lease> {
    if Live(key, now) && key.value.token == token then None else key
  }

  /** One step of the whole; a step that does not fit changes nothing. A drawn token is always new. */
  function Step(s: System, a: Action): System {
    match a
    case Tick(seconds) => s.(now := s.now + seconds)
    case Draw(i, token) =>
      if i >= |s.processes| || !s.processes[i].Outside? || token in s.tokens then s
      else s.(processes := s.processes[i := Asking(token)], tokens := s.tokens + {token})
    case TrySet(i, leaseSeconds) =>
      if i >= |s.processes| || !s.processes[i].Asking? || Live(s.key, s.now) then s
      else
        var token, ttl := s.processes[i].token, Ttl(leaseSeconds);
        s.(key := SetNx(s.key, token, ttl, s.now), processes := s.processes[i := Inside(token, s.now, ttl)])
    case SetTwice(i, leaseSeconds) =>
      if i >= |s.processes| || !s.processes[i].Asking? then s
      else s.(key := SetNx(s.key, s.processes[i].token, Ttl(leaseSeconds), s.now))
    case GiveUp(i) =>
      if i >= |s.processes| || !s.processes[i].Asking? then s else s.(processes := s.processes[i := Outside])
    case Release(i) =>
      if i >= |s.processes| || !s.processes[i].Inside? then s
      else s.(key := CompareAndDelete(s.key, s.processes[i].token, s.now), processes := s.processes[i := Outside])
    case Crash(i) => if i >= |s.processes| then s else s.(processes := s.processes[i := Outside])
  }

  function Start(n: nat, now: int): System { System(now, None, seq(n, _ => Outside), {}) }

  function Run(s: System, actions: seq<Action>): System {
    if actions == [] then s else Step(Run(s, actions[..|actions| - 1]), actions[|actions| - 1])
  }

  /** The process is inside and its own lease has not run out. */
  predicate InTime(p: Process, now: int) { p.Inside? && now < p.since + p.ttl }

  predicate Inv(s: System) {
    && (forall i, j :: 0 <= i < j < |s.processes| && !s.processes[i].Outside? && !s.processes[j].Outside? ==>
          s.processes[i].token != s.processes[j].token)
    && (forall i :: 0 <= i < |s.processes| && !s.processes[i].Outside? ==> s.processes[i].token in s.tokens)
    && (forall i :: 0 <= i < |s.processes| && s.processes[i].Inside? ==> s.processes[i].since <= s.now)
    && (forall i :: 0 <= i < |s.processes| && InTime(s.processes[i], s.now) ==>
          s.key == Some(Lease(s.processes[i].token, s.processes[i].since + s.processes[i].ttl)))
  }

  lemma StepKeepsInv(s: System, a: Action)
    requires Inv(s)
    ensures Inv(Step(s, a))
  {}

  lemma {:induction false} EveryStateIsSafe(n: nat, now: int, actions: seq<Action>)
    ensures Inv(Run(Start(n, now), actions))
  {
    hide Step, Inv;
    if actions == [] {
      StartIsSafe(n, now);
    } else {
      EveryStateIsSafe(n, now, actions[..|actions| - 1]);
      StepKeepsInv(Run(Start(n, now), actions[..|actions| - 1]), actions[|actions| - 1]);
    }
  }

  lemma StartIsSafe(n: nat, now: int)
    ensures Inv(Start(n, now))
  {}

  /**
   * In every reachable state, of two processes inside at once at least one has outstayed its lease.
   * So if every holder leaves within its lease, no two are ever inside together.
   */
  lemma MutualExclusion(n: nat, now: int, actions: seq<Action>, i: nat, j: nat)
    requires var s := Run(Start(n, now), actions);
             i < |s.processes| && j < |s.processes| && InTime(s.processes[i], s.now) && InTime(s.processes[j], s.now)
    ensures i == j
  {
    EveryStateIsSafe(n, now, actions);
  }

  /** A release, however late, never takes the lease of a process that is inside and in time. */
  lemma LateReleaseIsHarmless(n: nat, now: int, actions: seq<Action>, i: nat, j: nat)
    requires var s := Run(Start(n, now), actions);
             i < |s.processes| && j < |s.processes| && i != j && InTime(s.processes[j], s.now)
    ensures var s := Run(Start(n, now), actions);
            var t := Step(s, Release(i));
            t.key == s.key == Some(Lease(s.processes[j].token, s.processes[j].since + s.processes[j].ttl))
  {
    EveryStateIsSafe(n, now, actions);
  }

  /**
   * A process that asks while another is inside joins it exactly when no lease is alive on the key, and
   * then the other one has outstayed its lease.
   */
  lemma SecondEntryNeedsAnOverrun(n: nat, now: int, actions: seq<Action>, i: nat, j: nat, leaseSeconds: int)
    requires var s := Run(Start(n, now), actions);
             i < |s.processes| && j < |s.processes| && s.processes[i].Asking? && s.processes[j].Inside?
    ensures var s := Run(Start(n, now), actions);
            var t := Step(s, TrySet(i, leaseSeconds));
            && (t.processes[i].Inside? && t.processes[j].Inside? <==> !Live(s.key, s.now))
            && (!Live(s.key, s.now) ==> !InTime(s.processes[j], s.now))
  {
    EveryStateIsSafe(n, now, actions);
  }

  /** The promise needs the holder to be in time: after an overrun two processes are inside together. */
  lemma OverrunLetsTwoIn(s: System, a: string, b: string)
    requires s == Start(2, 0) && a != b
    ensures var held := Step(Step(s, Draw(0, a)), TrySet(0, 30));
            var t := Step(Step(Step(held, Tick(30)), Draw(1, b)), TrySet(1, 30));
            t.now == 30 && t.processes == [Inside(a, 0, 30), Inside(b, 30, 30)]
  {}

  /**
   * After a SET NX sent twice nobody is inside, and any other process gets in exactly when the lease left
   * behind has run out.
   */
  lemma SetTwiceShutsOut(s: System, i: nat, j: nat, leaseSeconds: int, seconds: nat, other: int)
    requires i < |s.processes| && j < |s.processes| && i != j && s.processes[i].Asking? && s.processes[j].Asking? && !Live(s.key, s.now)
    ensures var left := Step(s, SetTwice(i, leaseSeconds));
            && left.processes == s.processes
            && (Step(Step(left, Tick(seconds)), TrySet(j, other)).processes[j].Inside? <==> seconds >= Ttl(leaseSeconds))
  {}

  /** A lease lasts as long as it was asked for, and thirty seconds at least. */
  lemma LeaseLasts(s: System, i: nat, leaseSeconds: int, later: nat)
    requires i < |s.processes| && s.processes[i].Asking? && !Live(s.key, s.now)
    ensures var t, lasts := Step(s, TrySet(i, leaseSeconds)), if leaseSeconds >= 30 then leaseSeconds else 30;
            && t.processes[i] == Inside(s.processes[i].token, s.now, lasts)
            && t.key == Some(Lease(s.processes[i].token, s.now + lasts))
            && (Live(t.key, s.now + later) <==> later < lasts)
  {}

  /** In every reachable state nobody has been inside from a time still to come, and every token in use was drawn. */
  lemma HoldersAreKnown(n: nat, now: int, actions: seq<Action>, i: nat)
    requires i < |Run(Start(n, now), actions).processes| && !Run(Start(n, now), actions).processes[i].Outside?
    ensures var s := Run(Start(n, now), actions);
            s.processes[i].token in s.tokens && (s.processes[i].Inside? ==> s.processes[i].since <= s.now)
  {
    EveryStateIsSafe(n, now, actions);
  }

  // ---- The key in place ----

  /** One pass of the retry loop: the clock, and whether its SET NX was sent twice. */
  datatype Attempt = Attempt(now: int, sentTwice: bool)

  /** The first attempt that reaches the deadline or finds no live lease, or their number. */
  function FirstFree(held: Option<Lease>, tries: seq<Attempt>, deadline: int): (k: nat)
    ensures k <= |tries|
  {
    if tries == [] then 0
    else if tries[0].now >= deadline || !Live(held, tries[0].now) then 0
    else 1 + FirstFree(held, tries[1..], deadline)
  }

  lemma {:induction false} FirstFreeFacts(held: Option<Lease>, tries: seq<Attempt>, deadline: int)
    ensures var first := FirstFree(held, tries, deadline);
            && (forall k :: 0 <= k < first ==> tries[k].now < deadline && Live(held, tries[k].now))
            && (first < |tries| ==> tries[first].now >= deadline || !Live(held, tries[first].now))
  {
    if tries != [] && tries[0].now < deadline && Live(held, tries[0].now) {
      FirstFreeFacts(held, tries[1..], deadline);
      forall k | 0 <= k < FirstFree(held, tries, deadline) ensures tries[k].now < deadline && Live(held, tries[k].now) {
        if k > 0 { assert tries[k] == tries[1..][k - 1]; }
      }
    }
  }

  /** The shared key on the server. Clock readings come from the caller. */
  class LeaseKey {
    var holder: Option<Lease>

    constructor ()
      ensures holder == None
    {
      holder := None;
    }

    /** sentTwice: the first reply came too late, so the answer is that of a second SET NX. */
    method TryAcquire(token: string, leaseSeconds: int, now: int, sentTwice: bool) returns (acquired: bool)
      modifies this
      ensures acquired <==> !Live(old(holder), now) && !sentTwice
      ensures holder == SetNx(old(holder), token, Ttl(leaseSeconds), now)
      ensures acquired ==> Live(holder, now) && holder.value.token == token
      ensures !Live(old(holder), now) ==>
                holder == Some(Lease(token, if leaseSeconds >= 30 then now + leaseSeconds else now + 30))
      ensures Live(old(holder), now) ==> holder == old(holder)
    {
      acquired := SetOnce(token, leaseSeconds, now);
      if sentTwice { acquired := SetOnce(token, leaseSeconds, now); }
    }

    /** SET key token NX EX ttl, executed. */
    method SetOnce(token: string, leaseSeconds: int, now: int) returns (was: bool)
      modifies this
      ensures was <==> !Live(old(holder), now)
      ensures holder == SetNx(old(holder), token, Ttl(leaseSeconds), now) && Live(holder, now)
    {
      was := !Live(holder, now);
      if was { holder := Some(Lease(token, now + Ttl(leaseSeconds))); }
    }

    /**
     * The retry loop: one attempt per clock reading until one succeeds or a reading reaches the deadline.
     * The first attempt that finds the key free decides: answered, it wins; sent twice, it leaves its own
     * lease behind, and then only an attempt after that lease ran out can still win.
     */
    method Claim(token: string, leaseSeconds: int, tries: seq<Attempt>, deadline: int) returns (acquired: bool, at: nat)
      modifies this
      ensures at <= |tries| && (acquired ==> at < |tries|)
      ensures forall k :: 0 <= k < at || (k == at && acquired) ==> tries[k].now < deadline
      ensures !acquired ==> at == |tries| || tries[at].now >= deadline
      ensures acquired ==> holder == Some(Lease(token, tries[at].now + Ttl(leaseSeconds))) && !tries[at].sentTwice
      ensures var first := FirstFree(old(holder), tries, deadline);
              if first == |tries| || tries[first].now >= deadline then !acquired && holder == old(holder)
              else if !tries[first].sentTwice then acquired && at == first
              else
                && at > first && holder.Some? && holder.value.token == token
                && (acquired ==> exists k :: first <= k < at && tries[k].sentTwice && tries[at].now >= tries[k].now + Ttl(leaseSeconds))
                && (!acquired ==> exists k :: first <= k < at && tries[k].sentTwice && holder.value.expiresAt == tries[k].now + Ttl(leaseSeconds))
    {
      acquired, at := false, 0;
      ghost var first := FirstFree(holder, tries, deadline);
      FirstFreeFacts(holder, tries, deadline);
      ghost var mine := 0;
      while at < |tries| && tries[at].now < deadline
        invariant at <= |tries| && !acquired
        invariant forall k :: 0 <= k < at ==> tries[k].now < deadline
        invariant at <= first ==> holder == old(holder)
        invariant at > first ==>
                    && first < |tries| && tries[first].now < deadline && tries[first].sentTwice
                    && first <= mine < at && tries[mine].sentTwice
                    && holder == Some(Lease(token, tries[mine].now + Ttl(leaseSeconds)))
      {
        var try := tries[at];
        ghost var free := !Live(holder, try.now);
        acquired := TryAcquire(token, leaseSeconds, try.now, try.sentTwice);
        if acquired { return; }
        if free { mine := at; }
        at := at + 1;
      }
    }

    method Release(token: string, now: int) returns (deleted: bool)
      modifies this
      ensures holder == CompareAndDelete(old(holder), token, now)
      ensures deleted <==> Live(old(holder), now) && old(holder).value.token == token
      ensures !deleted ==> holder == old(holder)
    {
      deleted := Live(holder, now) && holder.value.token == token;
      if deleted { holder := None; }
    }
  }
}
