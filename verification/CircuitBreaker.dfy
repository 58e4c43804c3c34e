/** The proxy-wide circuit breaker: a sliding window of overloads and one half-open probe. */
module CircuitBreakers {
  import opened Options

  datatype State = Closed | Open | HalfOpen
  datatype Reason = NoReason | Overload | ProbeFailed | QuotaExhausted
  datatype RefusalReason = CircuitOpen(reason: Reason) | ProbeInFlight
  datatype Admission = Allowed | Refused(remaining: nat, why: RefusalReason)

  const MAX_QUOTA_OPEN: nat := 31_622_400_000
  const PROBE_RETRY: nat := 1_000

  datatype Limits = Limits(threshold: nat, window: nat, openFor: nat)
  datatype Breaker = Breaker(state: State, openUntil: nat, reason: Reason, overloads: seq<nat>, probeInFlight: bool)

  function Fresh(now: nat): Breaker {
    Breaker(Closed, now, NoReason, [], false)
  }

  /** The instants that are still inside the window. */
  function Recent(times: seq<nat>, now: nat, window: nat): seq<nat> {
    if times == [] then []
    else
      var rest := Recent(times[..|times| - 1], now, window);
      if now <= times[|times| - 1] + window then rest + [times[|times| - 1]] else rest
  }

  function AdmitAt(b: Breaker, now: nat): (Breaker, Admission) {
    match b.state
    case Closed => (b, Allowed)
    case Open =>
      if now >= b.openUntil then (b.(state := HalfOpen, probeInFlight := true), Allowed)
      else (b, Refused(b.openUntil - now, CircuitOpen(b.reason)))
    case HalfOpen =>
      if b.probeInFlight then (b, Refused(PROBE_RETRY, ProbeInFlight))
      else (b.(probeInFlight := true), Allowed)
  }

  function Succeed(b: Breaker): Breaker {
    b.(state := Closed, probeInFlight := false, overloads := [])
  }

  function Exhaust(b: Breaker, openFor: nat, now: nat): Breaker {
    b.(state := Open, openUntil := now + Min(openFor, MAX_QUOTA_OPEN), reason := QuotaExhausted, probeInFlight := false)
  }

  function Overloaded(b: Breaker, now: nat, l: Limits): Breaker {
    var times := Recent(b.overloads, now, l.window) + [now];
    if b.state.HalfOpen? || |times| >= l.threshold
    then b.(state := Open, openUntil := now + l.openFor, reason := if b.state.HalfOpen? then ProbeFailed else Overload,
            overloads := [], probeInFlight := false)
    else b.(overloads := times, probeInFlight := false)
  }

  function Neutral(b: Breaker): Breaker {
    b.(probeInFlight := false)
  }

  function Look(b: Breaker, now: nat): Breaker {
    if b.state.Open? && now >= b.openUntil then b.(state := HalfOpen, probeInFlight := false) else b
  }

  class CircuitBreaker {
    const limits: Limits
    var state: State
    var openUntil: nat
    var reason: Reason
    var overloads: seq<nat>
    var probeInFlight: bool

    constructor (threshold: nat, window: nat, openFor: nat, now: nat)
      ensures limits == Limits(Max(threshold, 1), Max(window, 1000), Max(openFor, 1000))
      ensures Now() == Fresh(now)
    {
      limits := Limits(Max(threshold, 1), Max(window, 1000), Max(openFor, 1000));
      state, openUntil, reason, overloads, probeInFlight := Closed, now, NoReason, [], false;
    }

    function Now(): Breaker
      reads this
    {
      Breaker(state, openUntil, reason, overloads, probeInFlight)
    }

    method Admit(now: nat) returns (a: Admission)
      modifies this
      ensures (Now(), a) == AdmitAt(old(Now()), now)
    {
      match state
      case Closed => return Allowed;
      case Open =>
        if now >= openUntil {
          state, probeInFlight := HalfOpen, true;
          return Allowed;
        }
        return Refused(openUntil - now, CircuitOpen(reason));
      case HalfOpen =>
        if probeInFlight { return Refused(PROBE_RETRY, ProbeInFlight); }
        probeInFlight := true;
        return Allowed;
    }

    method RecordSuccess()
      modifies this
      ensures Now() == Succeed(old(Now()))
    {
      state, probeInFlight, overloads := Closed, false, [];
    }

    method RecordQuotaExhaustion(openFor: nat, now: nat)
      modifies this
      ensures Now() == Exhaust(old(Now()), openFor, now)
    {
      state, openUntil := Open, now + Min(openFor, MAX_QUOTA_OPEN);
      reason, probeInFlight := QuotaExhausted, false;
    }

    method RecordOverload(now: nat)
      modifies this
      ensures Now() == Overloaded(old(Now()), now, limits)
    {
      overloads := Recent(overloads, now, limits.window) + [now];
      var probeFailed := state.HalfOpen?;
      if probeFailed || |overloads| >= limits.threshold {
        state, openUntil := Open, now + limits.openFor;
        reason := if probeFailed then ProbeFailed else Overload;
        overloads := [];
      }
      probeInFlight := false;
    }

    method RecordNeutralFailure()
      modifies this
      ensures Now() == Neutral(old(Now()))
    {
      probeInFlight := false;
    }

    method CurrentState(now: nat) returns (s: State)
      modifies this
      ensures Now() == Look(old(Now()), now) && s == Now().state
    {
      if state.Open? && now >= openUntil { state, probeInFlight := HalfOpen, false; }
      s := state;
    }
  }

  // --- runs ---------------------------------------------------------------------------

  datatype Op =
    | Asked(now: nat) | Looked(now: nat)
    | Succeeded | Exhausted(openFor: nat, now: nat) | SawOverload(now: nat) | Failed

  predicate Records(op: Op) {
    op.Succeeded? || op.Exhausted? || op.SawOverload? || op.Failed?
  }

  function Apply(b: Breaker, op: Op, l: Limits): Breaker {
    match op
    case Asked(now) => AdmitAt(b, now).0
    case Looked(now) => Look(b, now)
    case Succeeded => Succeed(b)
    case Exhausted(openFor, now) => Exhaust(b, openFor, now)
    case SawOverload(now) => Overloaded(b, now, l)
    case Failed => Neutral(b)
  }

  function Run(b: Breaker, ops: seq<Op>, l: Limits): Breaker {
    if ops == [] then b else Apply(Run(b, ops[..|ops| - 1], l), ops[|ops| - 1], l)
  }

  /** The unpruned record: every overload since the last clear, and the last time one was recorded. */
  datatype Log = Log(times: seq<nat>, last: nat)

  /** Cleared by a success, and by the overload that opens the circuit. */
  function Logged(g: Log, opens: bool, op: Op): Log {
    match op
    case Succeeded => g.(times := [])
    case SawOverload(now) => Log(if opens then [] else g.times + [now], now)
    case _ => g
  }

  /** The reference decides from the whole log. */
  predicate OpensNow(g: Log, state: State, now: nat, l: Limits) {
    state.HalfOpen? || |Recent(g.times + [now], now, l.window)| >= l.threshold
  }

  function LogOf(ops: seq<Op>, start: nat, l: Limits): Log {
    if ops == [] then Log([], start)
    else
      var before, op := ops[..|ops| - 1], ops[|ops| - 1];
      var g := LogOf(before, start, l);
      Logged(g, op.SawOverload? && OpensNow(g, Run(Fresh(start), before, l).state, op.now, l), op)
  }

  /** Overload reports come in time order. */
  predicate Chronological(ops: seq<Op>, start: nat) {
    && (forall i :: 0 <= i < |ops| && ops[i].SawOverload? ==> start <= ops[i].now)
    && (forall i, j :: 0 <= i < j < |ops| && ops[i].SawOverload? && ops[j].SawOverload? ==> ops[i].now <= ops[j].now)
  }

  lemma {:induction false} RecentOfRecent(times: seq<nat>, last: nat, now: nat, window: nat)
    requires last <= now
    ensures Recent(Recent(times, last, window), now, window) == Recent(times, now, window)
  {
    if times != [] {
      var t, rest := times[|times| - 1], times[..|times| - 1];
      RecentOfRecent(rest, last, now, window);
      if now <= t + window {
        var kept := Recent(rest, last, window) + [t];
        assert kept[..|kept| - 1] == Recent(rest, last, window);
      } else if last <= t + window {
        var kept := Recent(rest, last, window) + [t];
        assert kept[..|kept| - 1] == Recent(rest, last, window);
      }
    }
  }

  /** Nothing but the instants inside the window, each as often as it was recorded. */
  lemma {:induction false} RecentMeans(times: seq<nat>, now: nat, window: nat)
    ensures forall t: nat ::
      multiset(Recent(times, now, window))[t] == if now - t <= window then multiset(times)[t] else 0
  {
    if times != [] {
      var n := |times| - 1;
      RecentMeans(times[..n], now, window);
      assert times == times[..n] + [times[n]];
    }
  }

  lemma RecentSnoc(times: seq<nat>, t: nat, now: nat, window: nat)
    requires now <= t + window
    ensures Recent(times + [t], now, window) == Recent(times, now, window) + [t]
  {
  }

  lemma LastOverload(ops: seq<Op>, start: nat, l: Limits, now: nat)
    requires Chronological(ops + [SawOverload(now)], start)
    ensures LogOf(ops, start, l).last <= now && Chronological(ops, start)
  {
    var all := ops + [SawOverload(now)];
    assert forall i :: 0 <= i < |ops| ==> all[i] == ops[i];
    assert all[|ops|] == SawOverload(now);
    LastIsLogged(ops, start, l);
  }

  lemma {:induction false} LastIsLogged(ops: seq<Op>, start: nat, l: Limits)
    ensures LogOf(ops, start, l).last == start
         || exists i :: 0 <= i < |ops| && ops[i].SawOverload? && LogOf(ops, start, l).last == ops[i].now
  {
    if ops != [] {
      var before := ops[..|ops| - 1];
      LastIsLogged(before, start, l);
      if !ops[|ops| - 1].SawOverload? && LogOf(before, start, l).last != start {
        var i :| 0 <= i < |before| && before[i].SawOverload? && LogOf(before, start, l).last == before[i].now;
        assert ops[i] == before[i];
      }
    }
  }

  /**
   * In every reachable state the pruned list is shorter than the threshold, and it is exactly the overloads
   * since the last clear that were inside the window at the latest overload.
   */
  lemma {:induction false} WindowIsExact(ops: seq<Op>, start: nat, l: Limits)
    requires l.threshold >= 1 && Chronological(ops, start)
    ensures var b, g := Run(Fresh(start), ops, l), LogOf(ops, start, l);
      |b.overloads| < l.threshold && b.overloads == Recent(g.times, g.last, l.window)
  {
    if ops != [] {
      var before, op := ops[..|ops| - 1], ops[|ops| - 1];
      assert ops == before + [op];
      WindowIsExact(before, start, l);
      if op.SawOverload? {
        var b, g := Run(Fresh(start), before, l), LogOf(before, start, l);
        LastOverload(before, start, l, op.now);
        RecentOfRecent(g.times, g.last, op.now, l.window);
        RecentSnoc(g.times, op.now, op.now, l.window);
      }
    }
  }

  /** A Closed breaker opens on an overload exactly when the whole log shows the threshold met inside the window. */
  lemma OpensExactly(ops: seq<Op>, start: nat, l: Limits, now: nat)
    requires l.threshold >= 1 && Chronological(ops + [SawOverload(now)], start)
    requires Run(Fresh(start), ops, l).state.Closed?
    ensures Overloaded(Run(Fresh(start), ops, l), now, l).state.Open? <==>
              |Recent(LogOf(ops, start, l).times + [now], now, l.window)| >= l.threshold
  {
    var g := LogOf(ops, start, l);
    LastOverload(ops, start, l, now);
    WindowIsExact(ops, start, l);
    RecentOfRecent(g.times, g.last, now, l.window);
    RecentSnoc(g.times, now, now, l.window);
  }

  // --- one probe at a time -------------------------------------------------------------------

  /** Operation i is an admission granted while the breaker was not Closed. */
  predicate GrantedProbe(b: Breaker, ops: seq<Op>, i: nat, l: Limits)
    requires i < |ops|
  {
    var before := Run(b, ops[..i], l);
    ops[i].Asked? && !before.state.Closed? && AdmitAt(before, ops[i].now).1.Allowed?
  }

  lemma {:induction false} ProbeStaysOut(b: Breaker, ops: seq<Op>, i: nat, k: nat, l: Limits)
    requires i < k <= |ops| && GrantedProbe(b, ops, i, l)
    requires forall j :: i < j < k ==> !Records(ops[j])
    ensures var after := Run(b, ops[..k], l); after.state.HalfOpen? && after.probeInFlight
    decreases k
  {
    assert ops[..k][..k - 1] == ops[..k - 1];
    if k > i + 1 { ProbeStaysOut(b, ops, i, k - 1, l); }
  }

  /** Between two admissions granted while not Closed, some outcome was recorded. */
  lemma OutcomeBetweenProbes(b: Breaker, ops: seq<Op>, i: nat, j: nat, l: Limits)
    requires i < j < |ops| && GrantedProbe(b, ops, i, l) && GrantedProbe(b, ops, j, l)
    ensures exists k :: i < k < j && Records(ops[k])
  {
    if forall k :: i < k < j ==> !Records(ops[k]) {
      ProbeStaysOut(b, ops, i, j, l);
    }
  }

  // --- who is refused, and for how long --------------------------------------------------------

  /** Nothing happens that moves the breaker out of its open period: no success, no exhaustion, no overload. */
  predicate LeftOpen(ops: seq<Op>) {
    forall op :: op in ops ==> !op.Succeeded? && !op.Exhausted? && !op.SawOverload?
  }

  predicate Clocked(op: Op) {
    op.Asked? || op.Looked?
  }

  /** The breaker's clock does not run backwards. */
  predicate InTimeOrder(ops: seq<Op>) {
    forall i, j :: 0 <= i < j < |ops| && Clocked(ops[i]) && Clocked(ops[j]) ==> ops[i].now <= ops[j].now
  }

  predicate AllBefore(ops: seq<Op>, until: nat) {
    forall op :: op in ops && Clocked(op) ==> op.now < until
  }

  /** Nobody has asked since an instant. */
  predicate NotAskedSince(ops: seq<Op>, until: nat) {
    forall op :: op in ops && op.Asked? ==> op.now < until
  }

  predicate OpenUntil(b: Breaker, until: nat, why: Reason) {
    b.state.Open? && b.openUntil == until && b.reason == why
  }

  lemma OrderedBefore(ops: seq<Op>, op: Op, until: nat)
    requires InTimeOrder(ops + [op])
    ensures InTimeOrder(ops) && (Clocked(op) && op.now < until ==> AllBefore(ops, until))
  {
    var all := ops + [op];
    assert all[|ops|] == op && forall i :: 0 <= i < |ops| ==> all[i] == ops[i];
  }

  /** Open, or half-open with the probe still to be had. */
  predicate NobodyIn(b: Breaker, until: nat, why: Reason) {
    OpenUntil(b, until, why) || (b.state.HalfOpen? && !b.probeInFlight)
  }

  lemma OpenStep(b: Breaker, op: Op, l: Limits, until: nat, why: Reason)
    requires !op.Succeeded? && !op.Exhausted? && !op.SawOverload?
    ensures OpenUntil(b, until, why) && (op.Asked? ==> op.now < until) ==> NobodyIn(Apply(b, op, l), until, why)
    ensures OpenUntil(b, until, why) && (Clocked(op) ==> op.now < until) ==> OpenUntil(Apply(b, op, l), until, why)
    ensures NobodyIn(b, until, why) && !Clocked(op) ==> NobodyIn(Apply(b, op, l), until, why)
    ensures NobodyIn(b, until, why) && op.Looked? ==> NobodyIn(Apply(b, op, l), until, why)
  {
  }

  lemma {:induction false} StaysOpen(b: Breaker, ops: seq<Op>, l: Limits, until: nat, why: Reason)
    requires OpenUntil(b, until, why) && LeftOpen(ops) && NotAskedSince(ops, until) && InTimeOrder(ops)
    ensures NobodyIn(Run(b, ops, l), until, why)
    ensures AllBefore(ops, until) ==> OpenUntil(Run(b, ops, l), until, why)
  {
    if ops == [] {
      assert NobodyIn(b, until, why);
    } else {
      hide Apply, NobodyIn, OpenUntil;
      var before, op := ops[..|ops| - 1], ops[|ops| - 1];
      assert ops == before + [op];
      OrderedBefore(before, op, until);
      assert op in ops && forall a :: a in before ==> a in ops;
      StaysOpen(b, before, l, until, why);
      OpenStep(Run(b, before, l), op, l, until, why);
    }
  }

  /** A refusal names exactly the time that is left; the first question asked after that is granted, as a probe. */
  lemma ShutUntil(b: Breaker, ops: seq<Op>, l: Limits, until: nat, why: Reason, now: nat)
    requires OpenUntil(b, until, why) && LeftOpen(ops) && InTimeOrder(ops + [Asked(now)])
    ensures now < until ==> AdmitAt(Run(b, ops, l), now).1 == Refused(until - now, CircuitOpen(why))
    ensures until <= now && NotAskedSince(ops, until) ==> AdmitAt(Run(b, ops, l), now).1 == Allowed
  {
    OrderedBefore(ops, Asked(now), until);
    if now < until || NotAskedSince(ops, until) { StaysOpen(b, ops, l, until, why); }
  }

  lemma {:induction false} RunConcat(b: Breaker, ops: seq<Op>, more: seq<Op>, l: Limits)
    ensures Run(b, ops + more, l) == Run(Run(b, ops, l), more, l)
  {
    if more == [] {
      assert ops + more == ops;
    } else {
      RunConcat(b, ops, more[..|more| - 1], l);
      assert (ops + more)[..|ops + more| - 1] == ops + more[..|more| - 1];
    }
  }

  /** The overload that opens the breaker, decided from the log. */
  lemma OpensUntil(ops: seq<Op>, start: nat, l: Limits, t: nat)
    requires l.threshold >= 1 && Chronological(ops + [SawOverload(t)], start)
    requires OpensNow(LogOf(ops, start, l), Run(Fresh(start), ops, l).state, t, l)
    ensures var why := if Run(Fresh(start), ops, l).state.HalfOpen? then ProbeFailed else Overload;
            OpenUntil(Run(Fresh(start), ops + [SawOverload(t)], l), t + l.openFor, why)
  {
    var g := LogOf(ops, start, l);
    LastOverload(ops, start, l, t);
    WindowIsExact(ops, start, l);
    RecentOfRecent(g.times, g.last, t, l.window);
    RecentSnoc(g.times, t, t, l.window);
    assert (ops + [SawOverload(t)])[..|ops|] == ops;
  }

  /**
   * An overload at t opens the breaker when it is a failed probe, or when the log since the last clear has the
   * threshold inside the window. From then on, until a success, an exhaustion or another overload is recorded,
   * everybody who asks before t + openFor is refused with exactly the rest of that time, and the first to ask at or
   * after it is let through.
   */
  lemma OverloadShuts(ops: seq<Op>, start: nat, l: Limits, t: nat, after: seq<Op>, now: nat)
    requires l.threshold >= 1 && Chronological(ops + [SawOverload(t)], start)
    requires OpensNow(LogOf(ops, start, l), Run(Fresh(start), ops, l).state, t, l)
    requires LeftOpen(after) && InTimeOrder(after + [Asked(now)])
    ensures var why := if Run(Fresh(start), ops, l).state.HalfOpen? then ProbeFailed else Overload;
            var answer := AdmitAt(Run(Fresh(start), ops + [SawOverload(t)] + after, l), now).1;
      && (now < t + l.openFor ==> answer == Refused(t + l.openFor - now, CircuitOpen(why)))
      && (t + l.openFor <= now && NotAskedSince(after, t + l.openFor) ==> answer == Allowed)
  {
    hide *;
    var why := if Run(Fresh(start), ops, l).state.HalfOpen? then ProbeFailed else Overload;
    OpensUntil(ops, start, l, t);
    RunConcat(Fresh(start), ops + [SawOverload(t)], after, l);
    ShutUntil(Run(Fresh(start), ops + [SawOverload(t)], l), after, l, t + l.openFor, why, now);
  }

  /** Likewise after an exhaustion at t, in whatever state, for its reset time or 366 days, whichever is less. */
  lemma ExhaustionShuts(b: Breaker, ops: seq<Op>, l: Limits, openFor: nat, t: nat, after: seq<Op>, now: nat)
    requires LeftOpen(after) && InTimeOrder(after + [Asked(now)])
    ensures var until := t + if openFor < 366 * 24 * 3_600_000 then openFor else 366 * 24 * 3_600_000;
            var answer := AdmitAt(Run(b, ops + [Exhausted(openFor, t)] + after, l), now).1;
      && (now < until ==> answer == Refused(until - now, CircuitOpen(QuotaExhausted)))
      && (until <= now && NotAskedSince(after, until) ==> answer == Allowed)
  {
    var op, until := Exhausted(openFor, t), t + Min(openFor, MAX_QUOTA_OPEN);
    assert (ops + [op])[..|ops|] == ops;
    assert OpenUntil(Run(b, ops + [op], l), until, QuotaExhausted);
    hide AdmitAt, Run;
    RunConcat(b, ops + [op], after, l);
    ShutUntil(Run(b, ops + [op], l), after, l, until, QuotaExhausted, now);
  }

  /** While a granted probe has no outcome, everybody else is told to come back in a second. */
  lemma ProbeKeepsOthersOut(b: Breaker, ops: seq<Op>, i: nat, l: Limits, now: nat)
    requires i < |ops| && GrantedProbe(b, ops, i, l) && forall j :: i < j < |ops| ==> !Records(ops[j])
    ensures AdmitAt(Run(b, ops, l), now).1 == Refused(1_000, ProbeInFlight)
  {
    ProbeStaysOut(b, ops, i, |ops|, l);
    assert ops[..|ops|] == ops;
  }

  /** An outcome that says nothing about the upstream hands the probe to the next who asks. */
  lemma FreedProbeIsGrantedAgain(b: Breaker, ops: seq<Op>, i: nat, l: Limits, now: nat)
    requires i < |ops| && GrantedProbe(b, ops, i, l) && forall j :: i < j < |ops| ==> !Records(ops[j])
    ensures AdmitAt(Run(b, ops + [Failed], l), now).1 == Allowed
  {
    ProbeStaysOut(b, ops, i, |ops|, l);
    assert ops[..|ops|] == ops && (ops + [Failed])[..|ops|] == ops;
  }

  /** No exhaustion, and no overload that meets the threshold inside the window of the log. */
  predicate NothingOpens(ops: seq<Op>, start: nat, l: Limits) {
    ops == [] ||
    var before, op := ops[..|ops| - 1], ops[|ops| - 1];
    && NothingOpens(before, start, l) && !op.Exhausted?
    && (op.SawOverload? ==> |Recent(LogOf(before, start, l).times + [op.now], op.now, l.window)| < l.threshold)
  }

  /** Until something opens it the breaker is closed, and a closed breaker lets everybody through. */
  lemma {:induction false} ClosedAdmitsEverybody(ops: seq<Op>, start: nat, l: Limits, now: nat)
    requires l.threshold >= 1 && Chronological(ops, start) && NothingOpens(ops, start, l)
    ensures Run(Fresh(start), ops, l).state.Closed? && AdmitAt(Run(Fresh(start), ops, l), now).1 == Allowed
  {
    if ops != [] {
      var before, op := ops[..|ops| - 1], ops[|ops| - 1];
      assert ops == before + [op];
      assert Chronological(before, start) by { assert forall i :: 0 <= i < |before| ==> before[i] == ops[i]; }
      ClosedAdmitsEverybody(before, start, l, now);
      if op.SawOverload? { OpensExactly(before, start, l, op.now); }
    }
  }

  /** A success closes it from any state, with an empty log, and the next to ask is let through. */
  lemma SuccessReopensTheDoor(b: Breaker, ops: seq<Op>, l: Limits, now: nat)
    ensures var b' := Run(b, ops + [Succeeded], l); b'.overloads == [] && AdmitAt(b', now) == (b', Allowed)
  {
    assert (ops + [Succeeded])[..|ops|] == ops;
  }
}
