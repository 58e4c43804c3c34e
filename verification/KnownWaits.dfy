/** Why a candidate is refused, read off the raw records, and what that says about when it comes back. */
module KnownWaits {
  import opened Options
  import opened ModelCircuit
  import opened Routing
  import opened Planner

  /** A deadline that still lies ahead. */
  predicate Ahead(deadline: Option<nat>, now: nat) {
    deadline.Some? && now < deadline.value
  }

  predicate Gone(e: ModelEntry, now: nat) {
    e.disabled && (e.disabledUntil.Some? ==> now < e.disabledUntil.value)
  }

  predicate Shut(e: ModelEntry, now: nat) {
    e.state.Open? && Ahead(e.openUntil, now)
  }

  /** The circuit is half-open, or its open period has passed. */
  predicate Probing(e: ModelEntry, now: nat) {
    e.state.HalfOpen? || (e.state.Open? && e.openUntil.Some? && e.openUntil.value <= now)
  }

  predicate KeyUp(s: Table, i: nat, now: nat) {
    i < |s.keys| && !s.keys[i].unusable && !Ahead(s.keys[i].coolingUntil, now)
  }

  predicate SomeKeyUp(s: Table, c: Candidate, now: nat) {
    exists i :: i in Sampled(c) && KeyUp(s, i, now)
  }

  predicate KeyCools(s: Table, i: nat, now: nat) {
    i < |s.keys| && Ahead(s.keys[i].coolingUntil, now)
  }

  /** The gate that turns a candidate away, with its deadline if it has one. */
  datatype Refusal =
    | ModelGone | CircuitShut(until: nat) | RouteGone | GroupCools(until: nat) | RouteCools(until: nat)
    | ProbeOut | KeysCool(until: nat) | NoKeyLeft

  /** The model is there, its circuit not shut, and the route not disabled. */
  predicate PastModel(cfg: Config, s: Table, c: Candidate, now: nat) {
    var e, r := ModelOf(s, c.model), RouteOf(s, CandidateId(cfg, c));
    !Gone(e, now) && !Shut(e, now) && !Ahead(r.disabledUntil, now)
  }

  /** The route's own cooldown is over, or a half-open circuit looks past it for the sake of a key that is up. */
  predicate PastCooldown(cfg: Config, s: Table, c: Candidate, now: nat) {
    !Ahead(RouteOf(s, CandidateId(cfg, c)).coolingUntil, now)
    || (Probing(ModelOf(s, c.model), now) && SomeKeyUp(s, c, now))
  }

  predicate ProbeTaken(e: ModelEntry) {
    e.state.HalfOpen? && e.probeInFlight
  }

  predicate PastRoute(cfg: Config, s: Table, c: Candidate, now: nat) {
    && PastModel(cfg, s, c, now) && !Ahead(GroupOf(s, c.group), now) && PastCooldown(cfg, s, c, now)
    && !ProbeTaken(ModelOf(s, c.model))
  }

  /** The first gate to refuse, in the order in which they are asked. */
  predicate Refuses(cfg: Config, s: Table, c: Candidate, now: nat, why: Refusal) {
    var e, r := ModelOf(s, c.model), RouteOf(s, CandidateId(cfg, c));
    match why
    case ModelGone => Gone(e, now)
    case CircuitShut(until) => !Gone(e, now) && Shut(e, now) && e.openUntil == Some(until)
    case RouteGone => !Gone(e, now) && !Shut(e, now) && Ahead(r.disabledUntil, now)
    case GroupCools(until) =>
      PastModel(cfg, s, c, now) && Ahead(GroupOf(s, c.group), now) && GroupOf(s, c.group) == Some(until)
    case RouteCools(until) =>
      && PastModel(cfg, s, c, now) && !Ahead(GroupOf(s, c.group), now)
      && !PastCooldown(cfg, s, c, now) && r.coolingUntil == Some(until)
    case ProbeOut =>
      && PastModel(cfg, s, c, now) && !Ahead(GroupOf(s, c.group), now) && PastCooldown(cfg, s, c, now)
      && ProbeTaken(e)
    case KeysCool(until) =>
      && PastRoute(cfg, s, c, now) && !SomeKeyUp(s, c, now)
      && (exists i :: i in Sampled(c) && KeyCools(s, i, now) && s.keys[i].coolingUntil == Some(until))
      && (forall i :: i in Sampled(c) && KeyCools(s, i, now) ==> until <= s.keys[i].coolingUntil.value)
    case NoKeyLeft =>
      && PastRoute(cfg, s, c, now) && !SomeKeyUp(s, c, now)
      && (forall i :: i in Sampled(c) ==> !KeyCools(s, i, now))
  }

  /** The instant the refusal names, if it names one. */
  function DueAt(why: Refusal): Option<nat> {
    match why
    case CircuitShut(until) => Some(until)
    case GroupCools(until) => Some(until)
    case RouteCools(until) => Some(until)
    case KeysCool(until) => Some(until)
    case _ => None
  }

  lemma KeysAgree(s: Table, c: Candidate, now: nat)
    ensures AnyKeyReady(s, c, now) == SomeKeyUp(s, c, now)
    ensures forall i: nat :: KeyCooling(s, i, now).Some? == KeyCools(s, i, now)
    ensures forall i: nat ::
      KeyCools(s, i, now) ==> i < |s.keys| && s.keys[i].coolingUntil.Some? && now < s.keys[i].coolingUntil.value
                              && KeyCooling(s, i, now) == Some(s.keys[i].coolingUntil.value - now)
  {
    assert forall i: nat :: KeyReady(s, i, now) == KeyUp(s, i, now);
  }

  /** Among the sampled keys the least cooldown counts. */
  lemma KeysWait(s: Table, c: Candidate, now: nat)
    requires !SomeKeyUp(s, c, now)
    ensures var v := KeyVerdict(s, c, now);
      && !v.dial.Ready?
      && (v.wait.Some? ==> v.dial == Cooling(v.wait.value)) && (v.wait.None? ==> v.dial.Blocked?)
      && (v.wait.None? <==> forall i :: i in Sampled(c) ==> !KeyCools(s, i, now))
      && (v.wait.Some? ==>
            && (exists i :: i in Sampled(c) && KeyCools(s, i, now)
                            && s.keys[i].coolingUntil == Some(now + v.wait.value))
            && (forall i :: i in Sampled(c) && KeyCools(s, i, now) ==>
                  now + v.wait.value <= s.keys[i].coolingUntil.value))
  {
    KeysAgree(s, c, now);
    hide KeyCooling, KeyCools, AnyKeyReady, SomeKeyUp;
    var first := c.a;
    assert first in Sampled(c);
    assert |Sampled(c)| == 2 ==> Sampled(c)[1] in Sampled(c);
    assert forall i :: i in Sampled(c) ==> i == c.a || (|Sampled(c)| == 2 && i == Sampled(c)[1]);
    var w := KeyVerdict(s, c, now).wait;
    if w.Some? {
      var i := if KeyCooling(s, c.a, now) == w then c.a else Sampled(c)[1];
      assert i in Sampled(c) && KeyCools(s, i, now);
      assert s.keys[i].coolingUntil == Some(now + w.value);
    }
  }

  lemma SomeGateRefuses(cfg: Config, s: Table, c: Candidate, now: nat)
    requires !Judge(cfg, s, c, now).dial.Ready?
    ensures exists why :: Refuses(cfg, s, c, now, why)
  {
    KeysAgree(s, c, now);
    var e, r, g := ModelOf(s, c.model), RouteOf(s, CandidateId(cfg, c)), GroupOf(s, c.group);
    if Gone(e, now) {
      assert Refuses(cfg, s, c, now, ModelGone);
    } else if Shut(e, now) {
      assert Refuses(cfg, s, c, now, CircuitShut(e.openUntil.value));
    } else if Ahead(r.disabledUntil, now) {
      assert Refuses(cfg, s, c, now, RouteGone);
    } else if Ahead(g, now) {
      assert Refuses(cfg, s, c, now, GroupCools(g.value));
    } else if !PastCooldown(cfg, s, c, now) {
      assert Refuses(cfg, s, c, now, RouteCools(r.coolingUntil.value));
    } else if ProbeTaken(e) {
      assert Refuses(cfg, s, c, now, ProbeOut);
    } else {
      PastRouteJudged(cfg, s, c, now);
      assert !SomeKeyUp(s, c, now);
      KeysWait(s, c, now);
      hide Judge, PastRoute, SomeKeyUp, KeyCools, KeyVerdict;
      var w := KeyVerdict(s, c, now).wait;
      if w.Some? {
        assert Refuses(cfg, s, c, now, KeysCool(now + w.value));
      } else {
        assert Refuses(cfg, s, c, now, NoKeyLeft);
      }
    }
  }

  /** Past every other gate the verdict is that of the keys. */
  lemma PastRouteJudged(cfg: Config, s: Table, c: Candidate, now: nat)
    requires PastRoute(cfg, s, c, now)
    ensures Judge(cfg, s, c, now) == KeyVerdict(s, c, now)
    ensures SomeKeyUp(s, c, now) <==> KeyVerdict(s, c, now).dial.Ready?
  {
    KeysAgree(s, c, now);
    hide KeyCooling, KeyWait;
  }

  lemma RefusedByKeys(cfg: Config, s: Table, c: Candidate, now: nat, why: Refusal)
    requires Refuses(cfg, s, c, now, why) && (why.KeysCool? || why.NoKeyLeft?)
    ensures var v := Judge(cfg, s, c, now);
      && !v.dial.Ready? && v.wait == (match DueAt(why) case Some(until) => Some(until - now) case None => None)
      && (v.dial.Cooling? ==> v.wait == Some(v.dial.wait))
      && (DueAt(why).Some? ==> now < DueAt(why).value)
  {
    PastRouteJudged(cfg, s, c, now);
    KeysWait(s, c, now);
    hide Judge, PastRoute, SomeKeyUp, KeyVerdict;
  }

  lemma RefusedEarlier(cfg: Config, s: Table, c: Candidate, now: nat, why: Refusal)
    requires Refuses(cfg, s, c, now, why) && !why.KeysCool? && !why.NoKeyLeft?
    ensures var v := Judge(cfg, s, c, now);
      && v.dial.Blocked? && v.wait == (match DueAt(why) case Some(until) => Some(until - now) case None => None)
      && (DueAt(why).Some? ==> now < DueAt(why).value)
  {
    KeysAgree(s, c, now);
    hide KeyVerdict, AnyKeyReady, SomeKeyUp;
  }

  /**
   * A candidate is refused by exactly one gate unless it is ready. Its known wait is what is left of that gate's
   * deadline (of the least one among the keys that cool), and there is none exactly when the model or the route is
   * gone, the probe is out, or none of the sampled keys cools.
   */
  lemma WaitIsTheDeadline(cfg: Config, s: Table, c: Candidate, skipped: set<Identity>, now: nat)
    requires AnyUnskipped(cfg, c, skipped)
    ensures Judge(cfg, s, c, now).dial.Ready? || exists why :: Refuses(cfg, s, c, now, why)
    ensures forall why :: Refuses(cfg, s, c, now, why) ==>
      && !Judge(cfg, s, c, now).dial.Ready?
      && (DueAt(why).Some? ==> now < DueAt(why).value
                               && KnownWait(cfg, s, c, skipped, now) == Some(DueAt(why).value - now))
      && (KnownWait(cfg, s, c, skipped, now).None? <==>
            why.ModelGone? || why.RouteGone? || why.ProbeOut? || why.NoKeyLeft?)
  {
    hide Judge, Refuses, AnyUnskipped;
    if !Judge(cfg, s, c, now).dial.Ready? { SomeGateRefuses(cfg, s, c, now); }
    forall why | Refuses(cfg, s, c, now, why)
      ensures !Judge(cfg, s, c, now).dial.Ready?
      ensures DueAt(why).Some? ==>
        now < DueAt(why).value && KnownWait(cfg, s, c, skipped, now) == Some(DueAt(why).value - now)
      ensures KnownWait(cfg, s, c, skipped, now).None? <==>
        why.ModelGone? || why.RouteGone? || why.ProbeOut? || why.NoKeyLeft?
    {
      if why.KeysCool? || why.NoKeyLeft? {
        RefusedByKeys(cfg, s, c, now, why);
      } else {
        RefusedEarlier(cfg, s, c, now, why);
      }
    }
  }

  /** A wait is never too short: once it is over, the gate that named it is open on the same table. */
  lemma GateOpensAfterTheWait(cfg: Config, s: Table, c: Candidate, skipped: set<Identity>, now: nat, why: Refusal,
                              at: nat)
    requires AnyUnskipped(cfg, c, skipped) && Refuses(cfg, s, c, now, why)
    requires KnownWait(cfg, s, c, skipped, now).Some? && now + KnownWait(cfg, s, c, skipped, now).value <= at
    ensures match why
      case CircuitShut(_) => !Shut(ModelOf(s, c.model), at) && Probing(ModelOf(s, c.model), at)
      case GroupCools(_) => !Ahead(GroupOf(s, c.group), at)
      case RouteCools(_) => !Ahead(RouteOf(s, CandidateId(cfg, c)).coolingUntil, at) && PastCooldown(cfg, s, c, at)
      case KeysCool(_) =>
        exists i :: i in Sampled(c) && KeyCools(s, i, now) && !KeyCools(s, i, at)
      case _ => false
  {
    WaitIsTheDeadline(cfg, s, c, skipped, now);
    hide KnownWait, AnyUnskipped, SomeKeyUp;
  }

  /**
   * Nor too long: until it is over the candidate cannot be dialed, except that a half-open circuit looks past the
   * route's cooldown as soon as a sampled key is up.
   */
  lemma NotReadyBeforeTheWait(cfg: Config, s: Table, c: Candidate, skipped: set<Identity>, now: nat, at: nat)
    requires KnownWait(cfg, s, c, skipped, now).Some?
    requires now <= at < now + KnownWait(cfg, s, c, skipped, now).value
    ensures Judge(cfg, s, c, at).dial.Ready? ==>
      && Probing(ModelOf(s, c.model), now) && !SomeKeyUp(s, c, now) && SomeKeyUp(s, c, at)
      && Ahead(RouteOf(s, CandidateId(cfg, c)).coolingUntil, at)
  {
    WaitIsTheDeadline(cfg, s, c, skipped, now);
    hide KnownWait, AnyUnskipped;
    var why :| Refuses(cfg, s, c, now, why);
    if Judge(cfg, s, c, at).dial.Ready? { ReadyDespite(cfg, s, c, now, why, at); }
  }

  lemma ReadyDespite(cfg: Config, s: Table, c: Candidate, now: nat, why: Refusal, at: nat)
    requires Refuses(cfg, s, c, now, why) && DueAt(why).Some? && now <= at < DueAt(why).value
    requires Judge(cfg, s, c, at).dial.Ready?
    ensures why.RouteCools?
    ensures Probing(ModelOf(s, c.model), now) && !SomeKeyUp(s, c, now) && SomeKeyUp(s, c, at)
  {
    KeysAgree(s, c, at);
    hide KeyCooling, KeyWait, AnyKeyReady;
    assert forall i: nat :: KeyUp(s, i, at) ==> KeyUp(s, i, now) || KeyCools(s, i, now);
  }
}
