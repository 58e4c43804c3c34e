/** Lazy expiry is invisible: tables that differ only by expired deadlines judge every candidate alike from then on. */
module Expiry {
  import opened Options
  import opened ModelCircuit
  import opened Routing

  /** From `from` on the two tables show the same health everywhere. */
  ghost predicate Same(s: Table, s': Table, from: nat) {
    && |s.keys| == |s'.keys|
    && (forall i :: 0 <= i < |s.keys| ==> LiveKey(s.keys[i], from) == LiveKey(s'.keys[i], from))
    && (forall id :: LiveRoute(RouteOf(s, id), from) == LiveRoute(RouteOf(s', id), from))
    && (forall g :: Live(GroupOf(s, g), from) == Live(GroupOf(s', g), from))
    && (forall m :: View(ModelOf(s, m), from) == View(ModelOf(s', m), from))
  }

  lemma LiveLive(d: Option<nat>, from: nat, now: nat)
    requires from <= now
    ensures Live(Live(d, from), now) == Live(d, now)
  {
  }

  lemma ViewView(e: ModelEntry, from: nat, now: nat)
    requires from <= now
    ensures View(View(e, from), now) == View(e, now)
  {
  }

  lemma SameRefl(s: Table, from: nat)
    ensures Same(s, s, from)
  {
  }

  /** What looks the same now looks the same at every later instant. */
  lemma SameLater(s: Table, s': Table, from: nat, now: nat)
    requires Same(s, s', from) && from <= now
    ensures Same(s, s', now)
  {
    forall i | 0 <= i < |s.keys| ensures LiveKey(s.keys[i], now) == LiveKey(s'.keys[i], now) {
      assert LiveKey(s.keys[i], from) == LiveKey(s'.keys[i], from);
      LiveLive(s.keys[i].coolingUntil, from, now);
      LiveLive(s'.keys[i].coolingUntil, from, now);
    }
    forall id ensures LiveRoute(RouteOf(s, id), now) == LiveRoute(RouteOf(s', id), now) {
      assert LiveRoute(RouteOf(s, id), from) == LiveRoute(RouteOf(s', id), from);
      LiveLive(RouteOf(s, id).coolingUntil, from, now);
      LiveLive(RouteOf(s', id).coolingUntil, from, now);
      LiveLive(RouteOf(s, id).disabledUntil, from, now);
      LiveLive(RouteOf(s', id).disabledUntil, from, now);
    }
    forall g ensures Live(GroupOf(s, g), now) == Live(GroupOf(s', g), now) {
      LiveLive(GroupOf(s, g), from, now);
      LiveLive(GroupOf(s', g), from, now);
    }
    forall m ensures View(ModelOf(s, m), now) == View(ModelOf(s', m), now) {
      ViewView(ModelOf(s, m), from, now);
      ViewView(ModelOf(s', m), from, now);
    }
  }

  lemma SameKeyReady(s: Table, s': Table, i: nat, now: nat)
    requires Same(s, s', now)
    ensures KeyReady(s, i, now) == KeyReady(s', i, now)
    ensures KeyCooling(s, i, now) == KeyCooling(s', i, now)
    ensures KeyUnusable(s, i) == KeyUnusable(s', i)
    ensures KeyCost(s, i, false) == KeyCost(s', i, false) && KeyCost(s, i, true) == KeyCost(s', i, true)
  {
    if i < |s.keys| {
      assert LiveKey(s.keys[i], now) == LiveKey(s'.keys[i], now);
      assert Live(s.keys[i].coolingUntil, now) == LiveKey(s.keys[i], now).coolingUntil;
      assert Live(s'.keys[i].coolingUntil, now) == LiveKey(s'.keys[i], now).coolingUntil;
    }
  }

  lemma SameKeyVerdict(s: Table, s': Table, c: Candidate, now: nat)
    requires Same(s, s', now)
    ensures KeyVerdict(s, c, now) == KeyVerdict(s', c, now)
    ensures AnyKeyReady(s, c, now) == AnyKeyReady(s', c, now)
  {
    forall i: nat
      ensures KeyReady(s, i, now) == KeyReady(s', i, now)
      ensures KeyCooling(s, i, now) == KeyCooling(s', i, now)
      ensures KeyUnusable(s, i) == KeyUnusable(s', i)
    { SameKeyReady(s, s', i, now); }
  }

  /** Same health, same verdict, at this and every later instant. */
  lemma SameJudge(cfg: Config, s: Table, s': Table, c: Candidate, from: nat, now: nat)
    requires Same(s, s', from) && from <= now
    ensures Judge(cfg, s, c, now) == Judge(cfg, s', c, now)
  {
    SameLater(s, s', from, now);
    SameKeyVerdict(s, s', c, now);
    var id := CandidateId(cfg, c);
    assert LiveRoute(RouteOf(s, id), now) == LiveRoute(RouteOf(s', id), now);
    assert Live(GroupOf(s, c.group), now) == Live(GroupOf(s', c.group), now);
    assert View(ModelOf(s, c.model), now) == View(ModelOf(s', c.model), now);
    assert Live(RouteOf(s, id).coolingUntil, now) == Live(RouteOf(s', id).coolingUntil, now);
  }

  lemma SameScore(cfg: Config, s: Table, s': Table, c: Candidate, affinity: Option<RouteId>, latency: bool, now: nat)
    requires Same(s, s', now)
    ensures Score(cfg, s, c, affinity, latency) == Score(cfg, s', c, affinity, latency)
  {
    SameKeyReady(s, s', c.a, now);
    if |Sampled(c)| == 2 { SameKeyReady(s, s', Sampled(c)[1], now); }
  }

  lemma SameTrans(s: Table, s': Table, s'': Table, from: nat)
    requires Same(s, s', from) && Same(s', s'', from)
    ensures Same(s, s'', from)
  {
  }

  // --- every view keeps the health ------------------------------------------------

  lemma TouchModelSame(s: Table, m: Name, now: nat)
    ensures Same(s, TouchModel(s, m, now), now)
  {
    ViewView(ModelOf(s, m), now, now);
  }

  lemma TouchRouteSame(s: Table, id: RouteId, now: nat)
    ensures Same(s, TouchRoute(s, id, now), now)
  {
  }

  lemma TouchGroupSame(s: Table, g: Name, now: nat)
    ensures Same(s, TouchGroup(s, g, now), now)
  {
  }

  lemma TouchKeySame(s: Table, i: nat, now: nat)
    ensures Same(s, TouchKey(s, i, now), now)
  {
  }

  lemma TouchSampledSame(s: Table, c: Candidate, now: nat)
    ensures Same(s, TouchSampled(s, c, now), now)
    ensures TouchSampled(s, c, now).rotation == s.rotation && TouchSampled(s, c, now).affinity == s.affinity
  {
    var first := TouchKey(s, c.a, now);
    TouchKeySame(s, c.a, now);
    if !(KeyReady(s, c.a, now) || |Sampled(c)| == 1) {
      TouchKeySame(first, Sampled(c)[1], now);
      SameTrans(s, first, TouchSampled(s, c, now), now);
    }
  }

  /** A dialability check is idempotent: it changes no later verdict, for any candidate. */
  lemma DialSame(cfg: Config, s: Table, c: Candidate, now: nat)
    ensures Same(s, AfterDial(cfg, s, c, now), now)
    ensures AfterDial(cfg, s, c, now).rotation == s.rotation && AfterDial(cfg, s, c, now).affinity == s.affinity
  {
    var s1 := TouchModel(s, c.model, now);
    var s2 := TouchRoute(s1, CandidateId(cfg, c), now);
    var s3 := TouchGroup(s2, c.group, now);
    TouchModelSame(s, c.model, now);
    TouchRouteSame(s1, CandidateId(cfg, c), now);
    TouchGroupSame(s2, c.group, now);
    TouchSampledSame(s3, c, now);
    SameTrans(s, s1, s2, now);
    SameTrans(s, s2, s3, now);
    SameTrans(s, s3, TouchSampled(s3, c, now), now);
  }

  // --- what ready means -------------------------------------------------------------

  predicate Past(deadline: Option<nat>, now: nat) {
    deadline.Some? ==> deadline.value <= now
  }

  /** The gates of the model, the route and the group, spelled out over the raw records. */
  ghost predicate PassesRouteGates(cfg: Config, s: Table, c: Candidate, now: nat) {
    var m, r := ModelOf(s, c.model), RouteOf(s, CandidateId(cfg, c));
    var elapsed := m.state.Open? && m.openUntil.Some? && m.openUntil.value <= now;
    var halfOpen := m.state.HalfOpen? || elapsed;
    && (m.disabled ==> m.disabledUntil.Some? && m.disabledUntil.value <= now)
    && (m.state.Open? ==> Past(m.openUntil, now))
    && Past(r.disabledUntil, now)
    && Past(GroupOf(s, c.group), now)
    && (Past(r.coolingUntil, now) || halfOpen)
    && (m.state.HalfOpen? ==> !m.probeInFlight)
  }

  /** Every health gate, the last one being a sampled key that is ready. */
  ghost predicate PassesEveryGate(cfg: Config, s: Table, c: Candidate, now: nat) {
    && PassesRouteGates(cfg, s, c, now)
    && exists i :: i in Sampled(c) && i < |s.keys| && !s.keys[i].unusable && Past(s.keys[i].coolingUntil, now)
  }

  /** A candidate is Ready exactly when it passes every gate. */
  lemma ReadyExactly(cfg: Config, s: Table, c: Candidate, now: nat)
    ensures Judge(cfg, s, c, now).dial.Ready? <==> PassesEveryGate(cfg, s, c, now)
  {
    assert forall i: nat :: i < |s.keys| ==>
      (KeyReady(s, i, now) <==> !s.keys[i].unusable && Past(s.keys[i].coolingUntil, now));
    assert AnyKeyReady(s, c, now) <==>
      exists i :: i in Sampled(c) && i < |s.keys| && !s.keys[i].unusable && Past(s.keys[i].coolingUntil, now);
  }
}
