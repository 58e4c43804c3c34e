/** What every run keeps: bounded deadlines, exact in-flight counts, and probes that belong to a live guard. */
module RunInvariants {
  import opened Options
  import opened Backoff
  import opened ModelCircuit
  import opened Routing
  import opened Expiry
  import opened Planner
  import opened Runs

  predicate Bounded(deadline: Option<nat>, now: nat) {
    deadline.Some? ==> deadline.value <= now + MAX_ROUTE_WAIT
  }

  /** An Open circuit and a missing model both carry a deadline, and an Open circuit has no probe out. */
  predicate GoodModel(e: ModelEntry, now: nat) {
    && (e.state.Open? ==> e.openUntil.Some? && !e.probeInFlight)
    && (e.disabled ==> e.disabledUntil.Some?)
    && Bounded(e.openUntil, now) && Bounded(e.disabledUntil, now)
  }

  /** No deadline anywhere lies more than a day ahead. */
  ghost predicate AllGood(s: Table, now: nat) {
    && (forall i :: 0 <= i < |s.keys| ==> Bounded(s.keys[i].coolingUntil, now))
    && (forall id :: Bounded(RouteOf(s, id).coolingUntil, now) && Bounded(RouteOf(s, id).disabledUntil, now))
    && (forall g :: Bounded(GroupOf(s, g), now))
    && (forall m :: GoodModel(ModelOf(s, m), now))
  }

  function Holding(guards: map<nat, Guard>, key: nat): set<nat> {
    set id: nat | id in guards && guards[id].key == key
  }

  /** Each key's in-flight count is the number of live guards on it. */
  predicate CountsGuards(w: World) {
    && (forall id :: id in w.guards ==> id < w.nextId)
    && forall k :: 0 <= k < |w.table.keys| ==> w.table.keys[k].inflight == |Holding(w.guards, k)|
  }

  predicate HeldBy(guards: map<nat, Guard>, m: Name) {
    exists id :: id in guards && guards[id].model == m && guards[id].holdsProbe
  }

  /** A model's probe slot is taken only while some live guard holds it. */
  ghost predicate ProbesAreHeld(w: World) {
    forall m :: ModelOf(w.table, m).probeInFlight ==> HeldBy(w.guards, m)
  }

  ghost predicate Inv(cfg: Config, w: World) {
    |w.table.keys| == |cfg.groups| && AllGood(w.table, w.clock) && CountsGuards(w) && ProbesAreHeld(w)
  }

  // --- deadlines ------------------------------------------------------------------------

  lemma GoodLater(s: Table, now: nat, later: nat)
    requires AllGood(s, now) && now <= later
    ensures AllGood(s, later)
  {
  }

  lemma LookingKeepsGood(s: Table, s': Table, now: nat, later: nat)
    requires AllGood(s, now) && now <= later && Same(s, s', later) && OnlyLooked(s, s', now)
    ensures AllGood(s', later)
  {
    forall i | 0 <= i < |s'.keys| ensures Bounded(s'.keys[i].coolingUntil, later) {
      assert LiveKey(s.keys[i], later) == LiveKey(s'.keys[i], later);
      assert Live(s.keys[i].coolingUntil, later) == Live(s'.keys[i].coolingUntil, later);
    }
    forall id ensures Bounded(RouteOf(s', id).coolingUntil, later) && Bounded(RouteOf(s', id).disabledUntil, later) {
      assert LiveRoute(RouteOf(s, id), later) == LiveRoute(RouteOf(s', id), later);
      assert Live(RouteOf(s, id).coolingUntil, later) == Live(RouteOf(s', id).coolingUntil, later);
      assert Live(RouteOf(s, id).disabledUntil, later) == Live(RouteOf(s', id).disabledUntil, later);
    }
    forall g ensures Bounded(GroupOf(s', g), later) {
      assert Live(GroupOf(s, g), later) == Live(GroupOf(s', g), later);
    }
    forall m ensures GoodModel(ModelOf(s', m), later) {
      assert ModelOf(s', m) == ModelOf(s, m) || ModelOf(s', m) == View(ModelOf(s, m), now);
      assert GoodModel(ModelOf(s, m), now);
    }
  }

  /** What a looking step does: health as before, models at most expired. */
  ghost predicate LooksOnly(s: Table, s': Table, now: nat, later: nat) {
    Same(s, s', later) && OnlyLooked(s, s', now)
  }

  lemma PlanLooks(cfg: Config, s: Table, spec: RouteSpec, tag: string, skipped: set<Identity>, now: nat, later: nat)
    requires now <= later
    ensures LooksOnly(s, Plan(cfg, s, spec, tag, skipped, now, later).0, now, later)
  {
    hide Meaning, Same, OnlyLooked;
    PlanOnlyLooks(cfg, s, spec, tag, skipped, now, later);
    if Known(cfg, spec) { PlanMeans(cfg, s, spec, tag, skipped, now, later); } else { SameRefl(s, later); }
  }

  predicate LookingEvent(e: Event) {
    e.Planned? || e.FollowedUp? || e.Checked? || e.CheckedKey?
  }

  function StartOf(w: World, e: Event): nat
    requires LookingEvent(e)
  {
    w.clock + e.dt
  }

  lemma BreakLooks(s: Table, s': Table, s'': Table, now: nat, later: nat)
    requires s'.keys == s.keys && s'.routes == s.routes && s'.groups == s.groups && s'.models == s.models
    requires LooksOnly(s', s'', now, later)
    ensures LooksOnly(s, s'', now, later)
  {
    forall id ensures LiveRoute(RouteOf(s, id), later) == LiveRoute(RouteOf(s'', id), later) {
      assert RouteOf(s, id) == RouteOf(s', id);
    }
    forall g ensures Live(GroupOf(s, g), later) == Live(GroupOf(s'', g), later) {
      assert GroupOf(s, g) == GroupOf(s', g);
    }
    forall m ensures View(ModelOf(s, m), later) == View(ModelOf(s'', m), later) {
      assert ModelOf(s, m) == ModelOf(s', m);
    }
    forall m ensures ModelOf(s'', m) == ModelOf(s, m) || ModelOf(s'', m) == View(ModelOf(s, m), now) {
      assert ModelOf(s, m) == ModelOf(s', m);
    }
  }

  lemma LookingStep(cfg: Config, w: World, e: Event)
    requires LookingEvent(e)
    ensures LooksOnly(w.table, TableAfter(cfg, w, e), StartOf(w, e), EndOf(w, e))
  {
    hide Plan, AfterDial, Same, OnlyLooked;
    var now := StartOf(w, e);
    match e
    case Planned(dt, lag, spec, tag, skipped) => PlanLooks(cfg, w.table, spec, tag, skipped, now, now + lag);
    case FollowedUp(dt, lag, spec, tag, failed, skipped) =>
      var s' := BreakAffinity(w.table, tag);
      PlanLooks(cfg, s', spec, NO_SESSION, skipped + {IdentityOf(cfg, failed)}, now, now + lag);
      BreakLooks(w.table, s', TableAfter(cfg, w, e), now, now + lag);
    case Checked(dt, c) => DialSame(cfg, w.table, c, now); DialOnlyLooks(cfg, w.table, c, now);
    case CheckedKey(dt, i) =>
      TouchKeySame(w.table, i, now);
      SameModelsLooked(w.table, TouchKey(w.table, i, now), now);
  }

  /** A model stays good under every circuit operation that does not predate the clock. */
  lemma OpKeepsGood(e: ModelEntry, op: ModelOp, th: Thresholds, clock: nat, now: nat)
    requires GoodModel(e, clock) && clock <= now && (Timed(op) ==> op.now == now)
    ensures GoodModel(Apply(e, op, th), now)
  {
    hide Observe;
  }

  lemma StepKeepsGoodModels(cfg: Config, w: World, e: Event, m: Name)
    requires GoodModel(ModelOf(w.table, m), w.clock) && !LookingEvent(e)
    ensures GoodModel(ModelOf(TableAfter(cfg, w, e), m), EndOf(w, e))
  {
    StepProjects(cfg, w, e, m);
    hide TableAfter, Apply;
    var ops, before := OpsOf(cfg, w, e, m), ModelOf(w.table, m);
    assert ApplyAll(before, [], cfg.thresholds) == before;
    if ops != [] {
      assert ops == [ops[0]];
      ApplyOne(before, ops[0], cfg.thresholds);
      OpKeepsGood(before, ops[0], cfg.thresholds, w.clock, EndOf(w, e));
    }
  }

  lemma RecordingKeepsKeysBounded(cfg: Config, w: World, e: Event)
    requires !LookingEvent(e) && forall i :: 0 <= i < |w.table.keys| ==> Bounded(w.table.keys[i].coolingUntil, w.clock)
    ensures var s := TableAfter(cfg, w, e);
      forall i :: 0 <= i < |s.keys| ==> Bounded(s.keys[i].coolingUntil, EndOf(w, e))
  {
    hide BarrierDuration, RecordFailure, RecordMissing, RecordSuccess;
    hide TakeProbe, ReleaseProbe, DropProbe, KeyHasAlternatives;
  }

  lemma RecordingKeepsRouteBounded(cfg: Config, w: World, e: Event, id: RouteId)
    requires !LookingEvent(e)
    requires Bounded(RouteOf(w.table, id).coolingUntil, w.clock) && Bounded(RouteOf(w.table, id).disabledUntil, w.clock)
    ensures var r := RouteOf(TableAfter(cfg, w, e), id);
      Bounded(r.coolingUntil, EndOf(w, e)) && Bounded(r.disabledUntil, EndOf(w, e))
  {
    hide BarrierDuration, RecordFailure, RecordMissing, RecordSuccess;
    hide TakeProbe, ReleaseProbe, DropProbe, KeyHasAlternatives;
  }

  lemma RecordingKeepsGroupBounded(cfg: Config, w: World, e: Event, g: Name)
    requires !LookingEvent(e) && Bounded(GroupOf(w.table, g), w.clock)
    ensures Bounded(GroupOf(TableAfter(cfg, w, e), g), EndOf(w, e))
  {
    hide BarrierDuration, RecordFailure, RecordMissing, RecordSuccess;
    hide TakeProbe, ReleaseProbe, DropProbe, KeyHasAlternatives;
  }

  lemma StepKeepsGoodCooldowns(cfg: Config, w: World, e: Event)
    requires AllGood(w.table, w.clock) && !LookingEvent(e)
    ensures var s, now := TableAfter(cfg, w, e), EndOf(w, e);
      && (forall i :: 0 <= i < |s.keys| ==> Bounded(s.keys[i].coolingUntil, now))
      && (forall id :: Bounded(RouteOf(s, id).coolingUntil, now) && Bounded(RouteOf(s, id).disabledUntil, now))
      && (forall g :: Bounded(GroupOf(s, g), now))
  {
    hide TableAfter, EndOf, GoodModel;
    var s, now := TableAfter(cfg, w, e), EndOf(w, e);
    RecordingKeepsKeysBounded(cfg, w, e);
    forall id ensures Bounded(RouteOf(s, id).coolingUntil, now) && Bounded(RouteOf(s, id).disabledUntil, now) {
      RecordingKeepsRouteBounded(cfg, w, e, id);
    }
    forall g ensures Bounded(GroupOf(s, g), now) { RecordingKeepsGroupBounded(cfg, w, e, g); }
  }

  lemma StepKeepsGood(cfg: Config, w: World, e: Event)
    requires AllGood(w.table, w.clock)
    ensures AllGood(TableAfter(cfg, w, e), EndOf(w, e))
  {
    hide TableAfter, EndOf;
    if LookingEvent(e) {
      hide AllGood, Same, OnlyLooked;
      LookingStep(cfg, w, e);
      LookingEnds(w, e);
      GoodLater(w.table, w.clock, StartOf(w, e));
      LookingKeepsGood(w.table, TableAfter(cfg, w, e), StartOf(w, e), EndOf(w, e));
    } else {
      StepKeepsGoodCooldowns(cfg, w, e);
      forall m ensures GoodModel(ModelOf(TableAfter(cfg, w, e), m), EndOf(w, e)) { StepKeepsGoodModels(cfg, w, e, m); }
    }
  }

  lemma LookingEnds(w: World, e: Event)
    requires LookingEvent(e)
    ensures w.clock <= StartOf(w, e) <= EndOf(w, e)
  {
  }

  // --- guards -------------------------------------------------------------------------------

  lemma LookingKeepsInflight(s: Table, s': Table, now: nat, later: nat)
    requires LooksOnly(s, s', now, later)
    ensures |s'.keys| == |s.keys| && forall k :: 0 <= k < |s.keys| ==> s'.keys[k].inflight == s.keys[k].inflight
  {
    forall k | 0 <= k < |s.keys| ensures s'.keys[k].inflight == s.keys[k].inflight {
      assert LiveKey(s.keys[k], later) == LiveKey(s'.keys[k], later);
    }
  }

  lemma BeginCounts(guards: map<nat, Guard>, id: nat, g: Guard, k: nat)
    requires id !in guards
    ensures |Holding(guards[id := g], k)| == |Holding(guards, k)| + (if g.key == k then 1 else 0)
  {
    if g.key == k {
      assert Holding(guards[id := g], k) == Holding(guards, k) + {id};
    } else {
      assert Holding(guards[id := g], k) == Holding(guards, k);
    }
  }

  lemma DropCounts(guards: map<nat, Guard>, id: nat, k: nat)
    requires id in guards
    ensures |Holding(guards - {id}, k)| == |Holding(guards, k)| - (if guards[id].key == k then 1 else 0)
  {
    if guards[id].key == k {
      assert Holding(guards, k) == Holding(guards - {id}, k) + {id};
    } else {
      assert Holding(guards - {id}, k) == Holding(guards, k);
    }
  }

  lemma ReleaseCounts(guards: map<nat, Guard>, id: nat, k: nat)
    requires id in guards
    ensures Holding(guards[id := guards[id].(holdsProbe := false)], k) == Holding(guards, k)
  {
  }

  /** Only taking and dropping a guard moves an in-flight count. */
  lemma RecordingCounts(cfg: Config, w: World, e: Event, k: nat)
    requires !LookingEvent(e) && k < |w.table.keys|
    ensures var s, n := TableAfter(cfg, w, e), w.table.keys[k].inflight;
      |s.keys| == |w.table.keys| &&
      s.keys[k].inflight ==
        if e.Began? && e.target.key == k then n + 1
        else if e.Dropped? && e.id in w.guards && w.guards[e.id].key == k then Max(n - 1, 0) else n
  {
    hide BarrierDuration, RecordFailure, RecordMissing, RecordSuccess;
    hide TakeProbe, ReleaseProbe, DropProbe, KeyHasAlternatives;
  }

  lemma RecordingKeepsKeys(cfg: Config, w: World, e: Event)
    requires !LookingEvent(e)
    ensures |TableAfter(cfg, w, e).keys| == |w.table.keys|
  {
    hide BarrierDuration, RecordFailure, RecordMissing, RecordSuccess;
    hide TakeProbe, ReleaseProbe, DropProbe, KeyHasAlternatives;
  }

  lemma StepKeepsCounts(cfg: Config, w: World, e: Event)
    requires CountsGuards(w)
    ensures |Runs.Step(cfg, w, e).table.keys| == |w.table.keys| && CountsGuards(Runs.Step(cfg, w, e))
  {
    hide TableAfter, OpensAfter, EndOf;
    if LookingEvent(e) {
      LookingStep(cfg, w, e);
      LookingKeepsInflight(w.table, TableAfter(cfg, w, e), StartOf(w, e), EndOf(w, e));
    } else {
      RecordingKeepsKeys(cfg, w, e);
      forall k | 0 <= k < |w.table.keys|
        ensures TableAfter(cfg, w, e).keys[k].inflight == |Holding(GuardsAfter(w, e), k)|
      {
        RecordingCounts(cfg, w, e, k);
        match e
        case Began(t) => BeginCounts(w.guards, w.nextId, GuardsAfter(w, e)[w.nextId], k);
        case Dropped(id) =>
          if id in w.guards { DropCounts(w.guards, id, k); } else { assert w.guards - {id} == w.guards; }
        case Released(id) => if id in w.guards { ReleaseCounts(w.guards, id, k); }
        case _ =>
      }
    }
  }

  lemma StillHeld(guards: map<nat, Guard>, guards': map<nat, Guard>, m: Name)
    requires HeldBy(guards, m)
    requires forall id :: id in guards && guards[id].model == m && guards[id].holdsProbe ==>
      id in guards' && guards'[id] == guards[id]
    ensures HeldBy(guards', m)
  {
  }

  lemma StepKeepsProbes(cfg: Config, w: World, e: Event)
    requires ProbesAreHeld(w) && CountsGuards(w) && AllGood(w.table, w.clock)
    ensures ProbesAreHeld(Runs.Step(cfg, w, e))
  {
    hide TableAfter, OpensAfter, EndOf, AllGood;
    var guards' := GuardsAfter(w, e);
    forall m | ModelOf(TableAfter(cfg, w, e), m).probeInFlight ensures HeldBy(guards', m) {
      StepProjects(cfg, w, e, m);
      ProbeNeedsAGuard(cfg, w, e, m);
    }
  }

  /** One model at a time: the step either leaves the holder alone or hands the probe to the new guard. */
  lemma ProbeNeedsAGuard(cfg: Config, w: World, e: Event, m: Name)
    requires ModelOf(w.table, m).probeInFlight ==> HeldBy(w.guards, m)
    requires CountsGuards(w)
    requires ModelOf(TableAfter(cfg, w, e), m) == ApplyAll(ModelOf(w.table, m), OpsOf(cfg, w, e, m), cfg.thresholds)
    requires ModelOf(TableAfter(cfg, w, e), m).probeInFlight
    ensures HeldBy(GuardsAfter(w, e), m)
  {
    hide TableAfter, EndOf, Observe;
    var ops, before := OpsOf(cfg, w, e, m), ModelOf(w.table, m);
    assert |ops| <= 1;
    assert ApplyAll(before, [], cfg.thresholds) == before;
    if ops != [] { assert ops == [ops[0]]; ApplyOne(before, ops[0], cfg.thresholds); }
    if ops == [TookProbe] && OffersProbe(before) {
      assert GuardsAfter(w, e)[w.nextId].model == m;
    } else {
      assert before.probeInFlight;
      StillHeld(w.guards, GuardsAfter(w, e), m);
    }
  }

  // --- every run ---------------------------------------------------------------------------------

  lemma StepKeeps(cfg: Config, w: World, e: Event)
    requires Inv(cfg, w)
    ensures Inv(cfg, Runs.Step(cfg, w, e))
  {
    hide AllGood, CountsGuards, ProbesAreHeld, TableAfter, GuardsAfter, OpensAfter, EndOf;
    StepKeepsGood(cfg, w, e);
    StepKeepsCounts(cfg, w, e);
    StepKeepsProbes(cfg, w, e);
  }

  lemma FreshIsGood(cfg: Config)
    ensures Inv(cfg, FreshWorld(cfg))
  {
    assert forall k :: Holding(map[], k) == {};
  }

  lemma {:induction false} RunKeepsInv(cfg: Config, w: World, es: seq<Event>)
    requires Inv(cfg, w)
    ensures Inv(cfg, Run(cfg, w, es)) && w.clock <= Run(cfg, w, es).clock
  {
    hide Inv, TableAfter, GuardsAfter, OpensAfter;
    if es != [] {
      RunKeepsInv(cfg, w, es[..|es| - 1]);
      StepKeeps(cfg, Run(cfg, w, es[..|es| - 1]), es[|es| - 1]);
    }
  }

  /** Every interleaving of planning, attempts, outcomes and guard drops keeps the invariant. */
  lemma RunsKeepInv(cfg: Config, es: seq<Event>)
    ensures Inv(cfg, Run(cfg, FreshWorld(cfg), es))
  {
    hide Inv;
    FreshIsGood(cfg);
    RunKeepsInv(cfg, FreshWorld(cfg), es);
  }

  /** Once every guard is gone, nothing is counted in flight and no probe slot is taken. */
  lemma QuiescenceReleasesEverything(cfg: Config, es: seq<Event>)
    requires Run(cfg, FreshWorld(cfg), es).guards == map[]
    ensures var s := Run(cfg, FreshWorld(cfg), es).table;
      && (forall k :: 0 <= k < |s.keys| ==> s.keys[k].inflight == 0)
      && (forall m :: !ModelOf(s, m).probeInFlight)
  {
    hide Run;
    RunsKeepInv(cfg, es);
    var w := Run(cfg, FreshWorld(cfg), es);
    assert forall k :: Holding(w.guards, k) == {};
    forall m ensures !ModelOf(w.table, m).probeInFlight {
      assert ModelOf(w.table, m).probeInFlight ==> HeldBy(w.guards, m);
    }
  }

  // --- bounded recovery ------------------------------------------------------------------------

  predicate SomeKeyAccepted(s: Table, c: Candidate) {
    exists i :: i in Sampled(c) && i < |s.keys| && !s.keys[i].unusable
  }

  /**
   * Bounded recovery: after any run that left no guard alive, a day without events makes a candidate ready
   * exactly when some key it samples has not been rejected by a 401.
   */
  lemma RecoversWithinADay(cfg: Config, es: seq<Event>, c: Candidate, t: nat)
    requires Run(cfg, FreshWorld(cfg), es).guards == map[]
    requires Run(cfg, FreshWorld(cfg), es).clock + MAX_ROUTE_WAIT <= t
    ensures var s := Run(cfg, FreshWorld(cfg), es).table;
            Judge(cfg, s, c, t).dial.Ready? <==> SomeKeyAccepted(s, c)
  {
    hide Run, Judge, CountsGuards;
    var w := Run(cfg, FreshWorld(cfg), es);
    RunsKeepInv(cfg, es);
    QuiescenceReleasesEverything(cfg, es);
    ReadyExactly(cfg, w.table, c, t);
    assert GoodModel(ModelOf(w.table, c.model), w.clock);
    var id := CandidateId(cfg, c);
    assert Bounded(RouteOf(w.table, id).coolingUntil, w.clock) && Bounded(RouteOf(w.table, id).disabledUntil, w.clock);
    assert Bounded(GroupOf(w.table, c.group), w.clock);
  }

  /** So the first tier serves again whenever one of its candidates samples an accepted key, and only then. */
  lemma PlansAfterAQuietDay(cfg: Config, es: seq<Event>, spec: RouteSpec, tag: string, now: nat, later: nat)
    requires Known(cfg, spec) && |ProfileOf(cfg, spec).tiers| > 0
    requires Run(cfg, FreshWorld(cfg), es).guards == map[]
    requires Run(cfg, FreshWorld(cfg), es).clock + MAX_ROUTE_WAIT <= now <= later
    ensures var s := Run(cfg, FreshWorld(cfg), es).table;
            var r := Plan(cfg, s, spec, tag, {}, now, later).1;
      r.Planned? && r.target.tier == 0 <==>
        exists c :: c in CandidatesOf(cfg, s, ProfileOf(cfg, spec).tiers, 0) && SomeKeyAccepted(s, c)
  {
    hide Run, Judge, Plan, CandidatesOf, SomeKeyAccepted;
    var s := Run(cfg, FreshWorld(cfg), es).table;
    PlansTierExactly(cfg, s, spec, tag, {}, now, later, 0);
    forall c ensures Dialable(cfg, s, c, {}, now) <==> SomeKeyAccepted(s, c) {
      RecoversWithinADay(cfg, es, c, now);
      assert c.a in Sampled(c);
    }
  }
}
