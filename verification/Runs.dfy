/** Runs of the shared table: every interleaving of planning, attempts, outcomes and guard drops. */
module Runs {
  import opened Options
  import opened Backoff
  import opened ModelCircuit
  import opened Routing
  import opened Expiry

  datatype Guard = Guard(key: nat, model: Name, holdsProbe: bool)

  /** The table, the guards alive, the last instant seen, the circuit-open counter, and the streaks requests read. */
  datatype World = World(
    table: Table, guards: map<nat, Guard>, nextId: nat, clock: nat, opens: nat, readings: map<nat, nat>)

  /** One atomic step; `dt` is the time since the previous one. */
  datatype Event =
    | Planned(dt: nat, lag: nat, spec: RouteSpec, tag: string, skipped: set<Identity>)
    | FollowedUp(dt: nat, lag: nat, spec: RouteSpec, tag: string, failed: RouteTarget, skipped: set<Identity>)
    | Checked(dt: nat, candidate: Candidate)
    | CheckedKey(dt: nat, key: nat)
    | Began(target: RouteTarget)
    | Released(id: nat)
    | Dropped(id: nat)
    | Served(target: RouteTarget, latencyCost: nat)
    | StreakRead(reader: nat, target: RouteTarget)
    | RateLimited(dt: nat, reader: nat, target: RouteTarget, attempt: nat, hint: Option<nat>, jitter: real)
    | QuotaExhausted(dt: nat, target: RouteTarget, cooldown: nat)
    | Rejected(target: RouteTarget)
    | Missing(dt: nat, target: RouteTarget)
    | Transient(dt: nat, target: RouteTarget, attempt: nat, hint: Option<nat>, jitter: real)
    | Repinned(affinity: map<string, AffinityEntry>)
    | Waited(dt: nat)

  function FreshWorld(cfg: Config): World {
    World(FreshTable(cfg), map[], 0, 0, 0, map[])
  }

  /** A 429 without an authoritative hint climbs from the streak its request read, which may be stale by then. */
  function StreakFor(w: World, reader: nat, hint: Option<nat>): nat {
    if hint.None? && reader in w.readings then w.readings[reader] else 0
  }

  function Bump(tr: Transition): nat {
    if OpensCircuit(tr) then 1 else 0
  }

  function EndOf(w: World, e: Event): nat {
    match e
    case Planned(dt, lag, _, _, _) => w.clock + dt + lag
    case FollowedUp(dt, lag, _, _, _, _) => w.clock + dt + lag
    case Checked(dt, _) => w.clock + dt
    case CheckedKey(dt, _) => w.clock + dt
    case RateLimited(dt, _, _, _, _, _) => w.clock + dt
    case QuotaExhausted(dt, _, _) => w.clock + dt
    case Missing(dt, _) => w.clock + dt
    case Transient(dt, _, _, _, _) => w.clock + dt
    case Waited(dt) => w.clock + dt
    case _ => w.clock
  }

  function TableAfter(cfg: Config, w: World, e: Event): Table {
    var s := w.table;
    match e
    case Planned(dt, lag, spec, tag, skipped) => Plan(cfg, s, spec, tag, skipped, w.clock + dt, w.clock + dt + lag).0
    case FollowedUp(dt, lag, spec, tag, failed, skipped) =>
      Followup(cfg, s, spec, tag, failed, skipped, w.clock + dt, w.clock + dt + lag).0
    case Checked(dt, c) => AfterDial(cfg, s, c, w.clock + dt)
    case CheckedKey(dt, i) => TouchKey(s, i, w.clock + dt)
    case Began(t) => BeginAttempt(s, t)
    case Released(id) =>
      if id in w.guards && w.guards[id].holdsProbe then ReleaseModelProbe(s, w.guards[id].model) else s
    case Dropped(id) =>
      if id in w.guards then DropGuard(s, w.guards[id].key, w.guards[id].model, w.guards[id].holdsProbe) else s
    case Served(t, cost) => NoteSuccess(cfg, s, t, cost)
    case StreakRead(_, _) => s
    case RateLimited(dt, reader, t, attempt, hint, jitter) =>
      NoteRateLimited(cfg, s, t, attempt, StreakFor(w, reader, hint), hint, jitter, w.clock + dt)
    case QuotaExhausted(dt, t, cooldown) => NoteQuotaExhausted(cfg, s, t, cooldown, w.clock + dt)
    case Rejected(t) => NoteAuthenticationFailure(cfg, s, t)
    case Missing(dt, t) => NoteModelMissing(cfg, s, t, w.clock + dt)
    case Transient(dt, t, attempt, hint, jitter) => NoteTransientFailure(cfg, s, t, attempt, hint, jitter, w.clock + dt)
    case Repinned(affinity) => s.(affinity := affinity)
    case Waited(_) => s
  }

  function GuardsAfter(w: World, e: Event): map<nat, Guard> {
    match e
    case Began(t) => w.guards[w.nextId := Guard(t.key, t.model, OffersProbe(ModelOf(w.table, t.model)))]
    case Released(id) => if id in w.guards then w.guards[id := w.guards[id].(holdsProbe := false)] else w.guards
    case Dropped(id) => w.guards - {id}
    case _ => w.guards
  }

  function OpensAfter(cfg: Config, w: World, e: Event): nat {
    match e
    case RateLimited(dt, _, t, _, _, _) => w.opens + Bump(FailTransition(cfg, w.table, t, w.clock + dt))
    case Transient(dt, t, _, _, _) => w.opens + Bump(FailTransition(cfg, w.table, t, w.clock + dt))
    case _ => w.opens
  }

  function ReadingsAfter(w: World, e: Event): map<nat, nat> {
    if e.StreakRead? then w.readings[e.reader := KeyOf(w.table, e.target.key).streak] else w.readings
  }

  function Step(cfg: Config, w: World, e: Event): World {
    World(TableAfter(cfg, w, e), GuardsAfter(w, e), if e.Began? then w.nextId + 1 else w.nextId,
          EndOf(w, e), OpensAfter(cfg, w, e), ReadingsAfter(w, e))
  }

  /** The events in order, oldest first. */
  function Run(cfg: Config, w: World, es: seq<Event>): World {
    if es == [] then w else Step(cfg, Run(cfg, w, es[..|es| - 1]), es[|es| - 1])
  }

  // --- what each step does to one model -----------------------------------------------

  /** Looking never does more to a model than expire its deadlines. */
  ghost predicate OnlyLooked(s: Table, s': Table, now: nat) {
    forall m :: ModelOf(s', m) == ModelOf(s, m) || ModelOf(s', m) == View(ModelOf(s, m), now)
  }

  lemma OnlyLookedTrans(s: Table, s': Table, s'': Table, now: nat)
    requires OnlyLooked(s, s', now) && OnlyLooked(s', s'', now)
    ensures OnlyLooked(s, s'', now)
  {
    forall m ensures ModelOf(s'', m) == ModelOf(s, m) || ModelOf(s'', m) == View(ModelOf(s, m), now) {
      assert ModelOf(s', m) == ModelOf(s, m) || ModelOf(s', m) == View(ModelOf(s, m), now);
      ViewView(ModelOf(s, m), now, now);
    }
  }

  lemma DialOnlyLooks(cfg: Config, s: Table, c: Candidate, now: nat)
    ensures OnlyLooked(s, AfterDial(cfg, s, c, now), now)
  {
    hide Sampled;
    var s1 := TouchModel(s, c.model, now);
    assert AfterDial(cfg, s, c, now).models == s1.models;
  }

  lemma {:induction false} ScanOnlyLooks(cfg: Config, x: Scan, cs: seq<Candidate>, ctx: PlanContext)
    ensures OnlyLooked(x.table, ScanAll(cfg, x, cs, ctx).table, ctx.now)
  {
    hide OnlyLooked, AfterDial, Judge;
    if cs == [] {
      NothingLooked(x.table, ctx.now);
    } else {
      var n := |cs| - 1;
      var y := ScanAll(cfg, x, cs[..n], ctx);
      ScanOnlyLooks(cfg, x, cs[..n], ctx);
      DialOnlyLooks(cfg, y.table, cs[n], ctx.now);
      OnlyLookedTrans(x.table, y.table, AfterDial(cfg, y.table, cs[n], ctx.now), ctx.now);
    }
  }

  lemma NothingLooked(s: Table, now: nat)
    ensures OnlyLooked(s, s, now)
  {
  }

  lemma SameModelsLooked(s: Table, s': Table, now: nat)
    requires s'.models == s.models
    ensures OnlyLooked(s, s', now)
  {
  }

  lemma {:induction false} PlanFromOnlyLooks(cfg: Config, s: Table, tiers: seq<Tier>, tier: nat, allowLower: bool,
                                             ctx: PlanContext, gate: Option<GateReason>, wait: Option<nat>,
                                             later: nat)
    requires tier <= |tiers|
    ensures OnlyLooked(s, PlanFrom(cfg, s, tiers, tier, allowLower, ctx, gate, wait, later).0, ctx.now)
    decreases |tiers| - tier
  {
    hide OnlyLooked, ScanAll, TierCandidates, Order;
    if tier == |tiers| {
      NothingLooked(s, ctx.now);
    } else {
      var x := ScanTier(cfg, s, tiers[tier].models, gate, ctx);
      ScanOnlyLooks(cfg, Scan(s, [], None, false, gate), TierCandidates(cfg, s.rotation, tiers[tier].models), ctx);
      if x.available != [] {
        var s' := Select(cfg, x, tier, ctx, later).0;
        assert s'.models == x.table.models;
        SameModelsLooked(x.table, s', ctx.now);
        OnlyLookedTrans(s, x.table, s', ctx.now);
      } else if x.wait.None? || allowLower {
        var wait' := if x.wait.None? then wait else Sooner(wait, x.wait.value);
        PlanFromOnlyLooks(cfg, x.table, tiers, tier + 1, allowLower, ctx, x.gate, wait', later);
        OnlyLookedTrans(s, x.table, PlanFrom(cfg, x.table, tiers, tier + 1, allowLower, ctx, x.gate, wait', later).0,
                        ctx.now);
      }
    }
  }

  lemma PlanOnlyLooks(cfg: Config, s: Table, spec: RouteSpec, tag: string, skipped: set<Identity>, now: nat, later: nat)
    ensures OnlyLooked(s, Plan(cfg, s, spec, tag, skipped, now, later).0, now)
  {
    hide PlanFrom;
    if Known(cfg, spec) {
      var p := ProfileOf(cfg, spec);
      var (s1, affinity) := AffinityRoute(s, tag, now);
      PlanFromOnlyLooks(cfg, s1, p.tiers, 0, p.allowLowerTier,
                        PlanContext(now, affinity, p.latencyOptimized, skipped), None, None, later);
    }
  }

  /** The operations one step performs on one model's entry: at most one. */
  function OpsOf(cfg: Config, w: World, e: Event, m: Name): seq<ModelOp> {
    var changed := ModelOf(TableAfter(cfg, w, e), m) != ModelOf(w.table, m);
    match e
    case Planned(dt, _, _, _, _) => if changed then [Looked(w.clock + dt)] else []
    case FollowedUp(dt, _, _, _, _, _) => if changed then [Looked(w.clock + dt)] else []
    case Checked(dt, _) => if changed then [Looked(w.clock + dt)] else []
    case Began(t) => if t.model == m then [TookProbe] else []
    case Released(id) =>
      if id in w.guards && w.guards[id].holdsProbe && w.guards[id].model == m then [ReleasedProbe] else []
    case Dropped(id) =>
      if id in w.guards && w.guards[id].holdsProbe && w.guards[id].model == m then [DroppedProbe] else []
    case Served(t, _) => if t.model == m then [Succeeded] else []
    case RateLimited(dt, _, t, _, _, _) => if t.model == m then [Failed(cfg.hash(t.group), w.clock + dt)] else []
    case Transient(dt, t, _, _, _) => if t.model == m then [Failed(cfg.hash(t.group), w.clock + dt)] else []
    case Missing(dt, t) => if t.model == m then [Missed(cfg.hash(t.group), w.clock + dt)] else []
    case _ => []
  }

  lemma ApplyOne(e: ModelEntry, op: ModelOp, th: Thresholds)
    ensures ApplyAll(e, [op], th) == Apply(e, op, th)
  {
  }

  lemma LookingProjects(cfg: Config, w: World, e: Event, m: Name)
    requires e.Planned? || e.FollowedUp? || e.Checked?
    ensures ModelOf(Step(cfg, w, e).table, m) == ApplyAll(ModelOf(w.table, m), OpsOf(cfg, w, e, m), cfg.thresholds)
  {
    hide Plan, AfterDial;
    match e
    case Planned(dt, lag, spec, tag, skipped) =>
      PlanOnlyLooks(cfg, w.table, spec, tag, skipped, w.clock + dt, w.clock + dt + lag);
      ApplyOne(ModelOf(w.table, m), Looked(w.clock + dt), cfg.thresholds);
    case FollowedUp(dt, lag, spec, tag, failed, skipped) =>
      PlanOnlyLooks(cfg, BreakAffinity(w.table, tag), spec, NO_SESSION, skipped + {IdentityOf(cfg, failed)},
                    w.clock + dt, w.clock + dt + lag);
      assert ModelOf(BreakAffinity(w.table, tag), m) == ModelOf(w.table, m);
      ApplyOne(ModelOf(w.table, m), Looked(w.clock + dt), cfg.thresholds);
    case Checked(dt, c) =>
      DialOnlyLooks(cfg, w.table, c, w.clock + dt);
      ApplyOne(ModelOf(w.table, m), Looked(w.clock + dt), cfg.thresholds);
  }

  lemma FreshFixed()
    ensures ReleaseProbe(FRESH_MODEL) == DropProbe(FRESH_MODEL) == RecordSuccess(FRESH_MODEL) == FRESH_MODEL
  {
  }

  lemma RecordingProjects(cfg: Config, w: World, e: Event, m: Name)
    requires !e.Planned? && !e.FollowedUp? && !e.Checked?
    ensures var ops, before := OpsOf(cfg, w, e, m), ModelOf(w.table, m);
      ModelOf(TableAfter(cfg, w, e), m) == if ops == [] then before else Apply(before, ops[0], cfg.thresholds)
  {
    FreshFixed();
    hide BarrierDuration, RecordFailure, RecordMissing, RecordSuccess, TakeProbe, ReleaseProbe, DropProbe;
  }

  /** Every step acts on each model through the circuit's own operations, and through no other. */
  lemma StepProjects(cfg: Config, w: World, e: Event, m: Name)
    ensures ModelOf(Step(cfg, w, e).table, m) == ApplyAll(ModelOf(w.table, m), OpsOf(cfg, w, e, m), cfg.thresholds)
  {
    if e.Planned? || e.FollowedUp? || e.Checked? {
      LookingProjects(cfg, w, e, m);
    } else {
      RecordingProjects(cfg, w, e, m);
      AtMostOne(cfg, w, e, m);
      hide TableAfter, OpsOf, Apply;
      var ops := OpsOf(cfg, w, e, m);
      if ops != [] {
        assert ops == [ops[0]];
        ApplyOne(ModelOf(w.table, m), ops[0], cfg.thresholds);
      }
    }
  }

  lemma AtMostOne(cfg: Config, w: World, e: Event, m: Name)
    ensures |OpsOf(cfg, w, e, m)| <= 1
  {
    hide TableAfter;
  }

  function Project(cfg: Config, w: World, es: seq<Event>, m: Name): seq<ModelOp> {
    if es == [] then []
    else Project(cfg, w, es[..|es| - 1], m) + OpsOf(cfg, Run(cfg, w, es[..|es| - 1]), es[|es| - 1], m)
  }

  lemma {:induction false} ApplyConcat(e: ModelEntry, a: seq<ModelOp>, b: seq<ModelOp>, th: Thresholds)
    ensures ApplyAll(e, a + b, th) == ApplyAll(ApplyAll(e, a, th), b, th)
  {
    if b == [] {
      assert a + b == a;
    } else {
      ApplyConcat(e, a, b[..|b| - 1], th);
      assert (a + b)[..|a + b| - 1] == a + b[..|b| - 1];
    }
  }

  lemma {:induction false} RunProjects(cfg: Config, w: World, es: seq<Event>, m: Name)
    ensures ModelOf(Run(cfg, w, es).table, m) == ApplyAll(ModelOf(w.table, m), Project(cfg, w, es, m), cfg.thresholds)
  {
    hide Step, OpsOf;
    if es != [] {
      var before := es[..|es| - 1];
      RunProjects(cfg, w, before, m);
      StepProjects(cfg, Run(cfg, w, before), es[|es| - 1], m);
      ApplyConcat(ModelOf(w.table, m), Project(cfg, w, before, m),
                  OpsOf(cfg, Run(cfg, w, before), es[|es| - 1], m), cfg.thresholds);
    }
  }
}
