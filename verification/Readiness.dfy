/** The readiness count and the planner agree about whether anything can be dialed. */
module Readiness {
  import opened ModelCircuit
  import opened Routing
  import opened Expiry
  import opened Planner

  function TierModels(tiers: seq<Tier>): set<Name> {
    set t, m | 0 <= t < |tiers| && m in tiers[t].models :: m
  }

  function ConfiguredModels(cfg: Config): set<Name> {
    set p, m | p in cfg.profiles && m in TierModels(cfg.profiles[p].tiers) :: m
  }

  /** The (model, group) pairs that some profile lists and that are ready at `now`. */
  function UsableRoutes(cfg: Config, s: Table, now: nat): set<(Name, Name)> {
    set m, g | m in ConfiguredModels(cfg) && g in cfg.groups
               && Judge(cfg, s, CandidateFor(cfg, s.rotation, m, g, 0), now).dial.Ready? :: (m, g)
  }

  /** No two configured (model, group) pairs collide in the name hash. */
  predicate HashesApart(cfg: Config) {
    forall m, m', g, g' |
      m in ConfiguredModels(cfg) && m' in ConfiguredModels(cfg) && g in cfg.groups && g' in cfg.groups
      && IdOf(cfg, m, g) == IdOf(cfg, m', g') :: m == m' && g == g'
  }

  lemma SameSample(s: Table, c: Candidate, c': Candidate, now: nat)
    requires c.a == c'.a && c.b == c'.b
    ensures KeyVerdict(s, c, now) == KeyVerdict(s, c', now) && AnyKeyReady(s, c, now) == AnyKeyReady(s, c', now)
  {
  }

  /** The model's position in its tier never matters to its health. */
  lemma OrdinalIrrelevant(cfg: Config, s: Table, model: Name, group: Name, ordinal: nat, now: nat)
    requires group in cfg.groups
    ensures Judge(cfg, s, CandidateFor(cfg, s.rotation, model, group, ordinal), now)
         == Judge(cfg, s, CandidateFor(cfg, s.rotation, model, group, 0), now)
  {
    hide KeyVerdict, AnyKeyReady, View, Members;
    SameSample(s, CandidateFor(cfg, s.rotation, model, group, ordinal), CandidateFor(cfg, s.rotation, model, group, 0),
               now);
  }

  /** Lazy expiry changes no route's readiness. */
  lemma SameUsableRoutes(cfg: Config, s: Table, s': Table, now: nat)
    requires Same(s, s', now) && s'.rotation == s.rotation
    ensures UsableRoutes(cfg, s, now) == UsableRoutes(cfg, s', now)
  {
    hide Same, Judge, CandidateFor, ConfiguredModels;
    forall c ensures Judge(cfg, s, c, now) == Judge(cfg, s', c, now) { SameJudge(cfg, s, s', c, now, now); }
  }

  /** So neither checking a route nor a plan that fails changes the readiness count. */
  lemma LookingKeepsReadiness(cfg: Config, s: Table, c: Candidate, spec: RouteSpec, tag: string, skipped: set<Identity>,
                              now: nat, later: nat)
    requires Known(cfg, spec) && now <= later
    ensures UsableRoutes(cfg, AfterDial(cfg, s, c, now), now) == UsableRoutes(cfg, s, now)
    ensures var (s', r) := Plan(cfg, s, spec, tag, skipped, now, later);
            r.Unavailable? ==> UsableRoutes(cfg, s', later) == UsableRoutes(cfg, s, later)
  {
    hide AfterDial, Plan, UsableRoutes, Same, Meaning;
    DialSame(cfg, s, c, now);
    SameUsableRoutes(cfg, s, AfterDial(cfg, s, c, now), now);
    PlanMeans(cfg, s, spec, tag, skipped, now, later);
    var (s', r) := Plan(cfg, s, spec, tag, skipped, now, later);
    if r.Unavailable? { SameUsableRoutes(cfg, s, s', later); }
  }

  lemma UsableRouteBy(cfg: Config, s: Table, now: nat, name: Name, t: nat, c: Candidate)
    requires name in cfg.profiles && t < |cfg.profiles[name].tiers|
    requires c in CandidatesOf(cfg, s, cfg.profiles[name].tiers, t) && Judge(cfg, s, c, now).dial.Ready?
    ensures (c.model, c.group) in UsableRoutes(cfg, s, now)
  {
    hide Judge, CandidateFor;
    var tiers := cfg.profiles[name].tiers;
    TierCandidatesMeans(cfg, s.rotation, tiers[t].models, c);
    OrdinalIrrelevant(cfg, s, tiers[t].models[c.ordinal], c.group, c.ordinal, now);
    CandidateModel(cfg, s.rotation, tiers[t].models[c.ordinal], c.group, c.ordinal);
    assert tiers[t].models[c.ordinal] in tiers[t].models;
    assert c.model in TierModels(tiers);
  }

  lemma CandidateModel(cfg: Config, rotation: nat, model: Name, group: Name, ordinal: nat)
    requires group in cfg.groups
    ensures var c := CandidateFor(cfg, rotation, model, group, ordinal);
      c.model == model && c.group == group && c.ordinal == ordinal && c.a in Sampled(c)
  {
  }

  /** Not ready means not ready: with no usable route every profile's plan fails, whatever was skipped. */
  lemma NoUsableRouteNoPlan(cfg: Config, s: Table, name: Name, tag: string, skipped: set<Identity>, now: nat,
                            later: nat)
    requires UsableRoutes(cfg, s, now) == {} && name in cfg.profiles && now <= later
    ensures Plan(cfg, s, ProfileSpec(name), tag, skipped, now, later).1.Unavailable?
  {
    hide Plan, Judge, UsableRoutes, CandidatesOf;
    var spec := ProfileSpec(name);
    PlanMeans(cfg, s, spec, tag, skipped, now, later);
    var r := Plan(cfg, s, spec, tag, skipped, now, later).1;
    if r.Planned? {
      var c := Winner(cfg, s, cfg.profiles[name].tiers, r.target.tier, ContextOf(cfg, s, spec, tag, skipped, now));
      UsableRouteBy(cfg, s, now, name, r.target.tier, c);
      assert false;
    }
  }

  /** Every multi-tier profile may fall back to its lower tiers. */
  predicate FallsBack(cfg: Config) {
    forall p :: p in cfg.profiles && |cfg.profiles[p].tiers| > 1 ==> cfg.profiles[p].allowLowerTier
  }

  lemma DialableMeansPlanned(cfg: Config, s: Table, p: Profile, ctx: PlanContext, later: nat, r: PlanResult, t: nat)
    requires |p.tiers| > 1 ==> p.allowLowerTier
    requires Meaning(cfg, s, p, ctx, later, r) && t < |p.tiers|
    ensures HasDialable(cfg, s, p.tiers, t, ctx.skipped, ctx.now) ==> r.Planned?
  {
    hide HasDialable, EarliestReached, HasKnownWait, Reaches;
  }

  lemma ProfilePlans(cfg: Config, s: Table, name: Name, t: nat, c: Candidate, tag: string, now: nat, later: nat)
    requires FallsBack(cfg) && name in cfg.profiles && now <= later && t < |cfg.profiles[name].tiers|
    requires c in CandidatesOf(cfg, s, cfg.profiles[name].tiers, t) && Judge(cfg, s, c, now).dial.Ready?
    ensures Plan(cfg, s, ProfileSpec(name), tag, {}, now, later).1.Planned?
  {
    hide Plan, Judge, CandidatesOf, Meaning;
    var spec := ProfileSpec(name);
    PlanMeans(cfg, s, spec, tag, {}, now, later);
    var r := Plan(cfg, s, spec, tag, {}, now, later).1;
    assert c.a in Sampled(c) && Dialable(cfg, s, c, {}, now);
    assert HasDialable(cfg, s, cfg.profiles[name].tiers, t, {}, now);
    DialableMeansPlanned(cfg, s, cfg.profiles[name], ContextOf(cfg, s, spec, tag, {}, now), later, r, t);
  }

  /** When profiles may fall back, a usable route exists exactly when some profile's plan succeeds. */
  lemma ReadyExactlyWhenPlannable(cfg: Config, s: Table, tag: string, now: nat, later: nat)
    requires FallsBack(cfg) && now <= later
    ensures UsableRoutes(cfg, s, now) != {} <==>
      exists name :: name in cfg.profiles && Plan(cfg, s, ProfileSpec(name), tag, {}, now, later).1.Planned?
  {
    hide Plan, Judge, CandidateFor;
    if UsableRoutes(cfg, s, now) == {} {
      forall name | name in cfg.profiles ensures Plan(cfg, s, ProfileSpec(name), tag, {}, now, later).1.Unavailable? {
        NoUsableRouteNoPlan(cfg, s, name, tag, {}, now, later);
      }
    } else {
      var route :| route in UsableRoutes(cfg, s, now);
      var name :| name in cfg.profiles && route.0 in TierModels(cfg.profiles[name].tiers);
      var tiers := cfg.profiles[name].tiers;
      var t :| 0 <= t < |tiers| && route.0 in tiers[t].models;
      var i :| 0 <= i < |tiers[t].models| && tiers[t].models[i] == route.0;
      var c := CandidateFor(cfg, s.rotation, route.0, route.1, i);
      CandidateModel(cfg, s.rotation, route.0, route.1, i);
      OrdinalIrrelevant(cfg, s, route.0, route.1, i, now);
      TierCandidatesMeans(cfg, s.rotation, tiers[t].models, c);
      ProfilePlans(cfg, s, name, t, c, tag, now, later);
    }
  }
}
