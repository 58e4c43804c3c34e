/** What every request keeps, whatever the upstream answers and whatever other requests do between its steps. */
module FailoverTheorems {
  import opened Options
  import opened Backoff
  import opened ModelCircuit
  import opened Routing
  import opened Expiry
  import opened Planner
  import opened Runs
  import opened RunInvariants
  import opened RunCooldowns
  import opened Rotation
  import opened Readiness
  import opened Failover
  import opened FailoverRuns

  // --- waits ------------------------------------------------------------------------------

  lemma KeyWaitBounded(s: Table, c: Candidate, clock: nat, now: nat)
    requires AllGood(s, clock) && clock <= now
    ensures var v := KeyVerdict(s, c, now);
      && (v.wait.Some? && !v.dial.Ready? ==> v.wait.value <= MAX_ROUTE_WAIT)
      && (v.dial.Cooling? ==> v.wait == Some(v.dial.wait))
  {
    assert forall i: nat :: KeyCooling(s, i, now).Some? ==> KeyCooling(s, i, now).value <= MAX_ROUTE_WAIT;
    hide AllGood, AnyKeyReady, KeyCooling;
  }

  lemma KnownWaitBounded(cfg: Config, s: Table, c: Candidate, skipped: set<Identity>, clock: nat, now: nat)
    requires AllGood(s, clock) && clock <= now
    ensures var w := KnownWait(cfg, s, c, skipped, now); w.Some? ==> w.value <= MAX_ROUTE_WAIT
  {
    var id := CandidateId(cfg, c);
    assert GoodModel(ModelOf(s, c.model), clock);
    assert Bounded(RouteOf(s, id).coolingUntil, clock) && Bounded(GroupOf(s, c.group), clock);
    KeyWaitBounded(s, c, clock, now);
    hide AllGood, KeyVerdict, AnyKeyReady, AnyUnskipped;
  }

  lemma KnownWaitPositive(cfg: Config, s: Table, c: Candidate, skipped: set<Identity>, now: nat)
    ensures var w := KnownWait(cfg, s, c, skipped, now); w.Some? ==> w.value > 0
  {
    assert forall i: nat :: KeyCooling(s, i, now).Some? ==> KeyCooling(s, i, now).value > 0;
  }

  /** No plan ever reports a wait of more than a day. */
  lemma PlanWaitBounded(cfg: Config, s: Table, spec: RouteSpec, tag: string, skipped: set<Identity>, clock: nat,
                        now: nat, later: nat)
    requires AllGood(s, clock) && clock <= now <= later
    ensures var r := Plan(cfg, s, spec, tag, skipped, now, later).1;
            var w := if r.Planned? then r.nextAlternative else r.wait;
      w.Some? ==> w.value <= MAX_ROUTE_WAIT
  {
    hide Plan, AllGood, KnownWait, CandidatesOf, SoundTarget, Reaches, EarliestIn;
    forall c
      ensures KnownWait(cfg, s, c, skipped, now).Some? ==> KnownWait(cfg, s, c, skipped, now).value <= MAX_ROUTE_WAIT
    {
      KnownWaitBounded(cfg, s, c, skipped, clock, now);
    }
    if Known(cfg, spec) {
      var r := Plan(cfg, s, spec, tag, skipped, now, later).1;
      PlanMeans(cfg, s, spec, tag, skipped, now, later);
      PlannedTargetIsHealthy(cfg, s, spec, tag, skipped, now, later);
      if r.Planned? {
        EarliestInMeans(cfg, s, CandidatesOf(cfg, s, ProfileOf(cfg, spec).tiers, r.target.tier),
                        ContextOf(cfg, s, spec, tag, skipped, now));
      }
    } else {
      UnknownIsRefused(cfg, s, spec, tag, skipped, now, later);
    }
  }

  lemma FollowupWaitBounded(cfg: Config, s: Table, spec: RouteSpec, tag: string, failed: RouteTarget,
                            skipped: set<Identity>, clock: nat, now: nat, later: nat)
    requires AllGood(s, clock) && clock <= now <= later
    ensures var f := Followup(cfg, s, spec, tag, failed, skipped, now, later).1;
            f.Continue? ==> f.wait <= MAX_ROUTE_WAIT && (f.waitable ==> f.wait <= cfg.retryAfterMax)
  {
    hide Plan, AllGood;
    RepinnedIsGood(s, BreakAffinity(s, tag), clock);
    PlanWaitBounded(cfg, BreakAffinity(s, tag), spec, NO_SESSION, skipped + {IdentityOf(cfg, failed)}, clock, now,
                    later);
  }

  lemma RepinnedIsGood(s: Table, s': Table, clock: nat)
    requires AllGood(s, clock) && s' == s.(affinity := s'.affinity)
    ensures AllGood(s', clock)
  {
    assert forall id :: RouteOf(s', id) == RouteOf(s, id);
    assert forall g :: GroupOf(s', g) == GroupOf(s, g);
    assert forall m :: ModelOf(s', m) == ModelOf(s, m);
  }

  /**
   * When the follow-up plan finds a route, the request still sleeps for the least known wait of that route's tier: it
   * goes on at once exactly when nothing untried in the tier is known to come back.
   */
  lemma PlannedFollowupSleepsExactly(cfg: Config, s: Table, spec: RouteSpec, tag: string, failed: RouteTarget,
                                     skipped: set<Identity>, now: nat, later: nat)
    requires Known(cfg, spec) && now <= later
    ensures var tried, s1 := skipped + {IdentityOf(cfg, failed)}, BreakAffinity(s, tag);
            var r := Plan(cfg, s1, spec, NO_SESSION, tried, now, later).1;
      r.Planned? ==>
        r.target.tier < |ProfileOf(cfg, spec).tiers| &&
        var cs := CandidatesOf(cfg, s1, ProfileOf(cfg, spec).tiers, r.target.tier);
        var f := Followup(cfg, s, spec, tag, failed, skipped, now, later).1;
        && f.Continue? && !f.waitable
        && (f.wait == 0 <==> forall c :: c in cs ==> KnownWait(cfg, s1, c, tried, now).None?)
        && (forall c :: c in cs && KnownWait(cfg, s1, c, tried, now).Some? ==>
              f.wait <= KnownWait(cfg, s1, c, tried, now).value)
        && (f.wait > 0 ==> exists c :: c in cs && KnownWait(cfg, s1, c, tried, now) == Some(f.wait))
  {
    hide Plan, KnownWait, CandidatesOf, SoundTarget, Reaches, EarliestIn, BreakAffinity;
    var tried, s1 := skipped + {IdentityOf(cfg, failed)}, BreakAffinity(s, tag);
    var r := Plan(cfg, s1, spec, NO_SESSION, tried, now, later).1;
    PlanMeans(cfg, s1, spec, NO_SESSION, tried, now, later);
    PlannedTargetIsHealthy(cfg, s1, spec, NO_SESSION, tried, now, later);
    if r.Planned? {
      EarliestInMeans(cfg, s1, CandidatesOf(cfg, s1, ProfileOf(cfg, spec).tiers, r.target.tier),
                      ContextOf(cfg, s1, spec, NO_SESSION, tried, now));
      forall c ensures KnownWait(cfg, s1, c, tried, now).Some? ==> KnownWait(cfg, s1, c, tried, now).value > 0 {
        KnownWaitPositive(cfg, s1, c, tried, now);
      }
    }
  }

  // --- deciding what comes next ---------------------------------------------------------------

  lemma UnpinnedIsSame(s: Table, tag: string, now: nat)
    ensures Same(s, BreakAffinity(s, tag), now)
  {
    var s' := BreakAffinity(s, tag);
    assert forall id :: RouteOf(s', id) == RouteOf(s, id);
    assert forall g :: GroupOf(s', g) == GroupOf(s, g);
    assert forall m :: ModelOf(s', m) == ModelOf(s, m);
  }

  /** Unpinning a session changes neither what is dialable nor which tiers the scan reaches. */
  lemma UnpinnedReaches(cfg: Config, s: Table, tag: string, p: Profile, t: nat, skipped: set<Identity>, now: nat)
    ensures var s' := BreakAffinity(s, tag);
      && (Reaches(cfg, s, p, t, skipped, now) ==> Reaches(cfg, s', p, t, skipped, now))
      && (t < |p.tiers| && HasDialable(cfg, s, p.tiers, t, skipped, now) ==>
            HasDialable(cfg, s', p.tiers, t, skipped, now))
  {
    var s' := BreakAffinity(s, tag);
    UnpinnedIsSame(s, tag, now);
    hide Judge, Same, TierCandidates;
    forall c ensures Judge(cfg, s, c, now) == Judge(cfg, s', c, now) { SameJudge(cfg, s, s', c, now, now); }
    assert forall t' :: 0 <= t' < |p.tiers| ==> CandidatesOf(cfg, s, p.tiers, t') == CandidatesOf(cfg, s', p.tiers, t');
    hide CandidatesOf, BreakAffinity;
    forall t' | 0 <= t' < |p.tiers|
      ensures PassedOver(cfg, s, p, t', skipped, now) ==> PassedOver(cfg, s', p, t', skipped, now)
    {
    }
  }

  /** An exhausted group is cooling, and a route that answered 404 disabled. */
  predicate FailedIsOut(cfg: Config, s: Table, r: Reply, failed: RouteTarget, now: nat) {
    && (r.QuotaSpent? ==> Live(GroupOf(s, failed.group), now).Some?)
    && (r.Missing? ==> Live(RouteOf(s, TargetId(cfg, failed)).disabledUntil, now).Some?)
  }

  /** A dialable candidate that a request may still try, and that counts as the failed group or route again. */
  predicate ComesBack(cfg: Config, s: Table, r: Reply, failed: RouteTarget, now: nat, later: nat, m: Name, g: Name)
    requires g in cfg.groups
  {
    var c := CandidateFor(cfg, s.rotation, m, g, 0);
    && Dialable(cfg, s, c, {IdentityOf(cfg, failed)}, now)
    && (r.QuotaSpent? ==> g == failed.group)
    && (r.Missing? ==> CandidateIdentity(cfg, c, ChosenKey(s, c, later)) == IdentityOf(cfg, failed))
  }

  ghost predicate NothingComesBack(cfg: Config, s: Table, r: Reply, failed: RouteTarget, now: nat, later: nat) {
    r.QuotaSpent? || r.Missing? ==>
      forall m, g :: g in cfg.groups ==> !ComesBack(cfg, s, r, failed, now, later, m, g)
  }

  lemma OutStaysAway(cfg: Config, s: Table, r: Reply, failed: RouteTarget, now: nat, later: nat)
    requires FailedIsOut(cfg, s, r, failed, now)
    ensures NothingComesBack(cfg, s, r, failed, now, later)
  {
    hide Judge, ChosenKey, AnyUnskipped;
    if r.QuotaSpent? || r.Missing? {
      forall m, g | g in cfg.groups ensures !ComesBack(cfg, s, r, failed, now, later, m, g) {
        ReadyExactly(cfg, s, CandidateFor(cfg, s.rotation, m, g, 0), now);
      }
    }
  }

  /** The planned target is a dialable candidate's chosen key, its place in the tier aside. */
  lemma PlannedFrom(cfg: Config, s: Table, spec: RouteSpec, tag: string, skipped: set<Identity>, now: nat, later: nat,
                    tried: set<Identity>)
    requires Known(cfg, spec) && now <= later && tried <= skipped
    ensures var r := Plan(cfg, s, spec, tag, skipped, now, later).1;
      r.Planned? ==>
        r.target.group in cfg.groups &&
        var c := CandidateFor(cfg, s.rotation, r.target.model, r.target.group, 0);
        && Dialable(cfg, s, c, tried, now)
        && IdentityOf(cfg, r.target) == CandidateIdentity(cfg, c, ChosenKey(s, c, later))
  {
    hide Plan, Judge, ChosenKey, DialableIn, Order, Reaches, EarliestIn, AnyUnskipped, CandidateFor, TierCandidates;
    PlanMeans(cfg, s, spec, tag, skipped, now, later);
    var r := Plan(cfg, s, spec, tag, skipped, now, later).1;
    if r.Planned? {
      var tiers := ProfileOf(cfg, spec).tiers;
      var won := Winner(cfg, s, tiers, r.target.tier, ContextOf(cfg, s, spec, tag, skipped, now));
      TierCandidatesMeans(cfg, s.rotation, tiers[r.target.tier].models, won);
      CandidateModel(cfg, s.rotation, tiers[r.target.tier].models[won.ordinal], won.group, won.ordinal);
      PlaceIrrelevant(cfg, s, won, skipped, tried, now, later);
    }
  }

  lemma PlaceIrrelevant(cfg: Config, s: Table, c: Candidate, skipped: set<Identity>, tried: set<Identity>, now: nat,
                        later: nat)
    requires c.group in cfg.groups && c == CandidateFor(cfg, s.rotation, c.model, c.group, c.ordinal)
    requires tried <= skipped && Dialable(cfg, s, c, skipped, now)
    ensures var c' := CandidateFor(cfg, s.rotation, c.model, c.group, 0);
      && Dialable(cfg, s, c', tried, now) && ChosenKey(s, c, later) == ChosenKey(s, c', later)
      && c'.model == c.model && c'.group == c.group
  {
    hide Judge, Members;
    OrdinalIrrelevant(cfg, s, c.model, c.group, c.ordinal, now);
    var c' := CandidateFor(cfg, s.rotation, c.model, c.group, 0);
    assert Sampled(c) == Sampled(c');
    assert forall k :: CandidateIdentity(cfg, c, k) == CandidateIdentity(cfg, c', k);
  }

  /**
   * After quota exhaustion the request goes on exactly when the planner finds anything, and after a 404 too: while
   * nothing of what failed comes back, comparing it with what was planned never ends a request.
   */
  lemma GuardsNeverStop(x: Setup, w: World, r: Reply, failed: RouteTarget, skipped: set<Identity>, cooldown: nat,
                        retries: nat, lag: nat)
    requires (r.QuotaSpent? || r.Missing?) && IdentityOf(x.cfg, failed) in skipped
    requires NothingComesBack(x.cfg, w.table, r, failed, w.clock, w.clock + lag)
    ensures Decision(x, w, r, failed, skipped, cooldown, retries, lag).1.Again? <==>
      Plan(x.cfg, w.table, x.spec, x.tag, skipped, w.clock, w.clock + lag).1.Planned?
  {
    hide Plan, Dialable, ChosenKey, CandidateFor, IdentityOf;
    assert skipped + {IdentityOf(x.cfg, failed)} == skipped;
    var p := Plan(x.cfg, w.table, x.spec, x.tag, skipped, w.clock, w.clock + lag).1;
    if Known(x.cfg, x.spec) {
      PlannedFrom(x.cfg, w.table, x.spec, x.tag, skipped, w.clock, w.clock + lag, {IdentityOf(x.cfg, failed)});
      if p.Planned? {
        assert !ComesBack(x.cfg, w.table, r, failed, w.clock, w.clock + lag, p.target.model, p.target.group);
      }
    } else {
      UnknownIsRefused(x.cfg, w.table, x.spec, x.tag, skipped, w.clock, w.clock + lag);
    }
  }

  /** A tier the scan reaches holds an untried route that can be dialed. */
  ghost predicate SomethingLeft(x: Setup, w: World, tried: set<Identity>, t: nat)
    requires Known(x.cfg, x.spec)
  {
    var p := ProfileOf(x.cfg, x.spec);
    t < |p.tiers| && Reaches(x.cfg, w.table, p, t, tried, w.clock)
    && HasDialable(x.cfg, w.table, p.tiers, t, tried, w.clock)
  }

  /** A request never stops on any retryable failure while something is left to dial and nothing failed comes back. */
  lemma FailsOverWhenPossible(x: Setup, w: World, r: Reply, failed: RouteTarget, skipped: set<Identity>,
                              cooldown: nat, retries: nat, lag: nat, t: nat)
    requires Known(x.cfg, x.spec) && IdentityOf(x.cfg, failed) in skipped
    requires NothingComesBack(x.cfg, w.table, r, failed, w.clock, w.clock + lag) && SomethingLeft(x, w, skipped, t)
    ensures Decision(x, w, r, failed, skipped, cooldown, retries, lag).1.Again?
  {
    hide Plan, Reaches, HasDialable, BreakAffinity, NothingComesBack, IdentityOf;
    assert skipped + {IdentityOf(x.cfg, failed)} == skipped;
    if r.QuotaSpent? || r.Missing? {
      GuardsNeverStop(x, w, r, failed, skipped, cooldown, retries, lag);
      PlansTierExactly(x.cfg, w.table, x.spec, x.tag, skipped, w.clock, w.clock + lag, t);
    } else {
      UnpinnedReaches(x.cfg, w.table, x.tag, ProfileOf(x.cfg, x.spec), t, skipped, w.clock);
      PlansTierExactly(x.cfg, BreakAffinity(w.table, x.tag), x.spec, NO_SESSION, skipped, w.clock, w.clock + lag, t);
    }
  }

  /** Whatever a request asks for and has tried, it goes on after this failure while something is left. */
  ghost predicate AlwaysFailsOver(cfg: Config, w: World, r: Reply, failed: RouteTarget, lag: nat) {
    forall x: Setup, skipped: set<Identity>, t: nat, cooldown: nat, retries: nat ::
      x.cfg == cfg && Known(cfg, x.spec) && IdentityOf(cfg, failed) in skipped && SomethingLeft(x, w, skipped, t) ==>
        Decision(x, w, r, failed, skipped, cooldown, retries, lag).1.Again?
  }

  /** Every key outside one group, as a route of one model. */
  function Elsewhere(cfg: Config, m: Name, g: Name): set<Identity> {
    set k | 0 <= k < |cfg.groups| && cfg.groups[k] != g :: Identity(cfg.hash(m), cfg.hash(cfg.groups[k]), k)
  }

  /** A request for one literal model, in surroundings that do not matter. */
  function Asker(cfg: Config, m: Name): Setup {
    var env := Environment(_ => [], _ => None, _ => Streaming, _ => 0.0, _ => 0, _ => 0, true);
    Setup(cfg, env, Budget(0, 0, 0), CB.Limits(1, 0, 0), LiteralSpec(m), "")
  }

  lemma ElsewhereSpares(cfg: Config, s: Table, failed: RouteTarget, m: Name, g: Name, now: nat)
    requires g in cfg.groups && Dialable(cfg, s, CandidateFor(cfg, s.rotation, m, g, 0), {IdentityOf(cfg, failed)}, now)
    ensures var skipped := Elsewhere(cfg, m, g) + {IdentityOf(cfg, failed)};
      Dialable(cfg, s, CandidateFor(cfg, s.rotation, m, g, 0), skipped, now)
  {
    hide Judge;
    var c := CandidateFor(cfg, s.rotation, m, g, 0);
    var i :| i in Sampled(c) && CandidateIdentity(cfg, c, i) !in {IdentityOf(cfg, failed)};
    assert cfg.groups[i] == g;
    assert CandidateIdentity(cfg, c, i) !in Elsewhere(cfg, m, g);
  }

  lemma ElsewhereIsSkipped(cfg: Config, c: Candidate, m: Name, g: Name, skipped: set<Identity>)
    requires c.model == m && forall k :: k in Sampled(c) ==> k < |cfg.groups| && cfg.groups[k] == c.group
    requires Elsewhere(cfg, m, g) <= skipped && AnyUnskipped(cfg, c, skipped)
    ensures c.group == g
  {
    var i :| i in Sampled(c) && CandidateIdentity(cfg, c, i) !in skipped;
    assert c.group != g ==> CandidateIdentity(cfg, c, i) in Elsewhere(cfg, m, g);
  }

  /** What came back is all that is left to this request, and it is what the planner picks. */
  lemma OnlyWhatCameBack(cfg: Config, w: World, r: Reply, failed: RouteTarget, lag: nat, m: Name, g: Name)
    requires g in cfg.groups && ComesBack(cfg, w.table, r, failed, w.clock, w.clock + lag, m, g)
    ensures var x, skipped := Asker(cfg, m), Elsewhere(cfg, m, g) + {IdentityOf(cfg, failed)};
            var p := Plan(cfg, w.table, x.spec, x.tag, skipped, w.clock, w.clock + lag).1;
            var c := CandidateFor(cfg, w.table.rotation, m, g, 0);
      && SomethingLeft(x, w, skipped, 0) && p.Planned? && p.target.group == g
      && IdentityOf(cfg, p.target) == CandidateIdentity(cfg, c, ChosenKey(w.table, c, w.clock + lag))
  {
    hide Plan, Judge, ChosenKey, DialableIn, Order, EarliestIn, AnyUnskipped, TierCandidates, Elsewhere, CandidateFor;
    var x, skipped := Asker(cfg, m), Elsewhere(cfg, m, g) + {IdentityOf(cfg, failed)};
    var s, now, later := w.table, w.clock, w.clock + lag;
    var c, tiers := CandidateFor(cfg, s.rotation, m, g, 0), ProfileOf(cfg, LiteralSpec(m)).tiers;
    ElsewhereSpares(cfg, s, failed, m, g, now);
    TierCandidatesMeans(cfg, s.rotation, [m], c);
    CandidateModel(cfg, s.rotation, m, g, 0);
    assert c in CandidatesOf(cfg, s, tiers, 0);
    assert SomethingLeft(x, w, skipped, 0);
    PlansTierExactly(cfg, s, LiteralSpec(m), "", skipped, now, later, 0);
    PlanMeans(cfg, s, LiteralSpec(m), "", skipped, now, later);
    var won := Winner(cfg, s, tiers, 0, ContextOf(cfg, s, LiteralSpec(m), "", skipped, now));
    TierCandidatesMeans(cfg, s.rotation, [m], won);
    CandidateModel(cfg, s.rotation, m, won.group, 0);
    ElsewhereIsSkipped(cfg, won, m, g, skipped);
    assert won == c;
  }

  /** So on any table requests fail over whenever they can exactly when nothing of what failed comes back. */
  lemma FailsOverExactly(cfg: Config, w: World, r: Reply, failed: RouteTarget, lag: nat)
    ensures AlwaysFailsOver(cfg, w, r, failed, lag) <==>
      NothingComesBack(cfg, w.table, r, failed, w.clock, w.clock + lag)
  {
    hide SomethingLeft, ComesBack, Decision, IdentityOf, Elsewhere;
    if NothingComesBack(cfg, w.table, r, failed, w.clock, w.clock + lag) {
      forall x: Setup, skipped: set<Identity>, t: nat, cooldown: nat, retries: nat
        | x.cfg == cfg && Known(cfg, x.spec) && IdentityOf(cfg, failed) in skipped && SomethingLeft(x, w, skipped, t)
        ensures Decision(x, w, r, failed, skipped, cooldown, retries, lag).1.Again?
      {
        FailsOverWhenPossible(x, w, r, failed, skipped, cooldown, retries, lag, t);
      }
    } else {
      var m, g :| g in cfg.groups && ComesBack(cfg, w.table, r, failed, w.clock, w.clock + lag, m, g);
      ComebackStops(cfg, w, r, failed, lag, m, g);
      var skipped := Elsewhere(cfg, m, g) + {IdentityOf(cfg, failed)};
      assert !Decision(Asker(cfg, m), w, r, failed, skipped, 0, 0, lag).1.Again?;
    }
  }

  lemma ComebackStops(cfg: Config, w: World, r: Reply, failed: RouteTarget, lag: nat, m: Name, g: Name)
    requires (r.QuotaSpent? || r.Missing?) && g in cfg.groups
    requires ComesBack(cfg, w.table, r, failed, w.clock, w.clock + lag, m, g)
    ensures var x, skipped := Asker(cfg, m), Elsewhere(cfg, m, g) + {IdentityOf(cfg, failed)};
      && SomethingLeft(x, w, skipped, 0)
      && Decision(x, w, r, failed, skipped, 0, 0, lag).1.Stop?
  {
    hide Plan, SomethingLeft, Elsewhere, Dialable, ChosenKey, CandidateFor;
    OnlyWhatCameBack(cfg, w, r, failed, lag, m, g);
    var skipped := Elsewhere(cfg, m, g) + {IdentityOf(cfg, failed)};
    assert skipped + {IdentityOf(cfg, failed)} == skipped;
  }

  // --- how long what failed stays out ----------------------------------------------------------------

  /** Recording a quota exhaustion or a 404 takes the failed group or route out for as long as its cooldown lasts. */
  lemma FailureTakesOut(x: Setup, m: Moment, r: Reply, t: RouteTarget, attempt: nat, cooldown: nat, noRoutes: bool,
                        m': Moment)
    requires FailedStep(x, m, r, t, attempt, cooldown, noRoutes, m')
    ensures m'.world.clock == m.world.clock
    ensures r.QuotaSpent? && m.world.clock < Deadline(m.world.clock, cooldown) ==>
      GroupOf(m'.world.table, t.group) == Some(Deadline(m.world.clock, cooldown))
    ensures r.Missing? && m.world.clock < Deadline(m.world.clock, x.cfg.thresholds.missingFor) ==>
      RouteOf(m'.world.table, TargetId(x.cfg, t)).disabledUntil
        == Some(Deadline(m.world.clock, x.cfg.thresholds.missingFor))
  {
    hide BreakerAfter, UsableRoutes, HashesApart, Recorded, Runs.Step, Deadline, CapCooldown, DialAll;
    var now, jitter, id := m.world.clock, x.env.jitter(m.tick), OwnId(m);
    var w := Recorded(x, m.world, r, t, attempt, jitter, id);
    var w' :| Surveyed(x, r, w, w') && m'.world == Runs.Step(x.cfg, w', Dropped(id));
    DroppingKeepsCooldowns(x.cfg, w', id);
    RecordingTakesNoTime(x, m.world, r, t, attempt, jitter, id);
    if r.QuotaSpent? {
      QuotaIsRecorded(x, m.world, r, t, attempt, jitter, id);
      var cs :| w' == w.(table := DialAll(x.cfg, w.table, cs, w.clock));
      ChecksKeepLive(x.cfg, w.table, cs, now, t.group);
    }
    if r.Missing? { MissingIsRecorded(x, m.world, r, t, attempt, jitter, id); }
  }

  lemma DroppingKeepsCooldowns(cfg: Config, w: World, id: nat)
    ensures var w' := Runs.Step(cfg, w, Dropped(id));
      w'.table.groups == w.table.groups && w'.table.routes == w.table.routes && w'.clock == w.clock
  {
    hide DropProbe;
  }

  lemma RecordingTakesNoTime(x: Setup, w: World, r: Reply, t: RouteTarget, attempt: nat, jitter: real, reader: nat)
    ensures Recorded(x, w, r, t, attempt, jitter, reader).clock == w.clock
  {
    hide TableAfter, OpensAfter;
  }

  lemma {:induction false} ChecksKeepLive(cfg: Config, s: Table, cs: seq<Candidate>, now: nat, g: Name)
    ensures Live(GroupOf(DialAll(cfg, s, cs, now), g), now) == Live(GroupOf(s, g), now)
  {
    hide AfterDial;
    if cs != [] {
      var before := DialAll(cfg, s, cs[..|cs| - 1], now);
      ChecksKeepLive(cfg, s, cs[..|cs| - 1], now, g);
      DialSame(cfg, before, cs[|cs| - 1], now);
    }
  }

  lemma QuotaIsRecorded(x: Setup, w: World, r: Reply, t: RouteTarget, attempt: nat, jitter: real, reader: nat)
    requires r.QuotaSpent?
    ensures GroupOf(Recorded(x, w, r, t, attempt, jitter, reader).table, t.group)
         == Some(Deadline(w.clock, CapCooldown(r.hint.duration, x.budget.maxQuotaCooldown)))
  {
    hide CapCooldown, Deadline;
  }

  lemma MissingIsRecorded(x: Setup, w: World, r: Reply, t: RouteTarget, attempt: nat, jitter: real, reader: nat)
    requires r.Missing?
    ensures RouteOf(Recorded(x, w, r, t, attempt, jitter, reader).table, TargetId(x.cfg, t)).disabledUntil
         == Some(Deadline(w.clock, x.cfg.thresholds.missingFor))
  {
    hide RecordMissing, Deadline;
  }

  /**
   * Between recording the failure and deciding on it, other requests neither succeed on what failed nor exhaust the
   * group again, and its cooldown has not run out by the decision.
   */
  predicate StaysOut(x: Setup, rd: Round) {
    var es, at, d := x.env.others(rd.recorded.tick + 1), rd.recorded.world.clock, Disturbed(x, rd.recorded);
    && (rd.reply.QuotaSpent? ==>
          RunCooldowns.Undisturbed(es, rd.target.group) && d.world.clock < Deadline(at, rd.cooldown))
    && (rd.reply.Missing? ==>
          NoSuccessOn(x.cfg, es, TargetId(x.cfg, rd.target))
          && d.world.clock < Deadline(at, x.cfg.thresholds.missingFor))
  }

  lemma {:induction false} NothingSpared(es: seq<Event>)
    ensures Spared(es, None) == es
  {
    if es != [] {
      NothingSpared(es[..|es| - 1]);
      assert es == es[..|es| - 1] + [es[|es| - 1]];
    }
  }

  /** Then what failed is still out when the request decides. */
  lemma StillOutAtTheDecision(x: Setup, m: Moment, rd: Round, attempt: nat)
    requires FailedStep(x, m, rd.reply, rd.target, attempt, rd.cooldown, rd.noRoutes, rd.recorded) && StaysOut(x, rd)
    ensures var d := Disturbed(x, rd.recorded);
      FailedIsOut(x.cfg, d.world.table, rd.reply, rd.target, d.world.clock)
  {
    hide Run, BreakerAfter, UsableRoutes, HashesApart, Recorded, Surveyed, Deadline, Spared, Undisturbed, NoSuccessOn;
    var w, es := rd.recorded.world, x.env.others(rd.recorded.tick + 1);
    FailureTakesOut(x, m, rd.reply, rd.target, attempt, rd.cooldown, rd.noRoutes, rd.recorded);
    NothingSpared(es);
    RunRotates(x.cfg, w, es);
    if rd.reply.QuotaSpent? {
      RunKeepsGroupCooling(x.cfg, w, es, rd.target.group, Deadline(w.clock, rd.cooldown));
    }
    if rd.reply.Missing? { RunKeepsRouteDisabled(x.cfg, w, es, TargetId(x.cfg, rd.target), w.clock); }
  }

  // --- what every story keeps ----------------------------------------------------------------------

  /** Every round but the last ended in a failure that may be retried; so no dial follows a success. */
  predicate Within(x: Setup, rounds: seq<Round>) {
    && |rounds| <= x.budget.attempts
    && (forall i :: 0 <= i < |rounds| - 1 ==> rounds[i].next.Again?)
    && (forall i :: 0 <= i < |rounds| && rounds[i].next.Again? ==> Retryable(rounds[i].reply, i + 1, x.budget.attempts))
  }

  /** At most the budgeted dials, and each but the last was followed by another because its failure allowed it. */
  lemma {:induction false} StaysWithinBudget(x: Setup, m: Moment, rounds: seq<Round>)
    requires Story(x, m, rounds)
    ensures Within(x, rounds)
  {
    hide Story, DialOk, PlanStep, GateStep, TriedBy, Retryable;
    if rounds != [] {
      var before := rounds[..|rounds| - 1];
      LastRound(x, m, rounds);
      StaysWithinBudget(x, m, before);
      assert forall i :: 0 <= i < |before| ==> before[i] == rounds[i];
    }
  }

  /**
   * Only a zero budget is ever found spent at the head of the loop: a request that used its whole budget won, or
   * reports the failure of its own last attempt.
   */
  lemma SpentBudgetReportsLastFailure(x: Setup, m: Moment, rounds: seq<Round>, ending: Ending, r: Result, m': Moment)
    requires Story(x, m, rounds) && Ends(x, m, rounds, ending, r, m')
    ensures ending.BudgetSpentAtHead? <==> x.budget.attempts == 0
    ensures |rounds| == x.budget.attempts > 0 ==>
      var rd := rounds[|rounds| - 1];
      r == if Succeeds(rd.reply) then Answered(rd.target, |rounds|) else Reported(ErrorFor(rd.reply, rd.cooldown))
  {
    hide Story, PlanStep, GateStep, TriedBy, ErrorFor;
    StaysWithinBudget(x, m, rounds);
  }

  /** The same route is waited for at most as often as the configuration allows. */
  lemma {:induction false} RetriesBounded(x: Setup, m: Moment, rounds: seq<Round>)
    requires Story(x, m, rounds)
    ensures RetriesSoFar(rounds) <= x.budget.sameRouteRetries
  {
    hide Story, PlanStep, GateStep, TriedBy, ServedStep, FailedStep, Plan, Followup;
    if rounds != [] {
      LastRound(x, m, rounds);
      RetriesBounded(x, m, rounds[..|rounds| - 1]);
    }
  }

  // --- no route twice --------------------------------------------------------------------------

  predicate Distinct(cfg: Config, rounds: seq<Round>) {
    forall i, j :: 0 <= i < j < |rounds| ==> IdentityOf(cfg, rounds[i].target) != IdentityOf(cfg, rounds[j].target)
  }

  /** With one key per quota group a request never dials an identity twice. */
  lemma {:induction false} NeverDialsTwice(x: Setup, m: Moment, rounds: seq<Round>)
    requires OneKeyPerGroup(x.cfg) && Story(x, m, rounds)
    ensures Distinct(x.cfg, rounds)
  {
    hide Story, Plan, GateStep, DialOk, OneKeyPerGroup, IdentityOf;
    if rounds != [] {
      var before, rd := rounds[..|rounds| - 1], rounds[|rounds| - 1];
      LastRound(x, m, rounds);
      NeverDialsTwice(x, m, before);
      var d := Disturbed(x, Reached(m, before));
      OneKeyNeverRedials(x.cfg, d.world.table, x.spec, x.tag, TriedBy(x.cfg, before), d.world.clock,
                         d.world.clock + x.env.lag(d.tick));
      forall i | 0 <= i < |before| ensures IdentityOf(x.cfg, rounds[i].target) != IdentityOf(x.cfg, rd.target) {
        assert before[i] in before && IdentityOf(x.cfg, before[i].target) in TriedBy(x.cfg, before);
      }
    }
  }

  // --- giving up ----------------------------------------------------------------------------------

  /** The world in which the last failure was decided. */
  function DecidedIn(x: Setup, rounds: seq<Round>): World
    requires rounds != []
  {
    Disturbed(x, rounds[|rounds| - 1].recorded).world
  }

  function LagOf(x: Setup, rounds: seq<Round>): nat
    requires rounds != []
  {
    x.env.lag(rounds[|rounds| - 1].recorded.tick + 1)
  }

  /** What the last round did after its reply, and with what the decision was made. */
  lemma LastDecision(x: Setup, m: Moment, rounds: seq<Round>)
    requires Story(x, m, rounds) && rounds != [] && !Succeeds(rounds[|rounds| - 1].reply)
    ensures var n, rd := |rounds|, rounds[|rounds| - 1];
            var tried, retries := TriedBy(x.cfg, rounds), RetriesSoFar(rounds[..n - 1]);
      && IdentityOf(x.cfg, rd.target) in tried
      && (n < x.budget.attempts && !rd.reply.Unclassified? ==>
            rd.next == Decision(x, DecidedIn(x, rounds), rd.reply, rd.target, tried, rd.cooldown, retries,
                                LagOf(x, rounds)).1)
      && (exists m0 :: FailedStep(x, m0, rd.reply, rd.target, n, rd.cooldown, rd.noRoutes, rd.recorded))
  {
    hide Story, PlanStep, GateStep, TriedBy, FailedStep, Decision, Run, BeginStep, ReadStep, IdentityOf;
    LastRound(x, m, rounds);
    var before, rd := rounds[..|rounds| - 1], rounds[|rounds| - 1];
    var gated := DialedFrom(x, m, rounds);
    var answered := Disturbed(x, BeginStep(x, gated, rd.target));
    var held := Disturbed(x, ReadStep(x, answered, rd.reply, rd.target));
    assert FailedStep(x, held, rd.reply, rd.target, |rounds|, rd.cooldown, rd.noRoutes, rd.recorded);
  }

  lemma GaveUpMeans(x: Setup, m: Moment, rounds: seq<Round>, r: Result, m': Moment)
    requires Ends(x, m, rounds, GaveUp, r, m')
    ensures rounds != [] && !Succeeds(rounds[|rounds| - 1].reply) && rounds[|rounds| - 1].next == Stop
  {
  }

  /**
   * A request gives up only when its budget is spent, its last error is unclassified, what failed came back, or
   * nothing is left: in the very world the decision was made in, no tier the scan reaches holds an untried route that
   * can be dialed.
   */
  lemma GivesUpOnlyWhenNothingIsLeft(x: Setup, m: Moment, rounds: seq<Round>, r: Result, m': Moment, t: nat)
    requires Story(x, m, rounds) && Ends(x, m, rounds, GaveUp, r, m') && Known(x.cfg, x.spec)
    ensures var w, rd := DecidedIn(x, rounds), rounds[|rounds| - 1];
      || |rounds| >= x.budget.attempts || rd.reply.Unclassified?
      || !NothingComesBack(x.cfg, w.table, rd.reply, rd.target, w.clock, w.clock + LagOf(x, rounds))
      || !SomethingLeft(x, w, TriedBy(x.cfg, rounds), t)
  {
    hide *;
    GaveUpMeans(x, m, rounds, r, m');
    var rd, w, tried := rounds[|rounds| - 1], DecidedIn(x, rounds), TriedBy(x.cfg, rounds);
    LastDecision(x, m, rounds);
    if |rounds| < x.budget.attempts && !rd.reply.Unclassified? && SomethingLeft(x, w, tried, t)
       && NothingComesBack(x.cfg, w.table, rd.reply, rd.target, w.clock, w.clock + LagOf(x, rounds)) {
      FailsOverWhenPossible(x, w, rd.reply, rd.target, tried, rd.cooldown, RetriesSoFar(rounds[..|rounds| - 1]),
                            LagOf(x, rounds), t);
    }
  }

  /**
   * What failed does not come back while its cooldown lasts, unless other requests revive it: then a request that
   * gives up within its budget, on an error it could classify, had nothing left to dial.
   */
  lemma GivesUpWithNothingLeft(x: Setup, m: Moment, rounds: seq<Round>, r: Result, m': Moment, t: nat)
    requires Story(x, m, rounds) && Ends(x, m, rounds, GaveUp, r, m') && Known(x.cfg, x.spec)
    requires |rounds| < x.budget.attempts && !rounds[|rounds| - 1].reply.Unclassified?
    requires StaysOut(x, rounds[|rounds| - 1])
    ensures !SomethingLeft(x, DecidedIn(x, rounds), TriedBy(x.cfg, rounds), t)
  {
    hide Story, PlanStep, GateStep, TriedBy, SomethingLeft, Decision, ErrorFor, NothingComesBack, FailedStep, StaysOut;
    hide Run, FailedIsOut, IdentityOf;
    var rd, w := rounds[|rounds| - 1], DecidedIn(x, rounds);
    LastDecision(x, m, rounds);
    var m0 :| FailedStep(x, m0, rd.reply, rd.target, |rounds|, rd.cooldown, rd.noRoutes, rd.recorded);
    StillOutAtTheDecision(x, m0, rd, |rounds|);
    OutStaysAway(x.cfg, w.table, rd.reply, rd.target, w.clock, w.clock + LagOf(x, rounds));
    GivesUpOnlyWhenNothingIsLeft(x, m, rounds, r, m', t);
  }

  /** No route is reported only when, in the world the plan was made in, nothing untried can be dialed in reach. */
  lemma NoRouteMeansNothingIsLeft(x: Setup, m: Moment, rounds: seq<Round>, wait: Option<nat>, r: Result, m': Moment,
                                  t: nat)
    requires Ends(x, m, rounds, NoRoute(wait), r, m') && Known(x.cfg, x.spec)
    ensures var d := Disturbed(x, Reached(m, rounds));
      !SomethingLeft(x, d.world, TriedBy(x.cfg, rounds), t) && m'.breaker == d.breaker
  {
    hide Plan, GateStep, TriedBy, Reaches, HasDialable, ErrorFor, Run, Runs.Step;
    var d := Disturbed(x, Reached(m, rounds));
    PlansTierExactly(x.cfg, d.world.table, x.spec, x.tag, TriedBy(x.cfg, rounds), d.world.clock,
                     d.world.clock + x.env.lag(d.tick), t);
  }

  // --- sleeps -------------------------------------------------------------------------------------

  /** A decision sleeps for a day at most, and for the same route only within the client-facing limit. */
  lemma DecisionSleeps(x: Setup, w: World, r: Reply, failed: RouteTarget, skipped: set<Identity>, cooldown: nat,
                       retries: nat, lag: nat)
    requires AllGood(w.table, w.clock) && cooldown <= MAX_ROUTE_WAIT
    ensures var (_, next, n) := Decision(x, w, r, failed, skipped, cooldown, retries, lag);
      next.Again? && next.sleep.Some? ==>
        next.sleep.value <= MAX_ROUTE_WAIT && (n > retries ==> next.sleep.value <= x.cfg.retryAfterMax)
  {
    hide Plan, Followup, AllGood;
    FollowupWaitBounded(x.cfg, w.table, x.spec, x.tag, failed, skipped, w.clock, w.clock, w.clock + lag);
  }

  ghost predicate ShortSleep(rd: Round) {
    rd.next.Again? && rd.next.sleep.Some? ==> rd.next.sleep.value <= MAX_ROUTE_WAIT
  }

  lemma CooldownIsBounded(x: Setup, m: Moment, r: Reply, t: RouteTarget, attempt: nat, cooldown: nat, noRoutes: bool,
                          m': Moment)
    requires FailedStep(x, m, r, t, attempt, cooldown, noRoutes, m') && !OnlyReported(x, r, attempt)
    ensures cooldown <= MAX_ROUTE_WAIT
  {
    hide Recorded, Surveyed, BreakerAfter, UsableRoutes, HashesApart, BarrierDuration, Runs.Step;
  }

  lemma DialSleepsShortly(x: Setup, m: Moment, t: RouteTarget, skipped: set<Identity>, retries: nat, attempt: nat,
                          rd: Round)
    requires DialOk(x, m, t, skipped, retries, attempt, rd) && m.own.None? && Inv(x.cfg, m.world)
    ensures ShortSleep(rd)
  {
    hide Leads, ServedStep, FailedStep, Decision, Inv, Run, Runs.Step;
    if !Succeeds(rd.reply) {
      var d := Disturbed(x, rd.recorded);
      FailureLeads(x, m, t, skipped, retries, attempt, rd);
      LeadingKeepsInv(x, PartOf(m), PartOf(rd.recorded));
      DisturbedLeads(x, rd.recorded);
      LeadingKeepsInv(x, PartOf(rd.recorded), PartOf(d));
      if !(rd.reply.Unclassified? || attempt >= x.budget.attempts) {
        var held := Disturbed(x, ReadStep(x, Disturbed(x, BeginStep(x, m, t)), rd.reply, t));
        CooldownIsBounded(x, held, rd.reply, t, attempt, rd.cooldown, rd.noRoutes, rd.recorded);
        InvIsGood(x.cfg, d.world);
        DecisionSleeps(x, d.world, rd.reply, t, skipped, rd.cooldown, retries, x.env.lag(d.tick));
      }
    }
  }

  lemma InvIsGood(cfg: Config, w: World)
    requires Inv(cfg, w)
    ensures AllGood(w.table, w.clock)
  {
  }

  /** No sleep of any request is longer than a day, from any world a run can reach. */
  lemma {:induction false} SleepsAreBounded(x: Setup, m: Moment, rounds: seq<Round>)
    requires Story(x, m, rounds) && m.own.None? && Inv(x.cfg, m.world)
    ensures forall i :: 0 <= i < |rounds| ==> ShortSleep(rounds[i])
  {
    hide Story, PlanStep, GateStep, DialOk, TriedBy, Inv, ShortSleep, Leads;
    if rounds != [] {
      var before, rd := rounds[..|rounds| - 1], rounds[|rounds| - 1];
      var gated := DialedFrom(x, m, rounds);
      LastRound(x, m, rounds);
      SleepsAreBounded(x, m, before);
      StoriesAreRuns(x, m, rounds);
      LeadingKeepsInv(x, PartOf(m), PartOf(gated));
      DialSleepsShortly(x, gated, rd.target, TriedBy(x.cfg, before) + {IdentityOf(x.cfg, rd.target)},
                        RetriesSoFar(before), |rounds|, rd);
      assert forall i :: 0 <= i < |before| ==> before[i] == rounds[i];
    }
  }
}
