/** Whole dials: the guard and the strikes they record with, what a success restores, and keys that are out for good. */
module RequestOutcomes {
  import opened Options
  import opened ModelCircuit
  import opened Routing
  import opened Planner
  import opened Runs
  import opened RunCooldowns
  import opened RouteTables
  import opened Failover
  import opened FailoverRuns
  import opened Outcomes
  import TransientReach

  // --- the guard of a dial ----------------------------------------------------------------------------

  lemma BegunHolds(x: Setup, m: Moment, t: RouteTarget)
    ensures HoldsFor(BeginStep(x, m, t), t) && OwnId(BeginStep(x, m, t)) < BeginStep(x, m, t).world.nextId
  {
    hide Run, Spared, TableAfter;
  }

  lemma DisturbedHolds(x: Setup, m: Moment, t: RouteTarget)
    requires HoldsFor(m, t) && OwnId(m) < m.world.nextId
    ensures var d := Disturbed(x, m);
      && HoldsFor(d, t) && OwnId(d) == OwnId(m) < d.world.nextId
      && StreakFor(d.world, OwnId(d), None) == StreakFor(m.world, OwnId(m), None)
  {
    SparedKeepsOwn(x.cfg, m.world, x.env.others(m.tick + 1), OwnId(m));
    hide Run, Spared, StreakFor;
  }

  lemma ReadHolds(x: Setup, m: Moment, r: Reply, t: RouteTarget)
    requires HoldsFor(m, t) && OwnId(m) < m.world.nextId
    ensures var read := ReadStep(x, m, r, t);
      && HoldsFor(read, t) && OwnId(read) == OwnId(m) < read.world.nextId && read.world.table == m.world.table
      && (r.LimitReached? && r.hint.fallback ==>
            StreakFor(read.world, OwnId(read), None) == KeyOf(m.world.table, t.key).streak)
  {
  }

  /**
   * A failed dial comes to its recording with its own guard in hand, and a 429 without an authoritative hint with the
   * strikes its key had when the reply came in.
   */
  lemma FailedDial(x: Setup, m: Moment, t: RouteTarget, skipped: set<Identity>, retries: nat, attempt: nat, rd: Round)
    returns (held: Moment)
    requires DialOk(x, m, t, skipped, retries, attempt, rd) && !Succeeds(rd.reply)
    ensures FailedStep(x, held, rd.reply, t, attempt, rd.cooldown, rd.noRoutes, rd.recorded) && HoldsFor(held, t)
    ensures rd.reply.LimitReached? && rd.reply.hint.fallback ==>
      var answered := Disturbed(x, BeginStep(x, m, t)).world.table;
      StreakFor(held.world, OwnId(held), None) == KeyOf(answered, t.key).streak
    ensures held == Disturbed(x, ReadStep(x, Disturbed(x, BeginStep(x, m, t)), rd.reply, t))
  {
    hide FailedStep, DecideStep, Disturbed, BeginStep, ReadStep, StreakFor;
    var begun := BeginStep(x, m, t);
    var answered := Disturbed(x, begun);
    BegunHolds(x, m, t);
    DisturbedHolds(x, begun, t);
    ReadHolds(x, answered, rd.reply, t);
    DisturbedHolds(x, ReadStep(x, answered, rd.reply, t), t);
    held := Disturbed(x, ReadStep(x, answered, rd.reply, t));
  }

  // --- a rejected key is out for good -------------------------------------------------------------------

  lemma {:induction false} RunKeepsKeys(cfg: Config, w: World, es: seq<Event>)
    ensures |Run(cfg, w, es).table.keys| == |w.table.keys|
  {
    hide TableAfter, GuardsAfter, OpensAfter, EndOf;
    if es != [] {
      RunKeepsKeys(cfg, w, es[..|es| - 1]);
      TransientReach.KeysStayConfigured(cfg, Run(cfg, w, es[..|es| - 1]), es[|es| - 1]);
    }
  }

  lemma KeysStayAlong(x: Setup, p: Part, p': Part, key: nat)
    requires Leads(x, p, p')
    ensures key < |p.world.table.keys| ==> key < |p'.world.table.keys|
    ensures KeyRejected(p.world.table, key) ==> KeyRejected(p'.world.table, key)
  {
    hide TakeAll, Fair, Run, Alone, KeyRejected;
    var acts :| LeadsBy(x, p, p', acts);
    ActsAreARun(x.cfg, p, acts);
    RunKeepsKeys(x.cfg, p.world, Events(acts));
    if KeyRejected(p.world.table, key) { RunKeepsRejected(x.cfg, p.world, Events(acts), key); }
  }

  /** A 401 rejects the key that was dialed, by the time it is recorded and ever after. */
  lemma UnauthorizedDialRejects(x: Setup, m: Moment, t: RouteTarget, skipped: set<Identity>, retries: nat,
                                attempt: nat, rd: Round)
    requires DialOk(x, m, t, skipped, retries, attempt, rd) && rd.reply.Unauthorized? && m.own.None?
    requires t.key < |m.world.table.keys|
    ensures KeyRejected(rd.recorded.world.table, t.key) && KeyRejected(rd.end.world.table, t.key)
  {
    hide Leads, FailedStep, Run, Runs.Step, Disturbed;
    var held := FailedDial(x, m, t, skipped, retries, attempt, rd);
    var begun := BeginStep(x, m, t);
    BeginLeads(x, m, t);
    DisturbedLeads(x, begun);
    DisturbedLeads(x, ReadStep(x, Disturbed(x, begun), rd.reply, t));
    KeysStayAlong(x, PartOf(m), PartOf(begun), t.key);
    KeysStayAlong(x, PartOf(begun), PartOf(Disturbed(x, begun)), t.key);
    KeysStayAlong(x, PartOf(Disturbed(x, begun)), PartOf(held), t.key);
    UnauthorizedRejectsTheKey(x, held, rd.reply, t, attempt, rd.cooldown, rd.noRoutes, rd.recorded);
    FailureLeads(x, m, t, skipped, retries, attempt, rd);
    KeysStayAlong(x, PartOf(rd.recorded), PartOf(rd.end), t.key);
  }

  /** No plan in a world with a rejected key returns that key. */
  lemma RejectedIsNotPlanned(x: Setup, m: Moment, skipped: set<Identity>, key: nat)
    requires KeyRejected(m.world.table, key)
    ensures var p := PlanStep(x, m, skipped).1; p.Planned? ==> p.target.key != key
  {
    hide Leads, Plan, Run, Disturbed, KeyRejected;
    var d := Disturbed(x, m);
    DisturbedLeads(x, m);
    KeysStayAlong(x, PartOf(m), PartOf(d), key);
    RejectedNotPlannedIn(x.cfg, d.world.table, x.spec, x.tag, skipped, d.world.clock, d.world.clock + x.env.lag(d.tick),
                         key);
  }

  lemma RejectedNotPlannedIn(cfg: Config, s: Table, spec: RouteSpec, tag: string, skipped: set<Identity>, now: nat,
                             later: nat, key: nat)
    requires KeyRejected(s, key) && now <= later
    ensures var p := Plan(cfg, s, spec, tag, skipped, now, later).1; p.Planned? ==> p.target.key != key
  {
    hide Plan, Winner, CandidatesOf, DialableIn, Reaches, EarliestIn;
    if Known(cfg, spec) {
      PlanMeans(cfg, s, spec, tag, skipped, now, later);
    } else {
      UnknownIsRefused(cfg, s, spec, tag, skipped, now, later);
    }
  }

  /**
   * A key that answered 401 is never dialed again by the request, and in every run that follows, whatever other
   * requests do, no plan of anybody returns it.
   */
  lemma {:induction false} RejectedStaysRejected(x: Setup, m: Moment, rounds: seq<Round>, i: nat)
    requires Story(x, m, rounds) && m.own.None? && i < |rounds| && rounds[i].reply.Unauthorized?
    requires rounds[i].target.key < |m.world.table.keys|
    ensures KeyRejected(Reached(m, rounds).world.table, rounds[i].target.key)
    ensures forall j :: i < j < |rounds| ==> rounds[j].target.key != rounds[i].target.key
    ensures forall es, spec, tag, skipped, now: nat, later: nat ::
      now <= later ==>
        var p := Plan(x.cfg, Run(x.cfg, Reached(m, rounds).world, es).table, spec, tag, skipped, now, later).1;
        p.Planned? ==> p.target.key != rounds[i].target.key
  {
    hide Story, PlanStep, GateStep, DialOk, TriedBy, Leads, KeyRejected, Plan, Run;
    var n, key := |rounds| - 1, rounds[i].target.key;
    var before, rd := rounds[..n], rounds[n];
    LastRound(x, m, rounds);
    StoriesAreRuns(x, m, rounds);
    var gated := DialedFrom(x, m, rounds);
    KeysStayAlong(x, PartOf(m), PartOf(gated), key);
    var tried := TriedBy(x.cfg, before) + {IdentityOf(x.cfg, rd.target)};
    if i == n {
      UnauthorizedDialRejects(x, gated, rd.target, tried, RetriesSoFar(before), |rounds|, rd);
    } else {
      assert before[i] == rounds[i];
      RejectedStaysRejected(x, m, before, i);
      RejectedIsNotPlanned(x, Reached(m, before), TriedBy(x.cfg, before), key);
      assert forall j :: 0 <= j < n ==> before[j] == rounds[j];
      StoriesAreRuns(x, m, before);
      AskingLeads(x, Reached(m, before), TriedBy(x.cfg, before));
      KeysStayAlong(x, PartOf(Reached(m, before)), PartOf(gated), key);
      DialLeads(x, gated, rd.target, tried, RetriesSoFar(before), |rounds|, rd);
      KeysStayAlong(x, PartOf(gated), PartOf(rd.end), key);
    }
    var w := Reached(m, rounds).world;
    forall es, spec, tag, skipped, now: nat, later: nat | now <= later
      ensures var p := Plan(x.cfg, Run(x.cfg, w, es).table, spec, tag, skipped, now, later).1;
              p.Planned? ==> p.target.key != key
    {
      RunKeepsRejected(x.cfg, w, es, key);
      RejectedNotPlannedIn(x.cfg, Run(x.cfg, w, es).table, spec, tag, skipped, now, later, key);
    }
  }

  // --- success ----------------------------------------------------------------------------------------

  lemma ServedTable(cfg: Config, w: World, t: RouteTarget, cost: nat)
    requires t.key < |w.table.keys|
    ensures var s, w' := w.table, Runs.Step(cfg, w, Event.Served(t, cost));
            var s', id := w'.table, TargetId(cfg, t);
      && OtherKeysKept(s, s', t.key) && s'.keys[t.key].coolingUntil.None? && s'.keys[t.key].streak == 0
      && s'.keys[t.key].unusable == s.keys[t.key].unusable
      && RouteOf(s', id) == FRESH_ROUTE && (forall i :: i != id ==> RouteOf(s', i) == RouteOf(s, i))
      && GroupOf(s', t.group).None? && (forall g :: g != t.group ==> GroupOf(s', g) == GroupOf(s, g))
      && (forall n :: n != t.model ==> ModelOf(s', n) == ModelOf(s, n))
      && ModelOf(s', t.model) == ApplyAll(ModelOf(s, t.model), [ModelOp.Succeeded], cfg.thresholds)
      && s'.affinity == s.affinity && w'.guards == w.guards
  {
    FreshFixed();
    ApplyOne(ModelOf(w.table, t.model), ModelOp.Succeeded, cfg.thresholds);
    hide RecordSuccess, ApplyAll;
  }

  lemma GivenBackTable(x: Setup, w: World, id: nat, t: RouteTarget)
    requires id in w.guards && w.guards[id].key == t.key && w.guards[id].model == t.model
    ensures var s, s' := w.table, GivenBack(x, w, id).table;
      && HealthKept(s, s') && OtherKeysKept(s, s', t.key) && s'.affinity == s.affinity
      && (forall n :: n != t.model ==> ModelOf(s', n) == ModelOf(s, n))
      && ModelOf(s', t.model) ==
           ApplyAll(ModelOf(s, t.model), if w.guards[id].holdsProbe then [ReleasedProbe] else [], x.cfg.thresholds)
  {
    var released := Runs.Step(x.cfg, w, Released(id));
    ReleasedTable(x.cfg, w, id, t);
    DroppedTable(x.cfg, released, id, t);
    AppliedNothing(ModelOf(released.table, t.model), x.cfg.thresholds);
    hide Runs.Step, ApplyAll;
  }

  lemma ReleasedTable(cfg: Config, w: World, id: nat, t: RouteTarget)
    requires id in w.guards && w.guards[id].key == t.key && w.guards[id].model == t.model
    ensures var s, w' := w.table, Runs.Step(cfg, w, Released(id));
      && id in w'.guards && w'.guards[id] == w.guards[id].(holdsProbe := false)
      && w'.table == s.(models := w'.table.models)
      && (forall n :: n != t.model ==> ModelOf(w'.table, n) == ModelOf(s, n))
      && ModelOf(w'.table, t.model) ==
           ApplyAll(ModelOf(s, t.model), if w.guards[id].holdsProbe then [ReleasedProbe] else [], cfg.thresholds)
  {
    FreshFixed();
    AppliedNothing(ModelOf(w.table, t.model), cfg.thresholds);
    ApplyOne(ModelOf(w.table, t.model), ReleasedProbe, cfg.thresholds);
    hide ReleaseProbe, ApplyAll;
  }

  /**
   * A success clears the key's cooldown and strikes, its route and its group, closes the model's circuit and the
   * breaker, and touches nothing else; the session is pinned to the route on a first attempt, and only then.
   */
  lemma SuccessRestores(x: Setup, m: Moment, t: RouteTarget, attempt: nat, m': Moment)
    requires ServedStep(x, m, t, attempt, m') && HoldsFor(m, t) && t.key < |m.world.table.keys|
    ensures var s, s', id := m.world.table, m'.world.table, TargetId(x.cfg, t);
            var heard := [ModelOp.Succeeded] + if HeldProbe(m) then [ReleasedProbe] else [];
      && OtherKeysKept(s, s', t.key) && s'.keys[t.key].coolingUntil.None? && s'.keys[t.key].streak == 0
      && s'.keys[t.key].unusable == s.keys[t.key].unusable
      && RouteOf(s', id) == FRESH_ROUTE && (forall i :: i != id ==> RouteOf(s', i) == RouteOf(s, i))
      && GroupOf(s', t.group).None? && (forall g :: g != t.group ==> GroupOf(s', g) == GroupOf(s, g))
      && (forall n :: n != t.model ==> ModelOf(s', n) == ModelOf(s, n))
      && ModelOf(s', t.model) == ApplyAll(ModelOf(s, t.model), heard, x.cfg.thresholds)
    ensures m'.breaker == CB.Run(m.breaker, [CB.Op.Succeeded], x.limits)
    ensures attempt != 1 ==> m'.world.table.affinity == m.world.table.affinity
    ensures attempt == 1 && x.cfg.softAffinity > 0 && x.tag != "" && x.tag != "sess_none" ==>
      && x.tag in m'.world.table.affinity
      && m'.world.table.affinity[x.tag] == AffinityEntry(TargetId(x.cfg, t), m.world.clock + x.cfg.softAffinity)
  {
    hide CB.Succeed, RouteTable.RoomMade, RouteTable.Unexpired, GivenBack, ApplyAll, NoteSuccess;
    BreakerCloses(m.breaker, x.limits);
    var cost, w := x.env.latency(m.tick), m.world;
    var noted := Runs.Step(x.cfg, w, Event.Served(t, cost));
    var pins :| Pinned(x, noted.table.affinity, t, attempt, w.clock, pins)
      && m'.world == GivenBack(x, Runs.Step(x.cfg, noted, Repinned(pins)), OwnId(m));
    var pinned := Runs.Step(x.cfg, noted, Repinned(pins));
    ServedTable(x.cfg, w, t, cost);
    assert pinned.table == noted.table.(affinity := pins) && pinned.guards == w.guards;
    hide Runs.Step;
    GivenBackTable(x, pinned, OwnId(m), t);
    ApplyConcat(ModelOf(w.table, t.model), [ModelOp.Succeeded], if HeldProbe(m) then [ReleasedProbe] else [],
                x.cfg.thresholds);
    SamePlaces(noted.table, pinned.table, m'.world.table);
  }

  lemma BreakerCloses(b: CB.Breaker, l: CB.Limits)
    ensures CB.Run(b, [CB.Op.Succeeded], l) == CB.Succeed(b)
  {
    assert [CB.Op.Succeeded][..0] == [];
    hide CB.Succeed;
  }

  /** Tables that agree on routes and groups say the same of each. */
  lemma SamePlaces(s: Table, s1: Table, s2: Table)
    requires s1.routes == s.routes == s2.routes && s1.groups == s.groups == s2.groups && s1.models == s.models
    ensures forall i :: RouteOf(s2, i) == RouteOf(s, i)
    ensures forall g :: GroupOf(s2, g) == GroupOf(s, g)
    ensures forall n :: ModelOf(s1, n) == ModelOf(s, n)
  {
  }
}
