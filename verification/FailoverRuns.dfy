/** Every request, with whatever other requests do in between, is a stretch of one run of the shared table. */
module FailoverRuns {
  import opened Options
  import opened Backoff
  import opened ModelCircuit
  import opened Routing
  import opened Planner
  import opened Runs
  import opened RunInvariants
  import opened Readiness
  import opened Failover

  /** A step of the run, and whether the request took it itself. */
  datatype Act = Act(mine: bool, event: Event)

  /** The world, and the guard the request holds. */
  datatype Part = Part(world: World, own: Option<nat>)

  function PartOf(m: Moment): Part {
    Part(m.world, m.own)
  }

  /** The request acts through its own guard alone and takes one at a time; nobody else acts through it. */
  predicate Permitted(p: Part, a: Act) {
    if a.mine then (Handle(a.event).Some? ==> Handle(a.event) == p.own) && (a.event.Began? ==> p.own.None?)
    else !Touches(a.event, p.own)
  }

  function OwnAfter(p: Part, a: Act): Option<nat> {
    if a.mine && a.event.Began? then Some(p.world.nextId) else if a.mine && a.event.Dropped? then None else p.own
  }

  function TakeAll(cfg: Config, p: Part, acts: seq<Act>): Part {
    if acts == [] then p
    else
      var before, a := TakeAll(cfg, p, acts[..|acts| - 1]), acts[|acts| - 1];
      Part(Runs.Step(cfg, before.world, a.event), OwnAfter(before, a))
  }

  predicate Fair(cfg: Config, p: Part, acts: seq<Act>) {
    acts == []
    || (Fair(cfg, p, acts[..|acts| - 1]) && Permitted(TakeAll(cfg, p, acts[..|acts| - 1]), acts[|acts| - 1]))
  }

  function Events(acts: seq<Act>): seq<Event> {
    seq(|acts|, i requires 0 <= i < |acts| => acts[i].event)
  }

  predicate AllMine(acts: seq<Act>) {
    forall a :: a in acts ==> a.mine
  }

  /** No other request touches the table. */
  ghost predicate Alone(env: Environment) {
    forall i: nat :: env.others(i) == []
  }

  /** The acts lead from one moment to another; those of others are the surroundings' doing. */
  ghost predicate LeadsBy(x: Setup, p: Part, p': Part, acts: seq<Act>) {
    Fair(x.cfg, p, acts) && TakeAll(x.cfg, p, acts) == p' && (Alone(x.env) ==> AllMine(acts))
  }

  ghost predicate Leads(x: Setup, p: Part, p': Part) {
    exists acts :: LeadsBy(x, p, p', acts)
  }

  // --- acts compose ---------------------------------------------------------------------------------

  /** Fair acts are a run of the shared table. */
  lemma {:induction false} ActsAreARun(cfg: Config, p: Part, acts: seq<Act>)
    ensures TakeAll(cfg, p, acts).world == Run(cfg, p.world, Events(acts))
  {
    hide Runs.Step;
    if acts != [] {
      ActsAreARun(cfg, p, acts[..|acts| - 1]);
      assert Events(acts)[..|acts| - 1] == Events(acts[..|acts| - 1]);
    }
  }

  lemma {:induction false} ActsConcat(cfg: Config, p: Part, a: seq<Act>, b: seq<Act>)
    requires Fair(cfg, p, a) && Fair(cfg, TakeAll(cfg, p, a), b)
    ensures Fair(cfg, p, a + b) && TakeAll(cfg, p, a + b) == TakeAll(cfg, TakeAll(cfg, p, a), b)
  {
    hide Runs.Step, Permitted;
    if b == [] {
      assert a + b == a;
    } else {
      ActsConcat(cfg, p, a, b[..|b| - 1]);
      assert (a + b)[..|a + b| - 1] == a + b[..|b| - 1];
    }
  }

  lemma LeadsRefl(x: Setup, p: Part)
    ensures Leads(x, p, p)
  {
    assert LeadsBy(x, p, p, []);
  }

  lemma LeadsTrans(x: Setup, p: Part, q: Part, r: Part)
    requires Leads(x, p, q) && Leads(x, q, r)
    ensures Leads(x, p, r)
  {
    hide TakeAll, Fair, Alone;
    var a :| LeadsBy(x, p, q, a);
    var b :| LeadsBy(x, q, r, b);
    ActsConcat(x.cfg, p, a, b);
    assert LeadsBy(x, p, r, a + b);
  }

  /** One step of the request's own. */
  lemma Takes(x: Setup, p: Part, e: Event)
    requires Permitted(p, Act(true, e))
    ensures Leads(x, p, Part(Runs.Step(x.cfg, p.world, e), OwnAfter(p, Act(true, e))))
  {
    hide Runs.Step, Permitted, OwnAfter, Alone;
    var acts := [Act(true, e)];
    assert acts[..|acts| - 1] == [] && acts[|acts| - 1] == Act(true, e);
    assert TakeAll(x.cfg, p, []) == p && Fair(x.cfg, p, []);
    assert LeadsBy(x, p, Part(Runs.Step(x.cfg, p.world, e), OwnAfter(p, Act(true, e))), acts);
  }

  // --- each step of a request is a few acts -----------------------------------------------------------

  function Theirs(es: seq<Event>): seq<Act> {
    seq(|es|, i requires 0 <= i < |es| => Act(false, es[i]))
  }

  lemma {:induction false} OthersAct(cfg: Config, p: Part, es: seq<Event>)
    ensures var acts := Theirs(Spared(es, p.own));
      Fair(cfg, p, acts) && TakeAll(cfg, p, acts) == Part(Run(cfg, p.world, Spared(es, p.own)), p.own)
    ensures es == [] ==> Theirs(Spared(es, p.own)) == []
  {
    hide Runs.Step;
    if es != [] {
      var n := |es| - 1;
      var before := Spared(es[..n], p.own);
      OthersAct(cfg, p, es[..n]);
      if Touches(es[n], p.own) {
        assert before + [] == before;
      } else {
        assert (before + [es[n]])[..|before|] == before;
        assert Theirs(before + [es[n]])[..|before|] == Theirs(before);
      }
    }
  }

  lemma DisturbedLeads(x: Setup, m: Moment)
    ensures Leads(x, PartOf(m), PartOf(Disturbed(x, m)))
  {
    hide Run, TakeAll, Fair, Spared;
    var es := x.env.others(m.tick + 1);
    OthersAct(x.cfg, PartOf(m), es);
    assert LeadsBy(x, PartOf(m), PartOf(Disturbed(x, m)), Theirs(Spared(es, m.own)));
  }

  lemma PlanLeads(x: Setup, m: Moment, skipped: set<Identity>)
    ensures Leads(x, PartOf(m), PartOf(PlanStep(x, m, skipped).0))
  {
    hide Leads, Disturbed, Runs.Step, Plan;
    var d := Disturbed(x, m);
    DisturbedLeads(x, m);
    Takes(x, PartOf(d), Event.Planned(0, x.env.lag(d.tick), x.spec, x.tag, skipped));
    LeadsTrans(x, PartOf(m), PartOf(d), PartOf(PlanStep(x, m, skipped).0));
  }

  lemma GateLeads(x: Setup, m: Moment)
    ensures Leads(x, PartOf(m), PartOf(GateStep(x, m).0))
  {
    hide Leads, Disturbed;
    DisturbedLeads(x, m);
  }

  lemma BeginLeads(x: Setup, m: Moment, t: RouteTarget)
    requires m.own.None?
    ensures Leads(x, PartOf(m), PartOf(BeginStep(x, m, t)))
  {
    hide Leads, Runs.Step, Run;
    var d := Disturbed(x, m);
    DisturbedLeads(x, m);
    Takes(x, PartOf(d), Began(t));
    LeadsTrans(x, PartOf(m), PartOf(d), PartOf(BeginStep(x, m, t)));
  }

  lemma ReadLeads(x: Setup, m: Moment, r: Reply, t: RouteTarget)
    requires m.own.Some?
    ensures Leads(x, PartOf(m), PartOf(ReadStep(x, m, r, t)))
  {
    hide Leads, Runs.Step;
    LeadsRefl(x, PartOf(m));
    Takes(x, PartOf(m), StreakRead(OwnId(m), t));
  }

  lemma RecordedLeads(x: Setup, w: World, own: Option<nat>, r: Reply, t: RouteTarget, attempt: nat, jitter: real,
                      reader: nat)
    ensures Leads(x, Part(w, own), Part(Recorded(x, w, r, t, attempt, jitter, reader), own))
  {
    hide Leads, Runs.Step, BreakAffinity;
    LeadsRefl(x, Part(w, own));
    if !OnlyReported(x, r, attempt) {
      var e := EventFor(x, r, t, attempt, jitter, reader);
      var w1 := if e.Some? then Runs.Step(x.cfg, w, e.value) else w;
      if e.Some? { Takes(x, Part(w, own), e.value); }
      Takes(x, Part(w1, own), Repinned(BreakAffinity(w1.table, x.tag).affinity));
      LeadsTrans(x, Part(w, own), Part(w1, own), Part(Unpin(x, w1), own));
    }
  }

  lemma {:induction false} ChecksLead(x: Setup, w: World, own: Option<nat>, cs: seq<Candidate>)
    ensures Leads(x, Part(w, own), Part(w.(table := DialAll(x.cfg, w.table, cs, w.clock)), own))
  {
    hide Leads, AfterDial;
    if cs == [] {
      LeadsRefl(x, Part(w, own));
    } else {
      var before := w.(table := DialAll(x.cfg, w.table, cs[..|cs| - 1], w.clock));
      ChecksLead(x, w, own, cs[..|cs| - 1]);
      Takes(x, Part(before, own), Checked(0, cs[|cs| - 1]));
      LeadsTrans(x, Part(w, own), Part(before, own),
                 Part(w.(table := DialAll(x.cfg, w.table, cs, w.clock)), own));
    }
  }

  lemma SurveyLeads(x: Setup, r: Reply, w: World, w': World, own: Option<nat>)
    requires Surveyed(x, r, w, w')
    ensures Leads(x, Part(w, own), Part(w', own))
  {
    hide Leads, DialAll;
    if r.QuotaSpent? {
      var cs :| w' == w.(table := DialAll(x.cfg, w.table, cs, w.clock));
      ChecksLead(x, w, own, cs);
    } else {
      LeadsRefl(x, Part(w, own));
    }
  }

  lemma FailedLeads(x: Setup, m: Moment, r: Reply, t: RouteTarget, attempt: nat, cooldown: nat, noRoutes: bool,
                    m': Moment)
    requires FailedStep(x, m, r, t, attempt, cooldown, noRoutes, m') && m.own.Some?
    ensures Leads(x, PartOf(m), PartOf(m'))
  {
    hide Leads, Runs.Step, Recorded, Surveyed, BreakerAfter, UsableRoutes, HashesApart, CooldownAfter, OnlyReported;
    var jitter, id := x.env.jitter(m.tick), OwnId(m);
    var w := Recorded(x, m.world, r, t, attempt, jitter, id);
    var w' :| Surveyed(x, r, w, w') && m'.world == Runs.Step(x.cfg, w', Dropped(id));
    RecordedLeads(x, m.world, m.own, r, t, attempt, jitter, id);
    SurveyLeads(x, r, w, w', m.own);
    LeadsTrans(x, PartOf(m), Part(w, m.own), Part(w', m.own));
    Takes(x, Part(w', m.own), Dropped(id));
    LeadsTrans(x, PartOf(m), Part(w', m.own), PartOf(m'));
  }

  lemma ServedLeads(x: Setup, m: Moment, t: RouteTarget, attempt: nat, m': Moment)
    requires ServedStep(x, m, t, attempt, m') && m.own.Some?
    ensures Leads(x, PartOf(m), PartOf(m'))
  {
    hide Leads, Runs.Step, Pinned;
    var served, id := Event.Served(t, x.env.latency(m.tick)), OwnId(m);
    var noted := Runs.Step(x.cfg, m.world, served);
    var pins :| Pinned(x, noted.table.affinity, t, attempt, m.world.clock, pins)
      && m'.world == GivenBack(x, Runs.Step(x.cfg, noted, Repinned(pins)), id);
    var pinned := Runs.Step(x.cfg, noted, Repinned(pins));
    var released := Runs.Step(x.cfg, pinned, Released(id));
    Takes(x, PartOf(m), served);
    Takes(x, Part(noted, m.own), Repinned(pins));
    LeadsTrans(x, PartOf(m), Part(noted, m.own), Part(pinned, m.own));
    Takes(x, Part(pinned, m.own), Released(id));
    LeadsTrans(x, PartOf(m), Part(pinned, m.own), Part(released, m.own));
    Takes(x, Part(released, m.own), Dropped(id));
    LeadsTrans(x, PartOf(m), Part(released, m.own), PartOf(m'));
  }

  lemma DecideLeads(x: Setup, m: Moment, r: Reply, failed: RouteTarget, skipped: set<Identity>, attempt: nat,
                    cooldown: nat, retries: nat)
    ensures Leads(x, PartOf(m), PartOf(DecideStep(x, m, r, failed, skipped, attempt, cooldown, retries).0))
  {
    hide Leads, Disturbed, Runs.Step, Plan, Followup;
    var d := Disturbed(x, m);
    DisturbedLeads(x, m);
    if !(r.Unclassified? || attempt >= x.budget.attempts) {
      var e := Decision(x, d.world, r, failed, skipped, cooldown, retries, x.env.lag(d.tick)).0;
      Takes(x, PartOf(d), e);
      LeadsTrans(x, PartOf(m), PartOf(d),
                 PartOf(DecideStep(x, m, r, failed, skipped, attempt, cooldown, retries).0));
    }
  }

  // --- whole requests ---------------------------------------------------------------------------------

  /** The failure path up to the recording, and the decision after it. */
  lemma FailureLeads(x: Setup, m: Moment, t: RouteTarget, skipped: set<Identity>, retries: nat, attempt: nat, rd: Round)
    requires DialOk(x, m, t, skipped, retries, attempt, rd) && m.own.None? && !Succeeds(rd.reply)
    ensures Leads(x, PartOf(m), PartOf(rd.recorded)) && Leads(x, PartOf(rd.recorded), PartOf(rd.end))
    ensures rd.recorded.own.None? && rd.end.own.None?
  {
    hide Leads, FailedStep, DecideStep, Run, Spared, Runs.Step;
    var begun := BeginStep(x, m, t);
    var answered := Disturbed(x, begun);
    var read := ReadStep(x, answered, rd.reply, t);
    BeginLeads(x, m, t);
    DisturbedLeads(x, begun);
    LeadsTrans(x, PartOf(m), PartOf(begun), PartOf(answered));
    ReadLeads(x, answered, rd.reply, t);
    LeadsTrans(x, PartOf(m), PartOf(answered), PartOf(read));
    DisturbedLeads(x, read);
    LeadsTrans(x, PartOf(m), PartOf(read), PartOf(Disturbed(x, read)));
    FailedLeads(x, Disturbed(x, read), rd.reply, t, attempt, rd.cooldown, rd.noRoutes, rd.recorded);
    LeadsTrans(x, PartOf(m), PartOf(Disturbed(x, read)), PartOf(rd.recorded));
    DecideLeads(x, rd.recorded, rd.reply, t, skipped, attempt, rd.cooldown, retries);
    DroppedOwn(x, Disturbed(x, read), rd.reply, t, attempt, rd.cooldown, rd.noRoutes, rd.recorded);
    DecidingHoldsNothing(x, rd.recorded, rd.reply, t, skipped, attempt, rd.cooldown, retries);
  }

  lemma DroppedOwn(x: Setup, m: Moment, r: Reply, t: RouteTarget, attempt: nat, cooldown: nat, noRoutes: bool,
                   m': Moment)
    requires FailedStep(x, m, r, t, attempt, cooldown, noRoutes, m')
    ensures m'.own.None?
  {
  }

  lemma DecidingHoldsNothing(x: Setup, m: Moment, r: Reply, failed: RouteTarget, skipped: set<Identity>, attempt: nat,
                             cooldown: nat, retries: nat)
    ensures DecideStep(x, m, r, failed, skipped, attempt, cooldown, retries).0.own == m.own
  {
    hide Decision, Runs.Step, Run;
  }

  lemma DialLeads(x: Setup, m: Moment, t: RouteTarget, skipped: set<Identity>, retries: nat, attempt: nat, rd: Round)
    requires DialOk(x, m, t, skipped, retries, attempt, rd) && m.own.None?
    ensures Leads(x, PartOf(m), PartOf(rd.end)) && rd.end.own.None?
  {
    hide Leads, FailedStep, DecideStep, Run, Spared, Runs.Step, Pinned;
    if Succeeds(rd.reply) {
      var begun := BeginStep(x, m, t);
      BeginLeads(x, m, t);
      DisturbedLeads(x, begun);
      LeadsTrans(x, PartOf(m), PartOf(begun), PartOf(Disturbed(x, begun)));
      ServedLeads(x, Disturbed(x, begun), t, attempt, rd.end);
      LeadsTrans(x, PartOf(m), PartOf(Disturbed(x, begun)), PartOf(rd.end));
    } else {
      FailureLeads(x, m, t, skipped, retries, attempt, rd);
      LeadsTrans(x, PartOf(m), PartOf(rd.recorded), PartOf(rd.end));
    }
  }

  /** Planning and asking the breaker, which every round and some endings begin with. */
  lemma AskingLeads(x: Setup, m: Moment, skipped: set<Identity>)
    ensures var planned := PlanStep(x, m, skipped).0;
            var gated := GateStep(x, planned).0;
      && Leads(x, PartOf(m), PartOf(planned)) && Leads(x, PartOf(m), PartOf(gated))
      && planned.own == m.own && gated.own == m.own
  {
    hide Leads, Plan, Run, Spared, Runs.Step;
    var planned := PlanStep(x, m, skipped).0;
    PlanLeads(x, m, skipped);
    GateLeads(x, planned);
    LeadsTrans(x, PartOf(m), PartOf(planned), PartOf(GateStep(x, planned).0));
  }

  /** The last round of a story in its parts. */
  lemma LastRound(x: Setup, m: Moment, rounds: seq<Round>)
    requires Story(x, m, rounds) && rounds != []
    ensures var before, rd := rounds[..|rounds| - 1], rounds[|rounds| - 1];
            var (planned, plan) := PlanStep(x, Reached(m, before), TriedBy(x.cfg, before));
            var (gated, gate) := GateStep(x, planned);
      && Story(x, m, before) && GoesOn(before) && rounds == before + [rd]
      && plan.Planned? && gate.Allowed? && rd.target == plan.target && |rounds| <= x.budget.attempts
      && DialOk(x, gated, rd.target, TriedBy(x.cfg, before) + {IdentityOf(x.cfg, rd.target)}, RetriesSoFar(before),
                |rounds|, rd)
      && TriedBy(x.cfg, rounds) == TriedBy(x.cfg, before) + {IdentityOf(x.cfg, rd.target)}
      && (rd.next.Again? ==> Retryable(rd.reply, |rounds|, x.budget.attempts))
  {
    hide PlanStep, GateStep, DialOk, TriedBy, Retryable, IdentityOf;
    var before, rd := rounds[..|rounds| - 1], rounds[|rounds| - 1];
    assert rounds == before + [rd];
    TriedGrows(x.cfg, before, rd);
    var (planned, plan) := PlanStep(x, Reached(m, before), TriedBy(x.cfg, before));
    GoesOnWithinBudget(x, GateStep(x, planned).0, plan.target,
                       TriedBy(x.cfg, before) + {IdentityOf(x.cfg, plan.target)}, RetriesSoFar(before), |rounds|, rd);
  }

  /** The moment at which the breaker let a story's last round dial. */
  function DialedFrom(x: Setup, m: Moment, rounds: seq<Round>): Moment
    requires rounds != []
  {
    var before := rounds[..|rounds| - 1];
    GateStep(x, PlanStep(x, Reached(m, before), TriedBy(x.cfg, before)).0).0
  }

  lemma {:induction false} StoriesAreRuns(x: Setup, m: Moment, rounds: seq<Round>)
    requires Story(x, m, rounds) && m.own.None?
    ensures Leads(x, PartOf(m), PartOf(Reached(m, rounds))) && Reached(m, rounds).own.None?
    ensures rounds != [] ==>
      var gated := DialedFrom(x, m, rounds);
      gated.own.None? && Leads(x, PartOf(m), PartOf(gated))
  {
    hide Story, PlanStep, GateStep, DialOk, TriedBy, Leads, PartOf;
    if rounds == [] {
      LeadsRefl(x, PartOf(m));
    } else {
      var before, rd := rounds[..|rounds| - 1], rounds[|rounds| - 1];
      var at, tried := Reached(m, before), TriedBy(x.cfg, before);
      LastRound(x, m, rounds);
      StoriesAreRuns(x, m, before);
      AskingLeads(x, at, tried);
      var gated := DialedFrom(x, m, rounds);
      LeadsTrans(x, PartOf(m), PartOf(at), PartOf(gated));
      DialLeads(x, gated, rd.target, tried + {IdentityOf(x.cfg, rd.target)}, RetriesSoFar(before), |rounds|, rd);
      LeadsTrans(x, PartOf(m), PartOf(gated), PartOf(rd.end));
    }
  }

  lemma EndingLeads(x: Setup, m: Moment, rounds: seq<Round>, ending: Ending, r: Result, m': Moment)
    requires Ends(x, m, rounds, ending, r, m')
    ensures Leads(x, PartOf(Reached(m, rounds)), PartOf(m')) && m'.own == Reached(m, rounds).own
  {
    hide PlanStep, GateStep, TriedBy, ErrorFor, Leads, PartOf;
    var at := Reached(m, rounds);
    LeadsRefl(x, PartOf(at));
    AskingLeads(x, at, TriedBy(x.cfg, rounds));
  }

  /**
   * Composition: a request and whatever the others do between its steps are together one run of the shared table, in
   * which the request acts through its own guards alone and nobody else acts through them. What every run keeps is
   * therefore kept by any number of requests at once.
   */
  lemma RequestsAreRuns(x: Setup, m: Moment, rounds: seq<Round>, ending: Ending, r: Result, m': Moment)
    requires Story(x, m, rounds) && Ends(x, m, rounds, ending, r, m') && m.own.None?
    ensures m'.own.None?
    ensures exists acts ::
      && Fair(x.cfg, PartOf(m), acts) && TakeAll(x.cfg, PartOf(m), acts) == PartOf(m')
      && m'.world == Run(x.cfg, m.world, Events(acts)) && (Alone(x.env) ==> AllMine(acts))
  {
    hide Story, Ends, TakeAll, Fair, Run, Alone;
    StoriesAreRuns(x, m, rounds);
    EndingLeads(x, m, rounds, ending, r, m');
    LeadsTrans(x, PartOf(m), PartOf(Reached(m, rounds)), PartOf(m'));
    var acts :| LeadsBy(x, PartOf(m), PartOf(m'), acts);
    ActsAreARun(x.cfg, PartOf(m), acts);
  }

  // --- what a run keeps, a request keeps ----------------------------------------------------------------

  lemma PlanRotates(cfg: Config, s: Table, spec: RouteSpec, tag: string, skipped: set<Identity>, now: nat, later: nat)
    requires now <= later
    ensures s.rotation <= Plan(cfg, s, spec, tag, skipped, now, later).0.rotation <= s.rotation + 1
  {
    hide Plan, Meaning;
    if Known(cfg, spec) {
      PlanMeans(cfg, s, spec, tag, skipped, now, later);
    } else {
      UnknownKeepsTable(cfg, s, spec, tag, skipped, now, later);
    }
  }

  lemma RecordingKeepsRotation(cfg: Config, w: World, e: Event)
    requires !e.Planned? && !e.FollowedUp? && !e.Checked?
    ensures TableAfter(cfg, w, e).rotation == w.table.rotation
  {
    hide RecordFailure, RecordMissing, RecordSuccess, TakeProbe, ReleaseProbe, DropProbe, BarrierDuration;
  }

  lemma StepRotates(cfg: Config, w: World, e: Event)
    ensures w.table.rotation <= Runs.Step(cfg, w, e).table.rotation <= w.table.rotation + 1
  {
    hide Plan, AfterDial, GuardsAfter, OpensAfter, ReadingsAfter, EndOf;
    var s := w.table;
    match e
    case Planned(dt, lag, spec, tag, skipped) =>
      PlanRotates(cfg, s, spec, tag, skipped, w.clock + dt, w.clock + dt + lag);
    case FollowedUp(dt, lag, spec, tag, failed, skipped) =>
      PlanRotates(cfg, BreakAffinity(s, tag), spec, NO_SESSION, skipped + {IdentityOf(cfg, failed)}, w.clock + dt,
                  w.clock + dt + lag);
    case Checked(dt, c) => DialKeepsPins(cfg, s, c, w.clock + dt);
    case _ => hide TableAfter; RecordingKeepsRotation(cfg, w, e);
  }

  lemma UnknownKeepsTable(cfg: Config, s: Table, spec: RouteSpec, tag: string, skipped: set<Identity>, now: nat,
                          later: nat)
    requires !Known(cfg, spec)
    ensures Plan(cfg, s, spec, tag, skipped, now, later).0 == s
  {
  }

  /** Whatever happens, the rotation never goes back, nor does the clock. */
  lemma {:induction false} RunRotates(cfg: Config, w: World, es: seq<Event>)
    ensures w.table.rotation <= Run(cfg, w, es).table.rotation <= w.table.rotation + |es|
    ensures w.clock <= Run(cfg, w, es).clock
  {
    hide TableAfter, GuardsAfter, OpensAfter;
    if es != [] {
      RunRotates(cfg, w, es[..|es| - 1]);
      StepRotates(cfg, Run(cfg, w, es[..|es| - 1]), es[|es| - 1]);
    }
  }

  lemma LeadingKeepsInv(x: Setup, p: Part, p': Part)
    requires Leads(x, p, p') && Inv(x.cfg, p.world)
    ensures Inv(x.cfg, p'.world) && p.world.clock <= p'.world.clock
    ensures p.world.table.rotation <= p'.world.table.rotation
  {
    hide TakeAll, Fair, Run, Alone, Inv;
    var acts :| LeadsBy(x, p, p', acts);
    ActsAreARun(x.cfg, p, acts);
    RunKeepsInv(x.cfg, p.world, Events(acts));
    RunRotates(x.cfg, p.world, Events(acts));
  }

  // --- the guards of a request --------------------------------------------------------------------------

  /** The guards the request has taken along the acts. */
  function Taken(cfg: Config, p: Part, acts: seq<Act>): set<nat> {
    if acts == [] then {}
    else
      var before, a := TakeAll(cfg, p, acts[..|acts| - 1]), acts[|acts| - 1];
      Taken(cfg, p, acts[..|acts| - 1]) + if a.mine && a.event.Began? then {before.world.nextId} else {}
  }

  /** Ids are handed out once and in order. */
  predicate Numbered(w: World) {
    forall id :: id in w.guards ==> id < w.nextId
  }

  lemma {:induction false} TakenAreGone(cfg: Config, p: Part, acts: seq<Act>)
    requires Fair(cfg, p, acts) && Numbered(p.world) && p.own.None?
    ensures var p' := TakeAll(cfg, p, acts);
      && Numbered(p'.world) && p.world.nextId <= p'.world.nextId
      && (forall id :: id in Taken(cfg, p, acts) ==> p.world.nextId <= id < p'.world.nextId)
      && (forall id :: id in Taken(cfg, p, acts) && id in p'.world.guards ==> p'.own == Some(id))
      && (p'.own.Some? ==> p'.own.value in Taken(cfg, p, acts) && p'.own.value in p'.world.guards)
  {
    hide TableAfter, EndOf, OpensAfter;
    if acts != [] { TakenAreGone(cfg, p, acts[..|acts| - 1]); }
  }

  /** Left alone, a request has exactly its own guard besides those that were there before. */
  lemma {:induction false} AloneKeepsGuards(cfg: Config, p: Part, acts: seq<Act>)
    requires Fair(cfg, p, acts) && Numbered(p.world) && p.own.None? && AllMine(acts)
    ensures var p' := TakeAll(cfg, p, acts);
      p.world.guards == match p'.own case None => p'.world.guards case Some(id) => p'.world.guards - {id}
  {
    hide TableAfter, EndOf, OpensAfter;
    if acts != [] {
      var before, a := acts[..|acts| - 1], acts[|acts| - 1];
      assert a in acts && forall b :: b in before ==> b in acts;
      AloneKeepsGuards(cfg, p, before);
      TakenAreGone(cfg, p, before);
      TakenAreGone(cfg, p, acts);
    }
  }

  /** The keys and their in-flight counts are as before. */
  predicate SameInflight(s: Table, s': Table) {
    |s'.keys| == |s.keys| && forall k :: 0 <= k < |s.keys| ==> s'.keys[k].inflight == s.keys[k].inflight
  }

  /**
   * However a request ends, none of the guards it took is alive, and the in-flight counts are those of the guards
   * that are; left alone, it gives every key's count back as it found it.
   */
  lemma RequestsConserveInflight(x: Setup, m: Moment, rounds: seq<Round>, ending: Ending, r: Result, m': Moment)
    requires Story(x, m, rounds) && Ends(x, m, rounds, ending, r, m') && m.own.None? && Inv(x.cfg, m.world)
    ensures Inv(x.cfg, m'.world)
    ensures exists acts ::
      && Fair(x.cfg, PartOf(m), acts) && TakeAll(x.cfg, PartOf(m), acts) == PartOf(m')
      && forall id :: id in Taken(x.cfg, PartOf(m), acts) ==> id !in m'.world.guards
    ensures Alone(x.env) ==> m'.world.guards == m.world.guards && SameInflight(m.world.table, m'.world.table)
  {
    hide Story, Ends, Run, Alone, TakeAll, Fair, AllGood, ProbesAreHeld, Taken;
    RequestsAreRuns(x, m, rounds, ending, r, m');
    var acts :| Fair(x.cfg, PartOf(m), acts) && TakeAll(x.cfg, PartOf(m), acts) == PartOf(m')
      && m'.world == Run(x.cfg, m.world, Events(acts)) && (Alone(x.env) ==> AllMine(acts));
    RunKeepsInv(x.cfg, m.world, Events(acts));
    TakenAreGone(x.cfg, PartOf(m), acts);
    if Alone(x.env) { AloneKeepsGuards(x.cfg, PartOf(m), acts); }
  }
}
