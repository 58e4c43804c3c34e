/** How long a transient failure makes a difference, over every run with the targets that plans hand out. */
module TransientReach {
  import opened Options
  import opened Backoff
  import opened ModelCircuit
  import opened Routing
  import opened Expiry
  import opened Runs
  import opened RunInvariants
  import opened Rotation
  import opened Isolation

  /** Targets name a configured key together with its own group, as planned targets do. */
  predicate OnItsGroup(cfg: Config, t: RouteTarget) {
    t.key < |cfg.groups| && cfg.groups[t.key] == t.group
  }

  predicate Acts(e: Event) {
    e.Served? || e.RateLimited? || e.QuotaExhausted? || e.Rejected? || e.Missing? || e.Transient?
  }

  predicate Configured(cfg: Config, es: seq<Event>) {
    forall e :: e in es && Acts(e) ==> OnItsGroup(cfg, e.target)
  }

  /** A key cools for a quarter second at most, or no longer than its group does. */
  predicate KeyFollowsGroup(cfg: Config, s: Table, now: nat, k: nat)
    requires k < |s.keys| && |s.keys| == |cfg.groups|
  {
    var cooling, group := s.keys[k].coolingUntil, GroupOf(s, cfg.groups[k]);
    cooling.Some? ==>
      cooling.value <= now + HEALTHY_ROUTE_STEP || (group.Some? && cooling.value <= group.value)
  }

  predicate KeysFollowGroups(cfg: Config, w: World) {
    && |w.table.keys| == |cfg.groups|
    && forall k :: 0 <= k < |w.table.keys| ==> KeyFollowsGroup(cfg, w.table, w.clock, k)
  }

  lemma LookingKeepsFollowing(cfg: Config, w: World, e: Event, k: nat)
    requires LookingEvent(e) && k < |w.table.keys| == |cfg.groups| && KeyFollowsGroup(cfg, w.table, w.clock, k)
    ensures |TableAfter(cfg, w, e).keys| == |cfg.groups| && KeyFollowsGroup(cfg, TableAfter(cfg, w, e), EndOf(w, e), k)
  {
    hide TableAfter, EndOf;
    LookingStep(cfg, w, e);
    LookingEnds(w, e);
    var s, s', later := w.table, TableAfter(cfg, w, e), EndOf(w, e);
    assert LiveKey(s.keys[k], later) == LiveKey(s'.keys[k], later);
    assert Live(s.keys[k].coolingUntil, later) == Live(s'.keys[k].coolingUntil, later);
    assert Live(GroupOf(s, cfg.groups[k]), later) == Live(GroupOf(s', cfg.groups[k]), later);
  }

  lemma QuickCooldown(cfg: Config, t: RouteTarget, attempt: nat, hint: Option<nat>, jitter: real)
    ensures KeyHasAlternatives(cfg, t) ==> TransientCooldown(cfg, t, attempt, hint, jitter) <= HEALTHY_ROUTE_STEP
  {
    hide KeyHasAlternatives, BarrierDuration;
  }

  lemma TransientKeepsFollowing(cfg: Config, w: World, e: Event, k: nat)
    requires e.Transient? && OnItsGroup(cfg, e.target)
    requires k < |w.table.keys| == |cfg.groups| && KeyFollowsGroup(cfg, w.table, w.clock, k)
    ensures |TableAfter(cfg, w, e).keys| == |cfg.groups| && KeyFollowsGroup(cfg, TableAfter(cfg, w, e), EndOf(w, e), k)
  {
    QuickCooldown(cfg, e.target, e.attempt, e.hint, e.jitter);
    FailedKey(cfg, w.table, e.target, e.attempt, e.hint, e.jitter, w.clock + e.dt);
    hide NoteTransientFailure, TransientCooldown, KeyHasAlternatives;
  }

  /** The group deadlines and the keys stay, and one key's deadline is at most lifted. */
  predicate DeadlinesLeft(s: Table, s': Table, k: nat)
    requires k < |s.keys|
  {
    && s'.groups == s.groups && |s'.keys| == |s.keys|
    && (s'.keys[k].coolingUntil == s.keys[k].coolingUntil || s'.keys[k].coolingUntil.None?)
  }

  lemma RateLimitLeaves(cfg: Config, s: Table, t: RouteTarget, attempt: nat, streak: nat, hint: Option<nat>,
                        jitter: real, now: nat, k: nat)
    requires k < |s.keys|
    ensures DeadlinesLeft(s, NoteRateLimited(cfg, s, t, attempt, streak, hint, jitter, now), k)
  {
    hide RateLimitCooldown, RecordFailure, Deadline;
  }

  lemma MarkingLeaves(cfg: Config, s: Table, t: RouteTarget, now: nat, k: nat)
    requires k < |s.keys|
    ensures DeadlinesLeft(s, NoteAuthenticationFailure(cfg, s, t), k)
    ensures DeadlinesLeft(s, NoteModelMissing(cfg, s, t, now), k)
  {
    hide RecordMissing, Deadline;
  }

  lemma GuardsLeave(s: Table, t: RouteTarget, g: Guard, k: nat)
    requires k < |s.keys|
    ensures DeadlinesLeft(s, BeginAttempt(s, t), k) && DeadlinesLeft(s, ReleaseModelProbe(s, g.model), k)
    ensures DeadlinesLeft(s, DropGuard(s, g.key, g.model, g.holdsProbe), k)
  {
    hide TakeProbe, ReleaseProbe, DropProbe;
  }

  lemma OthersLeaveDeadlines(cfg: Config, w: World, e: Event, k: nat)
    requires !LookingEvent(e) && !e.Transient? && !e.QuotaExhausted? && !e.Served? && k < |w.table.keys|
    ensures DeadlinesLeft(w.table, TableAfter(cfg, w, e), k)
  {
    var s := w.table;
    hide NoteRateLimited, NoteAuthenticationFailure, NoteModelMissing, BeginAttempt, ReleaseModelProbe, DropGuard;
    hide Plan, Followup, AfterDial, NoteTransientFailure, NoteQuotaExhausted, NoteSuccess;
    match e
    case RateLimited(dt, reader, t, attempt, hint, jitter) =>
      RateLimitLeaves(cfg, s, t, attempt, StreakFor(w, reader, hint), hint, jitter, w.clock + dt, k);
    case Rejected(t) => MarkingLeaves(cfg, s, t, w.clock, k);
    case Missing(dt, t) => MarkingLeaves(cfg, s, t, w.clock + dt, k);
    case Began(t) => GuardsLeave(s, t, Guard(0, t.model, false), k);
    case Released(id) => if id in w.guards { GuardsLeave(s, RouteTarget("", "", 0, 0), w.guards[id], k); }
    case Dropped(id) => if id in w.guards { GuardsLeave(s, RouteTarget("", "", 0, 0), w.guards[id], k); }
    case _ =>
  }

  lemma OthersKeepFollowing(cfg: Config, w: World, e: Event, k: nat)
    requires !LookingEvent(e) && !e.Transient? && !e.QuotaExhausted? && !e.Served?
    requires k < |w.table.keys| == |cfg.groups| && KeyFollowsGroup(cfg, w.table, w.clock, k)
    ensures |TableAfter(cfg, w, e).keys| == |cfg.groups| && KeyFollowsGroup(cfg, TableAfter(cfg, w, e), EndOf(w, e), k)
  {
    OthersLeaveDeadlines(cfg, w, e, k);
    hide TableAfter;
  }

  /** Exhaustion and success treat a group and its only key alike. */
  lemma GroupMovesItsKey(cfg: Config, w: World, e: Event, k: nat)
    requires OneKeyPerGroup(cfg) && (e.QuotaExhausted? || e.Served?) && OnItsGroup(cfg, e.target)
    requires k < |w.table.keys| == |cfg.groups| && KeyFollowsGroup(cfg, w.table, w.clock, k)
    ensures |TableAfter(cfg, w, e).keys| == |cfg.groups| && KeyFollowsGroup(cfg, TableAfter(cfg, w, e), EndOf(w, e), k)
  {
    hide RecordSuccess, Deadline;
    assert k != e.target.key ==> cfg.groups[k] != e.target.group;
  }

  lemma RecordingKeepsFollowing(cfg: Config, w: World, e: Event, k: nat)
    requires OneKeyPerGroup(cfg) && !LookingEvent(e) && (Acts(e) ==> OnItsGroup(cfg, e.target))
    requires k < |w.table.keys| == |cfg.groups| && KeyFollowsGroup(cfg, w.table, w.clock, k)
    ensures |TableAfter(cfg, w, e).keys| == |cfg.groups| && KeyFollowsGroup(cfg, TableAfter(cfg, w, e), EndOf(w, e), k)
  {
    hide TableAfter, EndOf, KeyFollowsGroup, OneKeyPerGroup;
    if e.Transient? {
      TransientKeepsFollowing(cfg, w, e, k);
    } else if e.QuotaExhausted? || e.Served? {
      GroupMovesItsKey(cfg, w, e, k);
    } else {
      OthersKeepFollowing(cfg, w, e, k);
    }
  }

  lemma {:induction false} RunKeepsFollowing(cfg: Config, es: seq<Event>)
    requires OneKeyPerGroup(cfg) && Configured(cfg, es)
    ensures KeysFollowGroups(cfg, Run(cfg, FreshWorld(cfg), es))
  {
    hide TableAfter, OpensAfter, EndOf, GuardsAfter, KeyFollowsGroup, OneKeyPerGroup;
    if es == [] {
      FreshFollows(cfg);
    } else {
      var w, e := Run(cfg, FreshWorld(cfg), es[..|es| - 1]), es[|es| - 1];
      RunKeepsFollowing(cfg, es[..|es| - 1]);
      assert e in es;
      KeysStayConfigured(cfg, w, e);
      forall k | 0 <= k < |cfg.groups| ensures KeyFollowsGroup(cfg, TableAfter(cfg, w, e), EndOf(w, e), k) {
        if LookingEvent(e) { LookingKeepsFollowing(cfg, w, e, k); } else { RecordingKeepsFollowing(cfg, w, e, k); }
      }
    }
  }

  lemma FreshFollows(cfg: Config)
    ensures KeysFollowGroups(cfg, FreshWorld(cfg))
  {
  }

  lemma KeysStayConfigured(cfg: Config, w: World, e: Event)
    ensures |TableAfter(cfg, w, e).keys| == |w.table.keys|
  {
    hide TableAfter, EndOf;
    if LookingEvent(e) { LookingStep(cfg, w, e); } else { RecordingKeepsKeys(cfg, w, e); }
  }

  predicate OneGroup(cfg: Config) {
    forall i, j :: 0 <= i < j < |cfg.groups| ==> cfg.groups[i] == cfg.groups[j]
  }

  /** A group that cools keeps its candidates from being dialed, whatever its keys do. */
  lemma GroupGateFirst(cfg: Config, s: Table, s': Table, c: Candidate, at: nat)
    requires RouteOf(s', CandidateId(cfg, c)) == RouteOf(s, CandidateId(cfg, c))
    requires GroupOf(s', c.group) == GroupOf(s, c.group) && LooksAlike(ModelOf(s, c.model), ModelOf(s', c.model))
    requires Live(GroupOf(s, c.group), at).Some?
    ensures Judge(cfg, s', c, at) == Judge(cfg, s, c, at)
  {
    hide KeyVerdict, AnyKeyReady;
  }

  /** The transient step itself: what it leaves of the world that the verdicts read. */
  function AfterTransient(cfg: Config, es: seq<Event>, e: Event): Table {
    TableAfter(cfg, Run(cfg, FreshWorld(cfg), es), e)
  }

  /** The failure opened no circuit that the candidate depends on. */
  predicate Spares(cfg: Config, w: World, e: Event, c: Candidate)
    requires e.Transient?
  {
    c.model != e.target.model || !OpensCircuit(FailTransition(cfg, w.table, e.target, w.clock + e.dt))
  }

  /** With one key per group, or a single group, a transient failure makes no difference after a quarter second. */
  lemma TransientPasses(cfg: Config, es: seq<Event>, e: Event, model: Name, group: Name, ordinal: nat, at: nat)
    requires OneKeyPerGroup(cfg) || OneGroup(cfg)
    requires Configured(cfg, es + [e]) && e.Transient? && group in cfg.groups
    requires Run(cfg, FreshWorld(cfg), es).clock + e.dt + HEALTHY_ROUTE_STEP <= at
    requires var w := Run(cfg, FreshWorld(cfg), es);
      Spares(cfg, w, e, CandidateFor(cfg, w.table.rotation, model, group, ordinal))
    ensures var w := Run(cfg, FreshWorld(cfg), es);
            var c := CandidateFor(cfg, w.table.rotation, model, group, ordinal);
      Judge(cfg, AfterTransient(cfg, es, e), c, at) == Judge(cfg, w.table, c, at)
  {
    hide Judge, Run, NoteTransientFailure, FailTransition, CandidateFor, OneKeyPerGroup, OneGroup, OpensCircuit;
    hide TransientCooldown, KeyHasAlternatives, KeysFollowGroups;
    var w := Run(cfg, FreshWorld(cfg), es);
    var c, t := CandidateFor(cfg, w.table.rotation, model, group, ordinal), e.target;
    var now := w.clock + e.dt;
    CandidateNames(cfg, w.table.rotation, model, group, ordinal);
    FailedKey(cfg, w.table, t, e.attempt, e.hint, e.jitter, now);
    FailedModel(cfg, w.table, t, e.attempt, e.hint, e.jitter, now, c.model);
    var s, s' := w.table, NoteTransientFailure(cfg, w.table, t, e.attempt, e.hint, e.jitter, now);
    assert s' == AfterTransient(cfg, es, e);
    assert e in es + [e];
    if OneGroup(cfg) {
      NoAlternatives(cfg, t);
      JudgeReads(cfg, s, s', c, at);
    } else {
      assert Configured(cfg, es) by { assert forall a :: a in es ==> a in es + [e]; }
      RunKeepsFollowing(cfg, es);
      QuickCooldown(cfg, t, e.attempt, e.hint, e.jitter);
      KeyOrGroup(cfg, w, t, at);
      if t.key in Sampled(c) && Live(s.keys[t.key].coolingUntil, at).Some? {
        assert c.group == t.group;
        GroupGateFirst(cfg, s, s', c, at);
      } else {
        JudgeReads(cfg, s, s', c, at);
      }
    }
  }

  lemma NoAlternatives(cfg: Config, t: RouteTarget)
    requires OneGroup(cfg) && OnItsGroup(cfg, t)
    ensures !KeyHasAlternatives(cfg, t)
  {
  }

  lemma KeyOrGroup(cfg: Config, w: World, t: RouteTarget, at: nat)
    requires KeysFollowGroups(cfg, w) && OnItsGroup(cfg, t) && w.clock + HEALTHY_ROUTE_STEP <= at
    ensures t.key < |w.table.keys|
    ensures Live(w.table.keys[t.key].coolingUntil, at).Some? ==> Live(GroupOf(w.table, t.group), at).Some?
  {
    assert KeyFollowsGroup(cfg, w.table, w.clock, t.key);
  }

  // --- where it does make a difference ----------------------------------------------------------------

  /** One key's exhaustion, a success on the other that revives the group, and a 401 on that other key. */
  function CutShort(a: RouteTarget, b: RouteTarget): seq<Event> {
    [QuotaExhausted(0, a, 3_600_000), Event.Served(b, 0), Event.Rejected(b)]
  }

  const FAILING: Name := "m"
  const ASKED: Name := "n"

  lemma CutShortRuns(cfg: Config, w: World, a: RouteTarget, b: RouteTarget)
    ensures var es := CutShort(a, b);
      Run(cfg, w, es) == Runs.Step(cfg, Runs.Step(cfg, Runs.Step(cfg, w, es[0]), es[1]), es[2])
  {
    hide Runs.Step;
    var es := CutShort(a, b);
    assert es[..2][..1][..0] == [] && es[..2][..1] == [es[0]] && es[..2] == [es[0], es[1]];
    assert Run(cfg, w, es[..2][..1]) == Runs.Step(cfg, w, es[0]);
  }

  lemma CutShortTable(cfg: Config, a: RouteTarget, b: RouteTarget)
    requires OnItsGroup(cfg, a) && OnItsGroup(cfg, b) && a.group == b.group && a.key != b.key
    ensures var s := Run(cfg, FreshWorld(cfg), CutShort(a, b)).table;
      && s.rotation == 0 && |s.keys| == |cfg.groups| && s.routes == map[] && s.models == map[]
      && GroupOf(s, a.group) == None && s.keys[a.key].coolingUntil == Some(3_600_000) && !s.keys[a.key].unusable
      && s.keys[b.key].unusable
    ensures Run(cfg, FreshWorld(cfg), CutShort(a, b)).clock == 0
  {
    CutShortRuns(cfg, FreshWorld(cfg), a, b);
    hide Run;
  }

  /** On such a table a transient failure makes a difference to another model's candidate until the hour is over. */
  lemma CutShortMakesADifference(cfg: Config, s: Table, t: RouteTarget, c: Candidate, at: nat)
    requires s.routes == map[] && s.models == map[] && GroupOf(s, c.group) == None && t.key < |s.keys|
    requires Sampled(c)[0] == t.key && |Sampled(c)| == 2 && KeyUnusable(s, Sampled(c)[1]) && c.model != t.model
    requires s.keys[t.key].coolingUntil == Some(3_600_000) && !s.keys[t.key].unusable && KeyHasAlternatives(cfg, t)
    requires HEALTHY_ROUTE_STEP <= at < 3_600_000
    ensures Judge(cfg, NoteTransientFailure(cfg, s, t, 1, None, 0.0, 0), c, at).dial.Ready?
    ensures !Judge(cfg, s, c, at).dial.Ready?
  {
    hide Judge, NoteTransientFailure, TransientCooldown, KeyHasAlternatives, Sampled, PassesRouteGates;
    QuickCooldown(cfg, t, 1, None, 0.0);
    OnlyTheKeys(cfg, s, c, t.key, at);
    TransientEndsExactly(cfg, s, t, 1, None, 0.0, 0, c, at);
  }

  /** Two keys of one group, by their place in it. */
  function KeyAt(cfg: Config, g: Name, p: nat): RouteTarget
    requires p < |Members(cfg.groups, g)|
  {
    RouteTarget(FAILING, g, Members(cfg.groups, g)[p], 0)
  }

  lemma KeysOfAGroup(cfg: Config, g: Name)
    requires g in cfg.groups && |Members(cfg.groups, g)| > 1
    ensures var a, b, c := KeyAt(cfg, g, 0), KeyAt(cfg, g, 1), CandidateFor(cfg, 0, ASKED, g, 0);
      && OnItsGroup(cfg, a) && OnItsGroup(cfg, b) && a.key != b.key && a.group == b.group == g
      && Sampled(c) == [a.key, b.key] && c.model == ASKED && c.group == g
  {
    SharedCandidate(cfg, ASKED, g);
  }

  function Failure(t: RouteTarget): Event {
    Event.Transient(0, t, 1, None, 0.0)
  }

  /** Every step of that run names a key together with its group, and the failure opens no circuit asked about. */
  lemma CutShortIsConfigured(cfg: Config, g: Name, w: World)
    requires g in cfg.groups && |Members(cfg.groups, g)| > 1
    ensures var a, b := KeyAt(cfg, g, 0), KeyAt(cfg, g, 1);
      Configured(cfg, CutShort(a, b) + [Failure(a)]) && Spares(cfg, w, Failure(a), CandidateFor(cfg, 0, ASKED, g, 0))
  {
    KeysOfAGroup(cfg, g);
    hide CandidateFor, Sampled, OnItsGroup, FailTransition, Members;
  }

  /** The failed key cuts an hour's cooldown to a quarter second, and with it the candidate's. */
  lemma TransientOutlasts(cfg: Config, g: Name, k: nat)
    requires g in cfg.groups && |Members(cfg.groups, g)| > 1 && k < |cfg.groups| && cfg.groups[k] != g
    ensures var e, es := Failure(KeyAt(cfg, g, 0)), CutShort(KeyAt(cfg, g, 0), KeyAt(cfg, g, 1));
            var w, c := Run(cfg, FreshWorld(cfg), es), CandidateFor(cfg, 0, ASKED, g, 0);
      && Configured(cfg, es + [e]) && w.clock == 0 && w.table.rotation == 0 && Spares(cfg, w, e, c)
      && (forall at :: HEALTHY_ROUTE_STEP <= at < 3_600_000 ==>
            Judge(cfg, AfterTransient(cfg, es, e), c, at).dial.Ready? && !Judge(cfg, w.table, c, at).dial.Ready?)
  {
    hide CandidateFor, Judge, Sampled, KeyAt, OnItsGroup, NoteTransientFailure, Run, CutShort, Configured, Spares;
    var a, b := KeyAt(cfg, g, 0), KeyAt(cfg, g, 1);
    var es, c := CutShort(a, b), CandidateFor(cfg, 0, ASKED, g, 0);
    var w := Run(cfg, FreshWorld(cfg), es);
    KeysOfAGroup(cfg, g);
    CutShortTable(cfg, a, b);
    CutShortIsConfigured(cfg, g, w);
    Failing(cfg, g);
    Elsewhere(cfg, a, k);
    assert AfterTransient(cfg, es, Failure(a)) == NoteTransientFailure(cfg, w.table, a, 1, None, 0.0, 0);
    forall at | HEALTHY_ROUTE_STEP <= at < 3_600_000
      ensures Judge(cfg, AfterTransient(cfg, es, Failure(a)), c, at).dial.Ready?
      ensures !Judge(cfg, w.table, c, at).dial.Ready?
    {
      CutShortMakesADifference(cfg, w.table, a, c, at);
    }
  }

  lemma Failing(cfg: Config, g: Name)
    requires |Members(cfg.groups, g)| > 1
    ensures KeyAt(cfg, g, 0).model == FAILING
  {
  }

  lemma Elsewhere(cfg: Config, t: RouteTarget, k: nat)
    requires OnItsGroup(cfg, t) && k < |cfg.groups| && cfg.groups[k] != t.group
    ensures KeyHasAlternatives(cfg, t)
  {
  }

  lemma OnlyTheKeys(cfg: Config, s: Table, c: Candidate, a: nat, at: nat)
    requires s.routes == map[] && s.models == map[] && GroupOf(s, c.group) == None
    requires |Sampled(c)| == 2 && Sampled(c)[0] == a && KeyUnusable(s, Sampled(c)[1])
    requires KeyCooling(s, a, at).Some?
    ensures PassesRouteGates(cfg, s, c, at) && !Judge(cfg, s, c, at).dial.Ready?
    ensures forall i :: i in Sampled(c) && i != a ==> !KeyReady(s, i, at)
  {
    ReadyExactly(cfg, s, c, at);
    hide Judge;
  }

  /** No transient failure, in any run, makes a difference to a configured candidate after a quarter second. */
  ghost predicate AlwaysPasses(cfg: Config) {
    forall es, e: Event, model, group, ordinal: nat, at: nat ::
      Configured(cfg, es + [e]) && e.Transient? && group in cfg.groups
      && Run(cfg, FreshWorld(cfg), es).clock + e.dt + HEALTHY_ROUTE_STEP <= at
      && Spares(cfg, Run(cfg, FreshWorld(cfg), es), e,
                CandidateFor(cfg, Run(cfg, FreshWorld(cfg), es).table.rotation, model, group, ordinal)) ==>
        var w := Run(cfg, FreshWorld(cfg), es);
        var c := CandidateFor(cfg, w.table.rotation, model, group, ordinal);
        Judge(cfg, AfterTransient(cfg, es, e), c, at) == Judge(cfg, w.table, c, at)
  }

  /** That holds exactly when no group has two keys, or when all keys are of one group. */
  lemma TransientPassesExactly(cfg: Config)
    ensures AlwaysPasses(cfg) <==> OneKeyPerGroup(cfg) || OneGroup(cfg)
  {
    hide Judge, Configured, Spares, CandidateFor, Run, AfterTransient;
    if OneKeyPerGroup(cfg) || OneGroup(cfg) {
      forall es, e: Event, model, group, ordinal: nat, at: nat
        | Configured(cfg, es + [e]) && e.Transient? && group in cfg.groups
          && Run(cfg, FreshWorld(cfg), es).clock + e.dt + HEALTHY_ROUTE_STEP <= at
          && Spares(cfg, Run(cfg, FreshWorld(cfg), es), e,
                    CandidateFor(cfg, Run(cfg, FreshWorld(cfg), es).table.rotation, model, group, ordinal))
        ensures var w := Run(cfg, FreshWorld(cfg), es);
                var c := CandidateFor(cfg, w.table.rotation, model, group, ordinal);
                Judge(cfg, AfterTransient(cfg, es, e), c, at) == Judge(cfg, w.table, c, at)
      {
        TransientPasses(cfg, es, e, model, group, ordinal, at);
      }
    } else {
      var i, j :| 0 <= i < j < |cfg.groups| && cfg.groups[i] == cfg.groups[j];
      var p, q :| 0 <= p < q < |cfg.groups| && cfg.groups[p] != cfg.groups[q];
      var g := cfg.groups[i];
      assert i in Members(cfg.groups, g) && j in Members(cfg.groups, g);
      TransientOutlasts(cfg, g, if cfg.groups[p] != g then p else q);
      var e, es := Failure(KeyAt(cfg, g, 0)), CutShort(KeyAt(cfg, g, 0), KeyAt(cfg, g, 1));
      assert e.Transient? && g in cfg.groups && e.dt == 0;
      assert Judge(cfg, AfterTransient(cfg, es, e), CandidateFor(cfg, 0, ASKED, g, 0), HEALTHY_ROUTE_STEP)
          != Judge(cfg, Run(cfg, FreshWorld(cfg), es).table, CandidateFor(cfg, 0, ASKED, g, 0), HEALTHY_ROUTE_STEP);
    }
  }
}
