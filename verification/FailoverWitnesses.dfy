/** Requests that show where the general claims stop: a route dialed again, one given up early, a needless sleep. */
module FailoverWitnesses {
  import opened Options
  import opened ModelCircuit
  import opened Routing
  import opened Expiry
  import opened Planner
  import opened Runs
  import opened Rotation
  import opened Readiness
  import opened Failover
  import opened FailoverTheorems

  const MODEL: Name := "m"
  const LITERAL := LiteralSpec(MODEL)

  /** A world that some run of the table brings about. */
  ghost predicate Reachable(cfg: Config, w: World) {
    exists es :: w == Run(cfg, FreshWorld(cfg), es)
  }

  // --- 401s leave one group alone -------------------------------------------------------------------

  /** A 401 for every key before position n that is outside the group. */
  function Refusals(cfg: Config, g: Name, n: nat): seq<Event>
    requires n <= |cfg.groups|
  {
    if n == 0 then []
    else if cfg.groups[n - 1] == g then Refusals(cfg, g, n - 1)
    else Refusals(cfg, g, n - 1) + [Event.Rejected(RouteTarget(MODEL, cfg.groups[n - 1], n - 1, 0))]
  }

  function KeysAfter(cfg: Config, g: Name, n: nat): seq<KeyState> {
    seq(|cfg.groups|, i requires 0 <= i < |cfg.groups| =>
      if i < n && cfg.groups[i] != g then FRESH_KEY.(unusable := true) else FRESH_KEY)
  }

  function RefusedWorld(cfg: Config, g: Name, n: nat): World {
    FreshWorld(cfg).(table := FreshTable(cfg).(keys := KeysAfter(cfg, g, n)))
  }

  lemma {:induction false} RefusalsRun(cfg: Config, g: Name, n: nat)
    requires n <= |cfg.groups|
    ensures Run(cfg, FreshWorld(cfg), Refusals(cfg, g, n)) == RefusedWorld(cfg, g, n)
  {
    if n == 0 {
      assert KeysAfter(cfg, g, 0) == FreshTable(cfg).keys;
    } else {
      RefusalsRun(cfg, g, n - 1);
      var before := Refusals(cfg, g, n - 1);
      if cfg.groups[n - 1] == g {
        assert KeysAfter(cfg, g, n) == KeysAfter(cfg, g, n - 1);
      } else {
        assert Refusals(cfg, g, n)[..|before|] == before;
        assert KeysAfter(cfg, g, n) == KeysAfter(cfg, g, n - 1)[n - 1 := FRESH_KEY.(unusable := true)];
      }
    }
  }

  /** Only the keys of one group are accepted; nothing else has happened to the table. */
  function OnlyGroup(cfg: Config, g: Name): World {
    RefusedWorld(cfg, g, |cfg.groups|)
  }

  lemma ReadyInGroup(cfg: Config, g: Name, c: Candidate)
    requires forall k :: k in Sampled(c) ==> k < |cfg.groups| && cfg.groups[k] == c.group
    ensures Judge(cfg, OnlyGroup(cfg, g).table, c, 0).dial.Ready? <==> c.group == g
    ensures c.group == g ==> ChosenKey(OnlyGroup(cfg, g).table, c, 0) == c.a
  {
    var s := OnlyGroup(cfg, g).table;
    ReadyExactly(cfg, s, c, 0);
    hide Judge;
    assert c.a in Sampled(c);
    if c.group == g { assert KeyReady(s, c.a, 0); }
  }

  lemma SamplesItsGroup(cfg: Config, rotation: nat, model: Name, group: Name, ordinal: nat)
    requires group in cfg.groups
    ensures var c := CandidateFor(cfg, rotation, model, group, ordinal);
      c.group == group && forall k :: k in Sampled(c) ==> k < |cfg.groups| && cfg.groups[k] == c.group
  {
  }

  // --- plans take turns ------------------------------------------------------------------------------

  /** The key at the rotation's turn. */
  function Turn(cfg: Config, g: Name, rotation: nat): RouteTarget
    requires |Members(cfg.groups, g)| > 1
  {
    RouteTarget(MODEL, g, Members(cfg.groups, g)[rotation % |Members(cfg.groups, g)|], 0)
  }

  lemma NextDiffers(rotation: nat, n: nat)
    requires n > 1
    ensures rotation % n != (rotation + 1) % n
  {
    SlotsDiffer(0, 1, rotation, n);
  }

  /** The group's candidate samples two keys, one of which is not the one that was tried. */
  lemma TwoSampled(cfg: Config, g: Name, rotation: nat, skipped: set<Identity>, tried: Identity)
    requires g in cfg.groups && |Members(cfg.groups, g)| > 1 && skipped <= {tried}
    ensures var c := CandidateFor(cfg, rotation, MODEL, g, 0);
      c.a == Turn(cfg, g, rotation).key && c.model == MODEL && c.group == g && AnyUnskipped(cfg, c, skipped)
  {
    var members, n := Members(cfg.groups, g), |Members(cfg.groups, g)|;
    NextDiffers(rotation, n);
    hide Members;
    var c := CandidateFor(cfg, rotation, MODEL, g, 0);
    var a, b := members[rotation % n], members[(rotation + 1) % n];
    assert Sampled(c) == [a, b];
    assert a in Sampled(c) && b in Sampled(c);
    assert CandidateIdentity(cfg, c, a) != CandidateIdentity(cfg, c, b);
  }

  /** Only one group is healthy and nobody waits for anything; the rotation stands at n. */
  ghost predicate Standing(cfg: Config, g: Name, w: World, rotation: nat) {
    w.clock == 0 && Same(OnlyGroup(cfg, g).table, w.table, 0) && w.table.rotation == rotation
  }

  lemma StandingStill(cfg: Config, g: Name)
    ensures Standing(cfg, g, OnlyGroup(cfg, g), 0)
  {
    SameRefl(OnlyGroup(cfg, g).table, 0);
  }

  lemma StandingJudge(cfg: Config, g: Name, w: World, rotation: nat, c: Candidate)
    requires Standing(cfg, g, w, rotation)
    requires forall k :: k in Sampled(c) ==> k < |cfg.groups| && cfg.groups[k] == c.group
    ensures Judge(cfg, w.table, c, 0).dial.Ready? <==> c.group == g
    ensures c.group == g ==> ChosenKey(w.table, c, 0) == c.a
  {
    hide Judge, ChosenKey, Same, OnlyGroup;
    ReadyInGroup(cfg, g, c);
    SameJudge(cfg, OnlyGroup(cfg, g).table, w.table, c, 0, 0);
    SameChosenKey(OnlyGroup(cfg, g).table, w.table, c, 0);
  }

  /** A plan picks the key whose turn it is, tried or not, and passes the turn on. */
  lemma PlansInTurn(cfg: Config, g: Name, w: World, rotation: nat, tag: string, skipped: set<Identity>, tried: Identity)
    requires g in cfg.groups && |Members(cfg.groups, g)| > 1 && Standing(cfg, g, w, rotation)
    requires Sessionless(tag) && skipped <= {tried}
    ensures var (s', r) := Plan(cfg, w.table, LITERAL, tag, skipped, 0, 0);
      r.Planned? && r.target == Turn(cfg, g, rotation) && Standing(cfg, g, w.(table := s'), rotation + 1)
  {
    hide Plan, Judge, ChosenKey, TierCandidates, DialableIn, Order, Same;
    hide CandidateFor, Members, OnlyGroup, Sampled, EarliestIn, AnyUnskipped;
    var s, c := w.table, CandidateFor(cfg, rotation, MODEL, g, 0);
    var tiers := ProfileOf(cfg, LITERAL).tiers;
    TwoSampled(cfg, g, rotation, skipped, tried);
    SamplesItsGroup(cfg, rotation, MODEL, g, 0);
    StandingJudge(cfg, g, w, rotation, c);
    TierCandidatesMeans(cfg, rotation, [MODEL], c);
    CandidateNames(cfg, rotation, MODEL, g, 0);
    assert Dialable(cfg, s, c, skipped, 0) && c in CandidatesOf(cfg, s, tiers, 0);
    PlansTierExactly(cfg, s, LITERAL, tag, skipped, 0, 0, 0);
    PlanMeans(cfg, s, LITERAL, tag, skipped, 0, 0);
    SameTrans(OnlyGroup(cfg, g).table, s, Plan(cfg, s, LITERAL, tag, skipped, 0, 0).0, 0);
    var won := Winner(cfg, s, tiers, 0, ContextOf(cfg, s, LITERAL, tag, skipped, 0));
    TierCandidatesMeans(cfg, rotation, [MODEL], won);
    SamplesItsGroup(cfg, rotation, MODEL, won.group, 0);
    CandidateNames(cfg, rotation, MODEL, won.group, 0);
    StandingJudge(cfg, g, w, rotation, won);
    assert won == c;
  }

  /** n plans by others. */
  function Plans(n: nat): seq<Event> {
    seq(n, _ => Event.Planned(0, 0, LITERAL, "", {}))
  }

  lemma {:induction false} PlansPassTheTurn(cfg: Config, g: Name, w: World, rotation: nat, n: nat)
    requires g in cfg.groups && |Members(cfg.groups, g)| > 1 && Standing(cfg, g, w, rotation)
    ensures Standing(cfg, g, Run(cfg, w, Plans(n)), rotation + n)
  {
    hide Plan, Members, Same, OnlyGroup;
    if n > 0 {
      PlansPassTheTurn(cfg, g, w, rotation, n - 1);
      assert Plans(n)[..n - 1] == Plans(n - 1);
      PlansInTurn(cfg, g, Run(cfg, w, Plans(n - 1)), rotation + n - 1, "", {}, Identity(0, 0, 0));
    }
  }

  // --- the same key again ------------------------------------------------------------------------------

  /**
   * The upstream answers 403. Others act once, before the request's second plan: they plan as often as it takes for
   * the turn to come round, and do nothing else.
   */
  function Refusing(plans: nat): Environment {
    Environment(i => if i == 7 then Plans(plans) else [], _ => None, _ => Forbidden(403), _ => 0.0, _ => 0, _ => 0,
                true)
  }

  function Asking(cfg: Config, g: Name): Setup {
    var n := |Members(cfg.groups, g)|;
    Setup(cfg, Refusing(if n > 1 then n - 2 else 0), Budget(2, 0, 0), CB.Limits(1, 0, 0), LITERAL, "")
  }

  /** Nobody does anything: only the step is counted. */
  lemma Undisturbed(x: Setup, m: Moment)
    requires x.env.others(m.tick + 1) == [] && x.env.breakers(m.tick + 1).None?
    ensures Disturbed(x, m) == m.(tick := m.tick + 1)
  {
  }

  /** A round that dials a key and is refused with 403. */
  function RefusedRound(x: Setup, m: Moment, t: RouteTarget, skipped: set<Identity>, attempt: nat): Round {
    var answered := Disturbed(x, BeginStep(x, m, t));
    var held := Disturbed(x, answered);
    var left := Runs.Step(x.cfg, Unpin(x, held.world), Dropped(OwnId(held)));
    var recorded := Moment(left, CB.Neutral(held.breaker), held.tick, None);
    var (end, next, retries) := DecideStep(x, recorded, Forbidden(403), t, skipped, attempt, 0, 0);
    Round(t, Forbidden(403), 0, false, recorded, next, retries, end)
  }

  lemma RefusedRoundIsOk(x: Setup, m: Moment, t: RouteTarget, skipped: set<Identity>, attempt: nat)
    requires x.env.replies(m.tick + 2) == Forbidden(403)
    ensures DialOk(x, m, t, skipped, 0, attempt, RefusedRound(x, m, t, skipped, attempt))
  {
    hide DecideStep, Run, Runs.Step, Unpin, UsableRoutes, HashesApart;
    var answered := Disturbed(x, BeginStep(x, m, t));
    var held := Disturbed(x, answered);
    var rd := RefusedRound(x, m, t, skipped, attempt);
    assert Recorded(x, held.world, Forbidden(403), t, attempt, x.env.jitter(held.tick), OwnId(held))
        == Unpin(x, held.world);
    assert Surveyed(x, Forbidden(403), Unpin(x, held.world), Unpin(x, held.world));
    assert FailedStep(x, held, Forbidden(403), t, attempt, 0, false, rd.recorded);
  }

  /** Taking a guard and dropping it again leaves the table as it was. */
  lemma TakenAndDropped(cfg: Config, s: Table, t: RouteTarget)
    requires !OffersProbe(ModelOf(s, t.model))
    ensures var s' := DropGuard(BeginAttempt(s, t), t.key, t.model, false); Same(s, s', 0) && s'.rotation == s.rotation
  {
    var s' := DropGuard(BeginAttempt(s, t), t.key, t.model, false);
    assert forall m :: ModelOf(s', m) == ModelOf(s, m);
    assert forall id :: RouteOf(s', id) == RouteOf(s, id);
    assert forall g :: GroupOf(s', g) == GroupOf(s, g);
    assert s'.keys == s.keys;
  }

  lemma NothingToProbe(cfg: Config, g: Name, w: World, rotation: nat)
    requires Standing(cfg, g, w, rotation)
    ensures !OffersProbe(ModelOf(w.table, MODEL))
  {
    assert View(ModelOf(OnlyGroup(cfg, g).table, MODEL), 0) == FRESH_MODEL;
    assert View(ModelOf(w.table, MODEL), 0) == FRESH_MODEL;
  }

  /** Left alone during the attempt, the refused request finds the table as it was when it decides. */
  lemma RefusalLeavesNothing(x: Setup, g: Name, m: Moment, rotation: nat, t: RouteTarget, skipped: set<Identity>,
                             attempt: nat)
    requires Standing(x.cfg, g, m.world, rotation) && m.own.None? && t.model == MODEL && x.tag == ""
    requires forall i: nat :: m.tick < i <= m.tick + 3 ==> x.env.others(i) == [] && x.env.breakers(i).None?
    ensures var recorded := RefusedRound(x, m, t, skipped, attempt).recorded;
      && Standing(x.cfg, g, recorded.world, rotation) && recorded.tick == m.tick + 3 && recorded.own.None?
      && recorded.breaker == CB.Neutral(m.breaker)
  {
    hide Same, DecideStep, OnlyGroup, BeginAttempt, DropGuard, Run;
    Undisturbed(x, m);
    Undisturbed(x, BeginStep(x, m, t));
    Undisturbed(x, Disturbed(x, BeginStep(x, m, t)));
    NothingToProbe(x.cfg, g, m.world, rotation);
    TakenAndDropped(x.cfg, m.world.table, t);
    var s' := DropGuard(BeginAttempt(m.world.table, t), t.key, t.model, false);
    SameTrans(OnlyGroup(x.cfg, g).table, m.world.table, s', 0);
    var held := Disturbed(x, Disturbed(x, BeginStep(x, m, t)));
    assert held.world.guards[OwnId(held)] == Guard(t.key, t.model, false);
    assert Unpin(x, held.world) == held.world;
    assert RefusedRound(x, m, t, skipped, attempt).recorded.world.table == s';
  }

  /** The refusal is followed up by a plan, which finds the group's other keys and uses up their turn. */
  lemma RefusalGoesOn(x: Setup, g: Name, m: Moment, rotation: nat, t: RouteTarget, skipped: set<Identity>)
    requires g in x.cfg.groups && |Members(x.cfg.groups, g)| > 1 && Standing(x.cfg, g, m.world, rotation)
    requires x.spec == LITERAL && x.tag == "" && x.budget.attempts > 1 && skipped == {IdentityOf(x.cfg, t)}
    requires x.env.others(m.tick + 1) == [] && x.env.breakers(m.tick + 1).None? && x.env.lag(m.tick + 1) == 0
    ensures var (end, next, retries) := DecideStep(x, m, Forbidden(403), t, skipped, 1, 0, 0);
      && Standing(x.cfg, g, end.world, rotation + 1) && end.tick == m.tick + 1 && end.own == m.own
      && next.Again? && retries == 0
  {
    hide Plan, Same, OnlyGroup, Members, Run, IdentityOf;
    Undisturbed(x, m);
    assert skipped + {IdentityOf(x.cfg, t)} == skipped;
    assert BreakAffinity(m.world.table, "") == m.world.table;
    PlansInTurn(x.cfg, g, m.world, rotation, NO_SESSION, skipped, IdentityOf(x.cfg, t));
  }

  /** The others plan `before` times and leave everything else as it is. */
  lemma OthersPlan(x: Setup, g: Name, m: Moment, rotation: nat, before: nat)
    requires g in x.cfg.groups && |Members(x.cfg.groups, g)| > 1 && Standing(x.cfg, g, m.world, rotation)
    requires m.own.None? && x.env.others(m.tick + 1) == Plans(before) && x.env.breakers(m.tick + 1).None?
    ensures var d := Disturbed(x, m);
      && Standing(x.cfg, g, d.world, rotation + before) && d.tick == m.tick + 1 && d.own.None?
      && d.breaker == m.breaker
  {
    hide Standing, Members, Run, Spared, Plans;
    NothingSpared(Plans(before));
    PlansPassTheTurn(x.cfg, g, m.world, rotation, before);
  }

  /** Planning after the others planned `before` times: the key whose turn it then is. */
  lemma PlanningInTurn(x: Setup, g: Name, m: Moment, rotation: nat, before: nat, skipped: set<Identity>,
                       tried: Identity)
    requires g in x.cfg.groups && |Members(x.cfg.groups, g)| > 1 && Standing(x.cfg, g, m.world, rotation)
    requires x.spec == LITERAL && x.tag == "" && m.own.None? && skipped <= {tried}
    requires x.env.others(m.tick + 1) == Plans(before) && x.env.breakers(m.tick + 1).None? && x.env.lag(m.tick + 1) == 0
    ensures var (planned, plan) := PlanStep(x, m, skipped);
      && plan.Planned? && plan.target == Turn(x.cfg, g, rotation + before)
      && Standing(x.cfg, g, planned.world, rotation + before + 1) && planned.tick == m.tick + 1 && planned.own.None?
      && planned.breaker == m.breaker
  {
    hide Plan, Members, Turn, Disturbed, Same, OnlyGroup, Plans;
    var d := Disturbed(x, m);
    OthersPlan(x, g, m, rotation, before);
    PlansInTurn(x.cfg, g, d.world, rotation + before, "", skipped, tried);
    var planned := PlanStep(x, m, skipped).0;
    assert planned.world.table == Plan(x.cfg, d.world.table, LITERAL, "", skipped, 0, 0).0;
  }

  /** The breaker is closed and nobody touches it: the request may dial. */
  lemma MayDial(x: Setup, m: Moment)
    requires m.breaker.state.Closed? && x.env.others(m.tick + 1) == [] && x.env.breakers(m.tick + 1).None?
    ensures GateStep(x, m) == (m.(tick := m.tick + 1), CB.Allowed)
  {
    Undisturbed(x, m);
    hide Disturbed;
  }

  lemma TurnsComeRound(cfg: Config, g: Name)
    requires |Members(cfg.groups, g)| > 1
    ensures Turn(cfg, g, |Members(cfg.groups, g)|) == Turn(cfg, g, 0)
  {
    hide Members;
  }

  lemma NothingTold(x: Setup, m: Moment)
    ensures Story(x, m, []) && GoesOn([]) && Reached(m, []) == m && TriedBy(x.cfg, []) == {} && RetriesSoFar([]) == 0
  {
  }

  function Start(cfg: Config, g: Name): Moment {
    Moment(OnlyGroup(cfg, g), CB.Fresh(0), 0, None)
  }

  /** The first round: the key whose turn is first is refused, and the request goes on. */
  lemma FirstRound(cfg: Config, g: Name) returns (a: Round)
    requires g in cfg.groups && |Members(cfg.groups, g)| > 1
    ensures var x, m := Asking(cfg, g), Start(cfg, g);
      && Story(x, m, [a]) && GoesOn([a]) && a.target == Turn(cfg, g, 0) && RetriesSoFar([a]) == 0
      && Reached(m, [a]) == a.end && TriedBy(cfg, [a]) == {IdentityOf(cfg, a.target)}
      && Standing(cfg, g, a.end.world, 2) && a.end.tick == 6 && a.end.own.None? && a.end.breaker.state.Closed?
  {
    hide PlanStep, GateStep, DialOk, RefusedRound, Members, OnlyGroup, Standing, IdentityOf, Turn, Story;
    var x, m, t := Asking(cfg, g), Start(cfg, g), Turn(cfg, g, 0);
    var tried := {IdentityOf(cfg, t)};
    StandingStill(cfg, g);
    NothingTold(x, m);
    assert Plans(0) == [];
    PlanningInTurn(x, g, m, 0, 0, {}, IdentityOf(cfg, t));
    MayDial(x, PlanStep(x, m, {}).0);
    var gated := GateStep(x, PlanStep(x, m, {}).0).0;
    a := RefusedRound(x, gated, t, tried, 1);
    RefusedRoundIsOk(x, gated, t, tried, 1);
    TurnModel(cfg, g, 0);
    RefusalLeavesNothing(x, g, gated, 1, t, tried, 1);
    RefusalGoesOn(x, g, a.recorded, 1, t, tried);
    RefusedRoundEnds(x, gated, t, tried, 1);
    assert {} + tried == tried;
    Told(x, m, [], a, PlanStep(x, m, {}).1, GateStep(x, PlanStep(x, m, {}).0).1);
    assert [] + [a] == [a];
  }

  lemma TurnModel(cfg: Config, g: Name, rotation: nat)
    requires |Members(cfg.groups, g)| > 1
    ensures Turn(cfg, g, rotation).model == MODEL
  {
  }

  lemma RefusedRoundEnds(x: Setup, m: Moment, t: RouteTarget, skipped: set<Identity>, attempt: nat)
    ensures var rd := RefusedRound(x, m, t, skipped, attempt);
      && (rd.end, rd.next, rd.retries) == DecideStep(x, rd.recorded, Forbidden(403), t, skipped, attempt, 0, 0)
      && rd.target == t && rd.end.breaker == Disturbed(x, rd.recorded).breaker
  {
    hide Run, Runs.Step, Decision;
  }

  /**
   * Two keys or more in one group: after a 403 the same request dials the very same key again, once the follow-up and
   * the plans of others have brought its turn round.
   */
  lemma SharedGroupIsRedialed(cfg: Config, g: Name) returns (rounds: seq<Round>)
    requires g in cfg.groups && |Members(cfg.groups, g)| > 1
    ensures Story(Asking(cfg, g), Start(cfg, g), rounds) && !Distinct(cfg, rounds)
  {
    hide PlanStep, GateStep, DialOk, RefusedRound, Members, OnlyGroup, Standing, IdentityOf, Turn, Story;
    var x, m, t := Asking(cfg, g), Start(cfg, g), Turn(cfg, g, 0);
    var n, tried := |Members(cfg.groups, g)|, {IdentityOf(cfg, t)};
    var a := FirstRound(cfg, g);
    TurnsComeRound(cfg, g);
    PlanningInTurn(x, g, a.end, 2, n - 2, tried, IdentityOf(cfg, t));
    MayDial(x, PlanStep(x, a.end, tried).0);
    var gated := GateStep(x, PlanStep(x, a.end, tried).0).0;
    var b := RefusedRound(x, gated, t, tried, 2);
    RefusedRoundIsOk(x, gated, t, tried, 2);
    RefusedRoundEnds(x, gated, t, tried, 2);
    assert tried + tried == tried;
    Told(x, m, [a], b, PlanStep(x, a.end, tried).1, GateStep(x, PlanStep(x, a.end, tried).0).1);
    rounds := [a] + [b];
    assert rounds[0].target == rounds[1].target;
  }

  /** No request that starts in a reachable world dials an identity twice, whatever others do. */
  ghost predicate AlwaysDistinct(cfg: Config) {
    forall x: Setup, m: Moment, rounds ::
      x.cfg == cfg && Reachable(cfg, m.world) && m.own.None? && Story(x, m, rounds) ==> Distinct(cfg, rounds)
  }

  lemma OnlyGroupIsReachable(cfg: Config, g: Name)
    ensures Reachable(cfg, OnlyGroup(cfg, g))
  {
    RefusalsRun(cfg, g, |cfg.groups|);
  }

  /** No request dials an identity twice, whatever it meets, exactly when no quota group holds two keys. */
  lemma DialsDistinctExactly(cfg: Config)
    ensures AlwaysDistinct(cfg) <==> OneKeyPerGroup(cfg)
  {
    hide Story, Distinct, Reachable, OnlyGroup;
    if OneKeyPerGroup(cfg) {
      forall x: Setup, m: Moment, rounds
        | x.cfg == cfg && Reachable(cfg, m.world) && m.own.None? && Story(x, m, rounds)
        ensures Distinct(cfg, rounds)
      {
        NeverDialsTwice(x, m, rounds);
      }
    } else {
      var i, j :| 0 <= i < j < |cfg.groups| && cfg.groups[i] == cfg.groups[j];
      var g := cfg.groups[i];
      assert i in Members(cfg.groups, g) && j in Members(cfg.groups, g);
      OnlyGroupIsReachable(cfg, g);
      var rounds := SharedGroupIsRedialed(cfg, g);
      assert Asking(cfg, g).cfg == cfg && Start(cfg, g).world == OnlyGroup(cfg, g) && Start(cfg, g).own.None?;
    }
  }

  // --- given up although a route is left ---------------------------------------------------------------

  /** One group of two keys. */
  const TWO := Config(["a", "a"], map[], (n: Name) => |n|,
                      Thresholds(2, 20_000, 30_000, 2, 300_000, 3_600_000),
                      10_000, 120_000, 600_000, 120_000, 0, 0)

  const SPENT := QuotaSpent(Hint(1, false))

  /** The upstream says the quota is back in a millisecond; five pass before the request decides. */
  const SLOW := Environment(i => if i == 6 then [Waited(5)] else [], _ => None, _ => SPENT, _ => 0.0, _ => 0, _ => 0,
                            true)
  const HASTY := Setup(TWO, SLOW, Budget(2, 0, 1_000), CB.Limits(1, 0, 0), LITERAL, "")

  const AT_FIRST := Moment(FreshWorld(TWO), CB.Fresh(0), 0, None)

  lemma TwoMembers()
    ensures Members(TWO.groups, "a") == [0, 1]
    ensures forall g :: g in TWO.groups ==> g == "a"
  {
    assert TWO.groups[..1] == ["a"] && TWO.groups[..1][..0] == [];
    assert Members([], "a") == [];
    assert Members(["a"], "a") == [0];
  }

  /** Whatever the table, a rotation of 0 or 1 makes the group's candidate sample both keys. */
  lemma BothSampled(rotation: nat)
    requires rotation < 2
    ensures CandidateFor(TWO, rotation, MODEL, "a", 0) == Candidate(MODEL, "a", rotation, Some(1 - rotation), 0)
  {
    TwoMembers();
    hide Members;
  }

  /** The exhausted round: recorded with no time lost, decided five milliseconds later. */
  function SpentRound(m: Moment, t: RouteTarget, skipped: set<Identity>): Round {
    var held := Disturbed(HASTY, Disturbed(HASTY, BeginStep(HASTY, m, t)));
    var w := Recorded(HASTY, held.world, SPENT, t, 1, 0.0, OwnId(held));
    var recorded := Moment(Runs.Step(TWO, w, Dropped(OwnId(held))), CB.Exhaust(held.breaker, 1, held.world.clock),
                           held.tick, None);
    var (end, next, retries) := DecideStep(HASTY, recorded, SPENT, t, skipped, 1, 1, 0);
    Round(t, SPENT, 1, true, recorded, next, retries, end)
  }

  lemma NoProfiles(s: Table, now: nat)
    ensures UsableRoutes(TWO, s, now) == {}
  {
  }

  lemma SpentRoundIsOk(m: Moment, t: RouteTarget, skipped: set<Identity>)
    ensures DialOk(HASTY, m, t, skipped, 0, 1, SpentRound(m, t, skipped))
  {
    hide DecideStep, Run, Runs.Step, UsableRoutes, HashesApart, Recorded, CB.Exhaust;
    var held := Disturbed(HASTY, Disturbed(HASTY, BeginStep(HASTY, m, t)));
    var rd := SpentRound(m, t, skipped);
    var w := Recorded(HASTY, held.world, SPENT, t, 1, 0.0, OwnId(held));
    NoProfiles(w.table, held.world.clock);
    assert DialAll(TWO, w.table, [], w.clock) == w.table;
    assert w == w.(table := DialAll(TWO, w.table, [], w.clock));
    assert Surveyed(HASTY, SPENT, w, w);
    assert FailedStep(HASTY, held, SPENT, t, 1, 1, true, rd.recorded);
  }

  /** Nobody else interferes before the decision, and then only time passes. */
  lemma Hurried(m: Moment)
    ensures m.tick != 5 ==> Disturbed(HASTY, m) == m.(tick := m.tick + 1)
    ensures m.tick == 5 ==> Disturbed(HASTY, m) == m.(world := m.world.(clock := m.world.clock + 5), tick := 6)
  {
    if m.tick == 5 {
      var es := [Waited(5)];
      assert es[..0] == [];
      assert Spared(es[..0], m.own) + [es[0]] == es;
      assert Run(TWO, m.world, []) == m.world;
      assert Run(TWO, m.world, es) == Runs.Step(TWO, m.world, Waited(5));
    }
  }

  /** The table after the first key was taken, reported its quota spent and was given back, all at once. */
  function SpentTable(s: Table, t: RouteTarget): Table {
    DropGuard(NoteQuotaExhausted(TWO, BeginAttempt(s, t), t, 1, 0), t.key, t.model, false)
  }

  const FIRST_KEY := RouteTarget(MODEL, "a", 0, 0)

  lemma FreshStanding()
    ensures Standing(TWO, "a", FreshWorld(TWO), 0) && |Members(TWO.groups, "a")| > 1
    ensures Turn(TWO, "a", 0) == FIRST_KEY
  {
    TwoMembers();
    hide Members;
    assert KeysAfter(TWO, "a", 2) == FreshTable(TWO).keys;
    StandingStill(TWO, "a");
  }

  /** Five milliseconds later the group's other key is ready again. */
  lemma OtherKeyIsReady(w: World)
    requires Standing(TWO, "a", w, 1)
    ensures var s, c := SpentTable(w.table, FIRST_KEY), Candidate(MODEL, "a", 1, Some(0), 0);
      s.rotation == 1 && Dialable(TWO, s, c, {IdentityOf(TWO, FIRST_KEY)}, 5)
  {
    var s0, s, c := OnlyGroup(TWO, "a").table, SpentTable(w.table, FIRST_KEY), Candidate(MODEL, "a", 1, Some(0), 0);
    NothingToProbe(TWO, "a", w, 1);
    assert Same(s0, w.table, 0);
    assert LiveKey(s0.keys[1], 0) == LiveKey(w.table.keys[1], 0);
    assert LiveRoute(RouteOf(s0, CandidateId(TWO, c)), 0) == LiveRoute(RouteOf(w.table, CandidateId(TWO, c)), 0);
    assert View(ModelOf(s0, MODEL), 0) == View(ModelOf(w.table, MODEL), 0) == FRESH_MODEL;
    assert ModelOf(s, MODEL) == ModelOf(w.table, MODEL);
    ViewView(ModelOf(w.table, MODEL), 0, 5);
    assert Sampled(c) == [1, 0];
    assert KeyReady(s, 1, 5);
    assert AnyKeyReady(s, c, 5);
    ReadyExactly(TWO, s, c, 5);
    assert CandidateIdentity(TWO, c, 1) !in {IdentityOf(TWO, FIRST_KEY)};
  }

  /** What is recorded is that table, and the decision comes five milliseconds later. */
  lemma SpentRoundRecords(m: Moment)
    requires m.tick == 2 && m.own.None? && m.world.clock == 0 && !OffersProbe(ModelOf(m.world.table, MODEL))
    ensures var rd := SpentRound(m, FIRST_KEY, {IdentityOf(TWO, FIRST_KEY)});
      && rd.recorded.world.table == SpentTable(m.world.table, FIRST_KEY) && rd.recorded.world.clock == 0
      && rd.recorded.tick == 5 && Disturbed(HASTY, rd.recorded).world == rd.recorded.world.(clock := 5)
  {
    hide BeginAttempt, NoteQuotaExhausted, DropGuard, DecideStep, Disturbed;
    Hurried(m);
    var begun := BeginStep(HASTY, m, FIRST_KEY);
    Hurried(begun);
    Hurried(Disturbed(HASTY, begun));
    var held := Disturbed(HASTY, Disturbed(HASTY, begun));
    assert held.world.guards[OwnId(held)] == Guard(0, MODEL, false);
    Hurried(SpentRound(m, FIRST_KEY, {IdentityOf(TWO, FIRST_KEY)}).recorded);
  }

  /** The planner finds the group's other key, and the request stops for it. */
  lemma StopsForItsGroup(w: World)
    requires w.clock == 5 && w.table.rotation == 1
    requires Dialable(TWO, w.table, Candidate(MODEL, "a", 1, Some(0), 0), {IdentityOf(TWO, FIRST_KEY)}, 5)
    ensures SomethingLeft(HASTY, w, {IdentityOf(TWO, FIRST_KEY)}, 0)
    ensures Decision(HASTY, w, SPENT, FIRST_KEY, {IdentityOf(TWO, FIRST_KEY)}, 1, 0, 0).1.Stop?
  {
    hide Plan, Dialable, TierCandidates, IdentityOf, CandidateFor;
    var tried, tiers := {IdentityOf(TWO, FIRST_KEY)}, ProfileOf(TWO, LITERAL).tiers;
    BothSampled(1);
    TwoMembers();
    TierCandidatesMeans(TWO, 1, [MODEL], Candidate(MODEL, "a", 1, Some(0), 0));
    assert HasDialable(TWO, w.table, tiers, 0, tried, 5);
    PlansTierExactly(TWO, w.table, LITERAL, "", tried, 5, 5, 0);
    PlannedTargetIsHealthy(TWO, w.table, LITERAL, "", tried, 5, 5);
    assert tried + tried == tried;
  }

  /**
   * Once a quota cooldown has passed by the decision, comparing the groups ends a request early: it gives up after one
   * of its two attempts although the other key of its group can be dialed.
   */
  lemma GivesUpWithARouteLeft() returns (rd: Round)
    ensures Story(HASTY, AT_FIRST, [rd]) && AT_FIRST.world == FreshWorld(TWO) && HASTY.budget.attempts == 2
    ensures Ends(HASTY, AT_FIRST, [rd], GaveUp, Reported(ErrorFor(SPENT, 1)), rd.end)
    ensures SomethingLeft(HASTY, DecidedIn(HASTY, [rd]), TriedBy(TWO, [rd]), 0) && !StaysOut(HASTY, rd)
  {
    hide PlanStep, GateStep, DialOk, Standing, SomethingLeft, SpentRound, SpentTable, Decision, Turn, IdentityOf;
    hide Members, Story, Run, Dialable;
    var tried := {IdentityOf(TWO, FIRST_KEY)};
    FreshStanding();
    NothingTold(HASTY, AT_FIRST);
    assert Plans(0) == [];
    PlanningInTurn(HASTY, "a", AT_FIRST, 0, 0, {}, IdentityOf(TWO, FIRST_KEY));
    MayDial(HASTY, PlanStep(HASTY, AT_FIRST, {}).0);
    var gated := GateStep(HASTY, PlanStep(HASTY, AT_FIRST, {}).0).0;
    rd := SpentRound(gated, FIRST_KEY, tried);
    SpentRoundIsOk(gated, FIRST_KEY, tried);
    assert {} + tried == tried;
    Told(HASTY, AT_FIRST, [], rd, PlanStep(HASTY, AT_FIRST, {}).1,
         GateStep(HASTY, PlanStep(HASTY, AT_FIRST, {}).0).1);
    assert [] + [rd] == [rd];
    NothingToProbe(TWO, "a", gated.world, 1);
    StandingClock(gated.world);
    SpentRoundRecords(gated);
    OtherKeyIsReady(gated.world);
    StopsForItsGroup(Disturbed(HASTY, rd.recorded).world);
    SpentRoundEnds(gated, FIRST_KEY, tried);
  }

  lemma StandingClock(w: World)
    requires Standing(TWO, "a", w, 1)
    ensures w.clock == 0
  {
  }

  lemma SpentRoundEnds(m: Moment, t: RouteTarget, skipped: set<Identity>)
    ensures var rd, d := SpentRound(m, t, skipped), Disturbed(HASTY, SpentRound(m, t, skipped).recorded);
      && rd.next == Decision(HASTY, d.world, SPENT, t, skipped, 1, 0, 0).1 && rd.target == t
      && rd.reply == SPENT && rd.cooldown == 1
  {
    hide Decision, Run, Runs.Step;
  }

  // --- a sleep although a route is ready -------------------------------------------------------------

  /** Three groups of one key each; names hash to their length. */
  const THREE := Config(["a", "bb", "ccc"], map[], (n: Name) => |n|,
                        Thresholds(2, 20_000, 30_000, 2, 300_000, 3_600_000),
                        10_000, 120_000, 600_000, 120_000, 0, 0)

  /** The second route was told to wait five seconds; the first has just failed; the third is ready. */
  const LIMITED: seq<Event> := [Event.RateLimited(0, 0, RouteTarget(MODEL, "bb", 1, 0), 1, Some(5_000), 0.0)]

  lemma LimitedRoute(c: Candidate)
    requires c.model == MODEL && c.group in THREE.groups
    requires forall k :: k in Sampled(c) ==> k < 3 && THREE.groups[k] == c.group
    ensures var s := Run(THREE, FreshWorld(THREE), LIMITED).table;
      if c.group == "bb" then Judge(THREE, s, c, 0) == Verdict(Blocked(RouteCooling), Some(5_000))
      else Judge(THREE, s, c, 0).dial.Ready?
  {
    assert LIMITED[..0] == [];
    assert c.a in Sampled(c);
  }

  const FAILED := RouteTarget(MODEL, "a", 0, 0)

  lemma OneWaits(c: Candidate)
    requires c in TierCandidates(THREE, 0, [MODEL])
    ensures var s, tried := Run(THREE, FreshWorld(THREE), LIMITED).table, {IdentityOf(THREE, FAILED)};
      && (KnownWait(THREE, s, c, tried, 0).Some? ==> KnownWait(THREE, s, c, tried, 0) == Some(5_000))
      && (c.group == "bb" ==> KnownWait(THREE, s, c, tried, 0) == Some(5_000))
      && (c.group == "ccc" ==> Dialable(THREE, s, c, tried, 0))
  {
    ThreeCandidate(c);
    LimitedRoute(c);
    Untried(c);
    hide Run, Judge, TierCandidates, Sampled, AnyUnskipped, IdentityOf;
  }

  lemma Untried(c: Candidate)
    requires c.a in Sampled(c) && c.a < 3 && THREE.groups[c.a] == c.group
    ensures c.group != "a" ==> AnyUnskipped(THREE, c, {IdentityOf(THREE, FAILED)})
  {
    hide Sampled;
    assert c.group != "a" ==> CandidateIdentity(THREE, c, c.a) !in {IdentityOf(THREE, FAILED)};
  }

  lemma WaitingAndReady()
    ensures exists c :: c in TierCandidates(THREE, 0, [MODEL]) && c.group == "bb"
    ensures exists c :: c in TierCandidates(THREE, 0, [MODEL]) && c.group == "ccc"
  {
    hide CandidateFor, TierCandidates;
    ThreeCandidate(CandidateFor(THREE, 0, MODEL, "bb", 0));
    ThreeCandidate(CandidateFor(THREE, 0, MODEL, "ccc", 0));
    CandidateNames(THREE, 0, MODEL, "bb", 0);
    CandidateNames(THREE, 0, MODEL, "ccc", 0);
  }

  /** Although the third route can be dialed at once, the request sleeps until the second is due. */
  lemma SleepsThoughARouteIsReady()
    ensures var s := Run(THREE, FreshWorld(THREE), LIMITED).table;
      Followup(THREE, s, LITERAL, "", FAILED, {}, 0, 0).1 == Continue(5_000, false)
  {
    var s, tried := Run(THREE, FreshWorld(THREE), LIMITED).table, {IdentityOf(THREE, FAILED)};
    hide Run, Plan, TierCandidates, AnyUnskipped, KnownWait, Dialable, IdentityOf, FreshWorld, BreakAffinity;
    LimitedRotation();
    WaitingAndReady();
    forall c | c in TierCandidates(THREE, 0, [MODEL])
      ensures KnownWait(THREE, s, c, tried, 0).Some? ==> KnownWait(THREE, s, c, tried, 0) == Some(5_000)
      ensures c.group == "bb" ==> KnownWait(THREE, s, c, tried, 0) == Some(5_000)
      ensures c.group == "ccc" ==> Dialable(THREE, s, c, tried, 0)
    {
      OneWaits(c);
    }
    NoSession(s);
    assert {} + tried == tried;
    PlansTierExactly(THREE, s, LITERAL, NO_SESSION, tried, 0, 0, 0);
    PlannedFollowupSleepsExactly(THREE, s, LITERAL, "", FAILED, {}, 0, 0);
  }

  lemma NoSession(s: Table)
    ensures BreakAffinity(s, "") == s
  {
  }

  lemma LimitedRotation()
    ensures Run(THREE, FreshWorld(THREE), LIMITED).table.rotation == 0
  {
    assert LIMITED[..0] == [];
  }

  lemma ThreeCandidate(c: Candidate)
    requires c in TierCandidates(THREE, 0, [MODEL])
          || (exists g :: g in THREE.groups && c == CandidateFor(THREE, 0, MODEL, g, 0))
    ensures c in TierCandidates(THREE, 0, [MODEL]) && c.model == MODEL && c.group in THREE.groups
    ensures c.a in Sampled(c) && forall k :: k in Sampled(c) ==> k < 3 && THREE.groups[k] == c.group
  {
    hide CandidateFor, TierCandidates;
    TierCandidatesMeans(THREE, 0, [MODEL], c);
    forall g | g in THREE.groups
      ensures var c' := CandidateFor(THREE, 0, MODEL, g, 0);
        && c'.model == MODEL && c'.group == g && c'.ordinal == 0
        && forall k :: k in Sampled(c') ==> k < 3 && THREE.groups[k] == g
    {
      CandidateNames(THREE, 0, MODEL, g, 0);
      SamplesItsGroup(THREE, 0, MODEL, g, 0);
    }
  }
}
