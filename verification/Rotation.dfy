/** Equally ranked routes take turns, and a request's skip set is honoured exactly when groups hold one key each. */
module Rotation {
  import opened Options
  import opened Ordering
  import opened Routing
  import opened Expiry
  import opened Planner

  lemma MultiplesSpread(n: nat, k: int)
    ensures k >= 1 ==> n * k >= n
    ensures k <= -1 ==> n * k <= 0 - n
  {
    assert k >= 1 ==> n * (k - 1) >= 0;
    assert k <= -1 ==> n * (k + 1) <= 0;
  }

  /** Quotient and remainder are unique. */
  lemma ModUnique(x: int, n: nat, q: int, r: nat)
    requires r < n && x == n * q + r
    ensures x % n == r
  {
    var k := q - x / n;
    assert x == n * (x / n) + x % n;
    assert n * k == x % n - r;
    MultiplesSpread(n, k);
  }

  /** Two slots of one round never coincide. */
  lemma SlotsDiffer(p: nat, q: nat, rotation: nat, n: nat)
    requires p < q < n
    ensures (p + rotation) % n != (q + rotation) % n
  {
    var a, b := p + rotation, q + rotation;
    var k := b / n - a / n;
    assert a == n * (a / n) + a % n && b == n * (b / n) + b % n;
    assert b - a == n * k + (b % n - a % n);
    MultiplesSpread(n, k);
  }

  ghost predicate Least(cfg: Config, scored: seq<Scored>, affinity: Option<RouteId>, rotation: nat, p: nat)
    requires p < |scored|
  {
    forall q :: 0 <= q < |scored| ==>
      Le(RankAt(cfg, scored, affinity, rotation, p), RankAt(cfg, scored, affinity, rotation, q))
  }

  lemma LeastIsUnique(cfg: Config, scored: seq<Scored>, affinity: Option<RouteId>, rotation: nat, p: nat, q: nat)
    requires p < |scored| && q < |scored|
    requires Least(cfg, scored, affinity, rotation, p) && Least(cfg, scored, affinity, rotation, q)
    ensures p == q
  {
    assert Le(RankAt(cfg, scored, affinity, rotation, p), RankAt(cfg, scored, affinity, rotation, q));
    assert Le(RankAt(cfg, scored, affinity, rotation, q), RankAt(cfg, scored, affinity, rotation, p));
    if p < q { SlotsDiffer(p, q, rotation, |scored|); }
    if q < p { SlotsDiffer(q, p, rotation, |scored|); }
  }

  /** The head of the order is the candidate of least rank, and no two candidates share a rank. */
  lemma OrderHeadIsLeast(cfg: Config, scored: seq<Scored>, affinity: Option<RouteId>, rotation: nat) returns (p: nat)
    requires scored != []
    ensures p < |scored| && Least(cfg, scored, affinity, rotation, p)
    ensures Order(cfg, scored, affinity, rotation)[0] == scored[p]
  {
    var ranked := RankAll(cfg, scored, affinity, rotation);
    var sorted := SortByRank(ranked);
    SortSorts(ranked);
    assert sorted[0] in multiset(sorted) && sorted[0] in ranked;
    p :| 0 <= p < |ranked| && ranked[p] == sorted[0];
    forall q | 0 <= q < |scored| ensures Le(ranked[p].rank, ranked[q].rank) {
      assert ranked[q] in multiset(ranked) && ranked[q] in sorted;
      var i :| 0 <= i < |sorted| && sorted[i] == ranked[q];
      assert i > 0 ==> Le(sorted[0].rank, sorted[i].rank);
    }
    assert forall q :: 0 <= q < |scored| ==> ranked[q].rank == RankAt(cfg, scored, affinity, rotation, q);
  }

  /** Nobody is favoured: equal scores, no affinity among the candidates. */
  predicate EvenlyMatched(cfg: Config, scored: seq<Scored>, affinity: Option<RouteId>) {
    forall p, q :: 0 <= p < |scored| && 0 <= q < |scored| ==>
      scored[p].score == scored[q].score && affinity != Some(CandidateId(cfg, scored[p].candidate))
  }

  predicate FirstListed(scored: seq<Scored>, p: nat)
    requires p < |scored|
  {
    forall q :: 0 <= q < |scored| ==> scored[p].candidate.ordinal <= scored[q].candidate.ordinal
  }

  /** Within any n consecutive rotations there is one at which slot p comes first. */
  function TurnOf(p: nat, base: nat, n: nat): (k: nat)
    requires p < n
    ensures k < n
  {
    if (p + base) % n == 0 then 0 else n - (p + base) % n
  }

  lemma TurnComes(p: nat, base: nat, n: nat)
    requires p < n
    ensures (p + base + TurnOf(p, base, n)) % n == 0
  {
    var x := p + base;
    assert x == n * (x / n) + x % n;
    if x % n != 0 {
      assert n * (x / n + 1) == n * (x / n) + n;
      ModUnique(x + TurnOf(p, base, n), n, x / n + 1, 0);
    }
  }

  /** Every evenly matched candidate of the first-listed model heads the order once in any n consecutive rotations. */
  lemma EveryCandidateGetsATurn(cfg: Config, scored: seq<Scored>, affinity: Option<RouteId>, base: nat, p: nat)
    requires EvenlyMatched(cfg, scored, affinity) && p < |scored| && FirstListed(scored, p)
    ensures Order(cfg, scored, affinity, base + TurnOf(p, base, |scored|))[0] == scored[p]
  {
    var rotation := base + TurnOf(p, base, |scored|);
    TurnComes(p, base, |scored|);
    assert Least(cfg, scored, affinity, rotation, p);
    var head := OrderHeadIsLeast(cfg, scored, affinity, rotation);
    LeastIsUnique(cfg, scored, affinity, rotation, p, head);
  }

  /** With a single model in the tier, each candidate heads the order exactly once in the round. */
  lemma ExactlyOneTurn(cfg: Config, scored: seq<Scored>, affinity: Option<RouteId>, base: nat, p: nat, k: nat)
    requires EvenlyMatched(cfg, scored, affinity) && p < |scored| && k < |scored|
    requires forall q :: 0 <= q < |scored| ==> FirstListed(scored, q)
    requires Least(cfg, scored, affinity, base + k, p)
    ensures k == TurnOf(p, base, |scored|)
  {
    var n := |scored|;
    var turn := TurnOf(p, base, n);
    var q := TurnOf(0, base + k, n);
    TurnComes(0, base + k, n);
    assert (q + (base + k)) % n == 0;
    assert FirstListed(scored, p) && FirstListed(scored, q);
    assert Le(RankAt(cfg, scored, affinity, base + k, p), RankAt(cfg, scored, affinity, base + k, q));
    assert (p + (base + k)) % n == 0;
    TurnComes(p, base, n);
    if k < turn { SlotsDiffer(k, turn, p + base, n); }
    if turn < k { SlotsDiffer(turn, k, p + base, n); }
  }

  /**
   * Affinity outranks score: a plan that lands on a tier picks the pinned route, whatever its load, exactly when that
   * route can be dialed there.
   */
  lemma PinnedRouteWins(cfg: Config, s: Table, spec: RouteSpec, tag: string, skipped: set<Identity>, pin: RouteId,
                        now: nat, later: nat)
    requires Known(cfg, spec) && now <= later && AffinityRoute(s, tag, now).1 == Some(pin)
    ensures var r := Plan(cfg, s, spec, tag, skipped, now, later).1;
      r.Planned? ==>
        r.target.tier < |ProfileOf(cfg, spec).tiers| &&
        (TargetId(cfg, r.target) == pin <==>
          exists c :: c in CandidatesOf(cfg, s, ProfileOf(cfg, spec).tiers, r.target.tier)
            && CandidateId(cfg, c) == pin && Dialable(cfg, s, c, skipped, now))
  {
    hide Plan, Judge, Reaches, DialableIn, Order, TierCandidates;
    PlanMeans(cfg, s, spec, tag, skipped, now, later);
    var r := Plan(cfg, s, spec, tag, skipped, now, later).1;
    if r.Planned? {
      var tiers, t, ctx := ProfileOf(cfg, spec).tiers, r.target.tier, ContextOf(cfg, s, spec, tag, skipped, now);
      var cs := CandidatesOf(cfg, s, tiers, t);
      var scored := DialableIn(cfg, s, cs, ctx);
      DialableInMeans(cfg, s, cs, ctx);
      if c :| c in cs && CandidateId(cfg, c) == pin && Dialable(cfg, s, c, skipped, now) {
        var x :| x in scored && x.candidate == c;
        var q :| 0 <= q < |scored| && scored[q] == x;
        var p := OrderHeadIsLeast(cfg, scored, ctx.affinity, s.rotation);
        assert Le(RankAt(cfg, scored, ctx.affinity, s.rotation, p), RankAt(cfg, scored, ctx.affinity, s.rotation, q));
      }
    }
  }

  // --- one key per group -----------------------------------------------------------------

  predicate OneKeyPerGroup(cfg: Config) {
    forall i, j :: 0 <= i < j < |cfg.groups| ==> cfg.groups[i] != cfg.groups[j]
  }

  lemma TwoMembers(cfg: Config, group: Name)
    requires |Members(cfg.groups, group)| > 1
    ensures !OneKeyPerGroup(cfg)
  {
    var members := Members(cfg.groups, group);
    assert members[0] in members && members[1] in members;
    assert members[0] < members[1];
  }

  lemma SingleMember(cfg: Config, group: Name)
    requires OneKeyPerGroup(cfg) && group in cfg.groups
    ensures |Members(cfg.groups, group)| == 1
  {
    if |Members(cfg.groups, group)| > 1 { TwoMembers(cfg, group); }
  }

  /** Then a candidate does not depend on the rotation and samples one key. */
  lemma RotationIrrelevant(cfg: Config, r: nat, r': nat, model: Name, group: Name, ordinal: nat)
    requires OneKeyPerGroup(cfg) && group in cfg.groups
    ensures CandidateFor(cfg, r, model, group, ordinal) == CandidateFor(cfg, r', model, group, ordinal)
    ensures |Sampled(CandidateFor(cfg, r, model, group, ordinal))| == 1
  {
    SingleMember(cfg, group);
  }

  lemma {:induction false} TierIgnoresRotation(cfg: Config, r: nat, r': nat, models: seq<Name>)
    requires OneKeyPerGroup(cfg)
    ensures TierCandidates(cfg, r, models) == TierCandidates(cfg, r', models)
  {
    if models != [] {
      var n := |models| - 1;
      TierIgnoresRotation(cfg, r, r', models[..n]);
      var names := GroupNames(cfg.groups);
      var cs, cs' := CandidatesAt(cfg, r, models[n], n), CandidatesAt(cfg, r', models[n], n);
      forall k | 0 <= k < |names| ensures cs[k] == cs'[k] {
        assert names[k] in names;
        RotationIrrelevant(cfg, r, r', models[n], names[k], n);
      }
      assert cs == cs';
    }
  }

  /** The plan picked an identity the request had already used. */
  predicate Redials(cfg: Config, s: Table, spec: RouteSpec, tag: string, skipped: set<Identity>, now: nat, later: nat) {
    var r := Plan(cfg, s, spec, tag, skipped, now, later).1;
    r.Planned? && IdentityOf(cfg, r.target) in skipped
  }

  lemma OneKeyNeverRedials(cfg: Config, s: Table, spec: RouteSpec, tag: string, skipped: set<Identity>, now: nat,
                           later: nat)
    requires OneKeyPerGroup(cfg) && now <= later
    ensures !Redials(cfg, s, spec, tag, skipped, now, later)
  {
    hide Plan, Judge;
    var r := Plan(cfg, s, spec, tag, skipped, now, later).1;
    if Known(cfg, spec) {
      PlanMeans(cfg, s, spec, tag, skipped, now, later);
      if r.Planned? {
        var tiers := ProfileOf(cfg, spec).tiers;
        var c := Winner(cfg, s, tiers, r.target.tier, ContextOf(cfg, s, spec, tag, skipped, now));
        TierCandidatesMeans(cfg, s.rotation, tiers[r.target.tier].models, c);
        RotationIrrelevant(cfg, s.rotation, s.rotation, c.model, c.group, c.ordinal);
      }
    } else {
      assert r == Unavailable(None) by { UnknownPlan(cfg, s, spec, tag, skipped, now, later); }
    }
  }

  lemma UnknownPlan(cfg: Config, s: Table, spec: RouteSpec, tag: string, skipped: set<Identity>, now: nat, later: nat)
    requires !Known(cfg, spec)
    ensures Plan(cfg, s, spec, tag, skipped, now, later).1 == Unavailable(None)
  {
  }

  /** Everything the model could dial, except through key `spared`. */
  function AllBut(cfg: Config, model: Name, spared: nat): set<Identity> {
    set k | 0 <= k < |cfg.groups| && k != spared :: Identity(cfg.hash(model), cfg.hash(cfg.groups[k]), k)
  }

  lemma FirstTwo(cfg: Config, group: Name)
    requires |Members(cfg.groups, group)| > 1
    ensures var members := Members(cfg.groups, group);
      members[0] < members[1] < |cfg.groups| && cfg.groups[members[0]] == cfg.groups[members[1]] == group
  {
    var members := Members(cfg.groups, group);
    assert members[0] in members && members[1] in members;
  }

  lemma SharedCandidate(cfg: Config, model: Name, group: Name)
    requires group in cfg.groups && |Members(cfg.groups, group)| > 1
    ensures var c, members := CandidateFor(cfg, 0, model, group, 0), Members(cfg.groups, group);
      && members[0] < members[1] < |cfg.groups| && cfg.groups[members[0]] == cfg.groups[members[1]] == group
      && c.model == model && c.group == group && c.a == members[0] && Sampled(c) == [members[0], members[1]]
  {
    FirstTwo(cfg, group);
    hide Members;
    var members := Members(cfg.groups, group);
    SmallModulo(|members|);
    assert CandidateFor(cfg, 0, model, group, 0) == Candidate(model, group, members[0], Some(members[1]), 0);
  }

  lemma SmallModulo(n: nat)
    requires n > 1
    ensures 0 % n == 0 && (0 + 1) % n == 1
  {
  }

  /** The candidate both keys belong to is dialable when only its second key is spared. */
  lemma SharedCandidateDialable(cfg: Config, model: Name, group: Name)
    requires group in cfg.groups && |Members(cfg.groups, group)| > 1
    ensures var c, members := CandidateFor(cfg, 0, model, group, 0), Members(cfg.groups, group);
            var skipped := AllBut(cfg, model, members[1]);
      && members[0] < members[1] < |cfg.groups| && cfg.groups[members[1]] == group
      && c.a == members[0] && CandidateIdentity(cfg, c, c.a) in skipped
      && Dialable(cfg, FreshTable(cfg), c, skipped, 0) && ChosenKey(FreshTable(cfg), c, 0) == c.a
  {
    SharedCandidate(cfg, model, group);
    hide Judge, ChosenKey, CandidateFor, Members, Sampled, FreshTable;
    var c, members := CandidateFor(cfg, 0, model, group, 0), Members(cfg.groups, group);
    assert members[1] in Sampled(c);
    assert CandidateIdentity(cfg, c, members[1]) !in AllBut(cfg, model, members[1]);
    FreshIsReady(cfg, c);
  }

  /** Two keys in one group: the second sampled key is unskipped, yet the first, already used, is ready and returned. */
  lemma SharedGroupRedials(cfg: Config, model: Name, group: Name)
    requires group in cfg.groups && |Members(cfg.groups, group)| > 1
    ensures var skipped := AllBut(cfg, model, Members(cfg.groups, group)[1]);
      Redials(cfg, FreshTable(cfg), LiteralSpec(model), "", skipped, 0, 0)
  {
    hide Plan, Judge, ChosenKey, TierCandidates, DialableIn, Order, AllBut, CandidateFor, FreshTable, Members;
    var s, spec, spared := FreshTable(cfg), LiteralSpec(model), Members(cfg.groups, group)[1];
    var c, skipped := CandidateFor(cfg, 0, model, group, 0), AllBut(cfg, model, spared);
    var tiers := ProfileOf(cfg, spec).tiers;
    SharedCandidateDialable(cfg, model, group);
    TierCandidatesMeans(cfg, 0, [model], c);
    FreshRotation(cfg);
    CandidateNames(cfg, 0, model, group, 0);
    assert c in CandidatesOf(cfg, s, tiers, 0);
    PlansTierExactly(cfg, s, spec, "", skipped, 0, 0, 0);
    PlanMeans(cfg, s, spec, "", skipped, 0, 0);
    var won := Winner(cfg, s, tiers, 0, ContextOf(cfg, s, spec, "", skipped, 0));
    TierCandidatesMeans(cfg, 0, [model], won);
    OnlySparedIsUnskipped(cfg, won, model, spared);
    assert won == c;
  }

  lemma FreshRotation(cfg: Config)
    ensures FreshTable(cfg).rotation == 0
  {
  }

  lemma CandidateNames(cfg: Config, rotation: nat, model: Name, group: Name, ordinal: nat)
    requires group in cfg.groups
    ensures var c := CandidateFor(cfg, rotation, model, group, ordinal);
      c.model == model && c.group == group && c.ordinal == ordinal
  {
  }

  lemma OnlySparedIsUnskipped(cfg: Config, c: Candidate, model: Name, spared: nat)
    requires c.group in cfg.groups && c == CandidateFor(cfg, 0, model, c.group, 0) && spared < |cfg.groups|
    requires AnyUnskipped(cfg, c, AllBut(cfg, model, spared))
    ensures c.group == cfg.groups[spared]
  {
    var i :| i in Sampled(c) && CandidateIdentity(cfg, c, i) !in AllBut(cfg, model, spared);
    assert i < |cfg.groups| && cfg.groups[i] == c.group;
    AllButHas(cfg, model, spared, i);
  }

  lemma AllButHas(cfg: Config, model: Name, spared: nat, k: nat)
    requires k < |cfg.groups|
    ensures k != spared ==> Identity(cfg.hash(model), cfg.hash(cfg.groups[k]), k) in AllBut(cfg, model, spared)
  {
  }

  lemma FreshIsReady(cfg: Config, c: Candidate)
    requires c.a < |cfg.groups|
    ensures Judge(cfg, FreshTable(cfg), c, 0).dial.Ready? && ChosenKey(FreshTable(cfg), c, 0) == c.a
  {
    assert c.a in Sampled(c);
    assert KeyReady(FreshTable(cfg), c.a, 0);
  }

  /** A request's skip set is honoured on every table exactly when no quota group holds two keys. */
  lemma SkipSetsHonouredExactly(cfg: Config)
    ensures OneKeyPerGroup(cfg) <==>
      forall s, spec, tag, skipped, now: nat, later: nat ::
        now <= later ==> !Redials(cfg, s, spec, tag, skipped, now, later)
  {
    hide Redials;
    if OneKeyPerGroup(cfg) {
      forall s, spec, tag, skipped, now: nat, later: nat | now <= later
        ensures !Redials(cfg, s, spec, tag, skipped, now, later)
      {
        OneKeyNeverRedials(cfg, s, spec, tag, skipped, now, later);
      }
    } else {
      var i, j :| 0 <= i < j < |cfg.groups| && cfg.groups[i] == cfg.groups[j];
      var members := Members(cfg.groups, cfg.groups[i]);
      assert i in members && j in members;
      SharedGroupRedials(cfg, "m", cfg.groups[i]);
    }
  }

  // --- back-to-back plans -----------------------------------------------------------------

  /** The table after k plans in a row at one instant. */
  function PlanChain(cfg: Config, s: Table, spec: RouteSpec, skipped: set<Identity>, now: nat, k: nat): Table {
    if k == 0 then s else Plan(cfg, PlanChain(cfg, s, spec, skipped, now, k - 1), spec, "", skipped, now, now).0
  }

  lemma {:induction false} SameDialableIn(cfg: Config, s: Table, s': Table, cs: seq<Candidate>, ctx: PlanContext)
    requires Same(s, s', ctx.now)
    ensures DialableIn(cfg, s, cs, ctx) == DialableIn(cfg, s', cs, ctx)
  {
    hide Judge, Score, Same;
    if cs != [] {
      var c := cs[|cs| - 1];
      SameDialableIn(cfg, s, s', cs[..|cs| - 1], ctx);
      SameJudge(cfg, s, s', c, ctx.now, ctx.now);
      SameScore(cfg, s, s', c, ctx.affinity, ctx.latencyOptimized, ctx.now);
    }
  }

  /** The health a plan starts from decides which tier it lands on. */
  lemma SameReaches(cfg: Config, s: Table, s': Table, p: Profile, t: nat, skipped: set<Identity>, now: nat)
    requires OneKeyPerGroup(cfg) && Same(s, s', now)
    ensures Reaches(cfg, s, p, t, skipped, now) ==> Reaches(cfg, s', p, t, skipped, now)
    ensures t < |p.tiers| && HasDialable(cfg, s, p.tiers, t, skipped, now) ==>
      HasDialable(cfg, s', p.tiers, t, skipped, now)
  {
    hide Judge, Same;
    forall c ensures Judge(cfg, s, c, now) == Judge(cfg, s', c, now) { SameJudge(cfg, s, s', c, now, now); }
    forall t' | 0 <= t' < |p.tiers| ensures CandidatesOf(cfg, s, p.tiers, t') == CandidatesOf(cfg, s', p.tiers, t') {
      TierIgnoresRotation(cfg, s.rotation, s'.rotation, p.tiers[t'].models);
    }
    hide CandidatesOf;
    forall t' | 0 <= t' < |p.tiers|
      ensures PassedOver(cfg, s, p, t', skipped, now) ==> PassedOver(cfg, s', p, t', skipped, now)
    {
    }
  }

  ghost predicate LandsOn(cfg: Config, s: Table, spec: RouteSpec, skipped: set<Identity>, now: nat, t: nat)
    requires Known(cfg, spec)
  {
    var p := ProfileOf(cfg, spec);
    t < |p.tiers| && Reaches(cfg, s, p, t, skipped, now) && HasDialable(cfg, s, p.tiers, t, skipped, now)
  }

  lemma {:induction false} ChainKeepsHealth(cfg: Config, s: Table, spec: RouteSpec, skipped: set<Identity>, now: nat,
                                            k: nat, t: nat)
    requires OneKeyPerGroup(cfg) && Known(cfg, spec) && LandsOn(cfg, s, spec, skipped, now, t)
    ensures var s' := PlanChain(cfg, s, spec, skipped, now, k);
      Same(s, s', now) && s'.rotation == s.rotation + k && LandsOn(cfg, s', spec, skipped, now, t)
  {
    hide Same, Plan, Reaches, HasDialable, Meaning;
    if k == 0 {
      SameRefl(s, now);
    } else {
      var before := PlanChain(cfg, s, spec, skipped, now, k - 1);
      ChainKeepsHealth(cfg, s, spec, skipped, now, k - 1, t);
      PlanMeans(cfg, before, spec, "", skipped, now, now);
      PlansTierExactly(cfg, before, spec, "", skipped, now, now, t);
      var after := Plan(cfg, before, spec, "", skipped, now, now).0;
      SameTrans(s, before, after, now);
      SameReaches(cfg, s, after, ProfileOf(cfg, spec), t, skipped, now);
    }
  }

  /** What a plan without a session may dial in tier t. */
  function OpenRoutes(cfg: Config, s: Table, spec: RouteSpec, skipped: set<Identity>, now: nat, t: nat): seq<Scored>
    requires Known(cfg, spec) && t < |ProfileOf(cfg, spec).tiers|
  {
    DialableIn(cfg, s, CandidatesOf(cfg, s, ProfileOf(cfg, spec).tiers, t), ContextOf(cfg, s, spec, "", skipped, now))
  }

  lemma OpenRoutesStay(cfg: Config, s: Table, s': Table, spec: RouteSpec, skipped: set<Identity>, now: nat, t: nat)
    requires OneKeyPerGroup(cfg) && Known(cfg, spec) && t < |ProfileOf(cfg, spec).tiers| && Same(s, s', now)
    ensures OpenRoutes(cfg, s, spec, skipped, now, t) == OpenRoutes(cfg, s', spec, skipped, now, t)
  {
    hide Same, DialableIn, TierCandidates;
    TierIgnoresRotation(cfg, s.rotation, s'.rotation, ProfileOf(cfg, spec).tiers[t].models);
    SameDialableIn(cfg, s, s', CandidatesOf(cfg, s, ProfileOf(cfg, spec).tiers, t),
                   ContextOf(cfg, s, spec, "", skipped, now));
  }

  /**
   * No starvation: with one key per group, every evenly matched route of the first-listed available model is
   * picked by one of any n plans in a row, n being the number of routes its tier can dial.
   */
  lemma NoRouteStarves(cfg: Config, s: Table, spec: RouteSpec, skipped: set<Identity>, now: nat, t: nat, p: nat)
    requires OneKeyPerGroup(cfg) && Known(cfg, spec) && LandsOn(cfg, s, spec, skipped, now, t)
    requires p < |OpenRoutes(cfg, s, spec, skipped, now, t)|
    requires EvenlyMatched(cfg, OpenRoutes(cfg, s, spec, skipped, now, t), None)
    requires FirstListed(OpenRoutes(cfg, s, spec, skipped, now, t), p)
    ensures var routes := OpenRoutes(cfg, s, spec, skipped, now, t);
      exists k :: 0 <= k < |routes| &&
        var r := Plan(cfg, PlanChain(cfg, s, spec, skipped, now, k), spec, "", skipped, now, now).1;
        r.Planned? && r.target.model == routes[p].candidate.model && r.target.group == routes[p].candidate.group
  {
    hide Same, Plan, PlanChain, DialableIn, CandidatesOf, Order, Reaches, HasDialable, EvenlyMatched, FirstListed;
    var routes := OpenRoutes(cfg, s, spec, skipped, now, t);
    var k := TurnOf(p, s.rotation, |routes|);
    var s' := PlanChain(cfg, s, spec, skipped, now, k);
    ChainKeepsHealth(cfg, s, spec, skipped, now, k, t);
    OpenRoutesStay(cfg, s, s', spec, skipped, now, t);
    PlansTierExactly(cfg, s', spec, "", skipped, now, now, t);
    PlanMeans(cfg, s', spec, "", skipped, now, now);
    EveryCandidateGetsATurn(cfg, routes, None, s.rotation, p);
    assert Plan(cfg, s', spec, "", skipped, now, now).1.target.model == routes[p].candidate.model;
  }
}
