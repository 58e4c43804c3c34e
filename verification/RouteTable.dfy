/** The shared routing table as the proxy holds it: records updated in place, proved against Routing. */
module RouteTables {
  import opened Options
  import opened Backoff
  import opened ModelCircuit
  import opened Routing
  import opened Expiry
  import opened Runs
  import opened RunInvariants
  import opened Readiness

  datatype ModelView = ModelView(state: CircuitState, openUntil: Option<nat>, disabled: bool, probeInFlight: bool)
  datatype RouteView = RouteView(cooling: Option<nat>, disabled: bool)

  lemma {:induction false} ScanConcat(cfg: Config, x: Scan, a: seq<Candidate>, b: seq<Candidate>, ctx: PlanContext)
    ensures ScanAll(cfg, x, a + b, ctx) == ScanAll(cfg, ScanAll(cfg, x, a, ctx), b, ctx)
  {
    hide ScanOne;
    if b == [] {
      assert a + b == a;
    } else {
      ScanConcat(cfg, x, a, b[..|b| - 1], ctx);
      assert (a + b)[..|a + b| - 1] == a + b[..|b| - 1];
    }
  }

  /** One more key either joins its group's members or starts a new group. */
  lemma GroupsGrow(gs: seq<Name>, g: Name)
    ensures GroupNames(gs + [g]) == if g in GroupNames(gs) then GroupNames(gs) else GroupNames(gs) + [g]
    ensures forall h :: Members(gs + [g], h) == if h == g then Members(gs, h) + [|gs|] else Members(gs, h)
  {
    assert (gs + [g])[..|gs|] == gs;
  }

  lemma NoMembers(gs: seq<Name>, g: Name)
    requires g !in gs
    ensures Members(gs, g) == []
  {
    assert forall i :: i !in Members(gs, g);
    if Members(gs, g) != [] { assert Members(gs, g)[0] in Members(gs, g); assert false; }
  }

  /** Each quota group with its key positions, groups in the order of their first key. */
  function Grouped(gs: seq<Name>): seq<(Name, seq<nat>)> {
    var names := GroupNames(gs);
    seq(|names|, k requires 0 <= k < |names| => (names[k], Members(gs, names[k])))
  }

  lemma GroupedJoins(gs: seq<Name>, g: Name, at: nat)
    requires at < |GroupNames(gs)| && GroupNames(gs)[at] == g
    ensures Grouped(gs + [g]) == Grouped(gs)[at := (g, Grouped(gs)[at].1 + [|gs|])]
  {
    GroupsGrow(gs, g);
    hide GroupNames, Members;
    assert g in GroupNames(gs);
  }

  lemma GroupedAt(gs: seq<Name>, k: nat)
    requires k < |GroupNames(gs)|
    ensures |Grouped(gs)| == |GroupNames(gs)| && Grouped(gs)[k] == (GroupNames(gs)[k], Members(gs, GroupNames(gs)[k]))
  {
  }

  lemma GroupedStarts(gs: seq<Name>, g: Name)
    requires g !in GroupNames(gs)
    ensures Grouped(gs + [g]) == Grouped(gs) + [(g, [|gs|])]
  {
    var names, before, grown := GroupNames(gs), Grouped(gs), Grouped(gs + [g]);
    GroupsGrow(gs, g);
    NoMembers(gs, g);
    assert |before| == |names| && |grown| == |names| + 1;
    hide GroupNames, Members, Grouped;
    GroupedAt(gs + [g], |names|);
    assert Members(gs + [g], g) == [|gs|];
    assert grown[|names|] == (g, [|gs|]);
    forall k | 0 <= k < |names| ensures grown[k] == before[k] {
      GroupedAt(gs, k);
      GroupedAt(gs + [g], k);
      assert names[k] in names;
    }
    Snoc(grown, before, (g, [|gs|]));
  }

  lemma Snoc<T>(longer: seq<T>, shorter: seq<T>, last: T)
    requires |longer| == |shorter| + 1 && longer[|shorter|] == last
    requires forall k :: 0 <= k < |shorter| ==> longer[k] == shorter[k]
    ensures longer == shorter + [last]
  {
  }

  lemma AnyReadyMeans(s: Table, c: Candidate, now: nat)
    ensures AnyKeyReady(s, c, now) <==>
      KeyReady(s, Sampled(c)[0], now) || (|Sampled(c)| == 2 && KeyReady(s, Sampled(c)[1], now))
    ensures Sampled(c)[0] == c.a
  {
  }

  lemma PlanFromUnfolds(cfg: Config, s: Table, tiers: seq<Tier>, tier: nat, allowLower: bool, ctx: PlanContext,
                        gate: Option<GateReason>, wait: Option<nat>, later: nat)
    requires tier < |tiers|
    ensures var x := ScanTier(cfg, s, tiers[tier].models, gate, ctx);
      PlanFrom(cfg, s, tiers, tier, allowLower, ctx, gate, wait, later) ==
        if x.available != [] then Select(cfg, x, tier, ctx, later)
        else if x.wait.None? then PlanFrom(cfg, x.table, tiers, tier + 1, allowLower, ctx, x.gate, wait, later)
        else if allowLower then
          PlanFrom(cfg, x.table, tiers, tier + 1, allowLower, ctx, x.gate, Sooner(wait, x.wait.value), later)
        else (x.table, Unavailable(Sooner(wait, x.wait.value)))
  {
    hide ScanTier, Select;
  }

  lemma PlanFromEnds(cfg: Config, s: Table, tiers: seq<Tier>, allowLower: bool, ctx: PlanContext,
                     gate: Option<GateReason>, wait: Option<nat>, later: nat)
    ensures PlanFrom(cfg, s, tiers, |tiers|, allowLower, ctx, gate, wait, later) == (s, Unavailable(wait))
  {
  }

  class RouteTable {
    const cfg: Config
    var keys: seq<KeyState>
    var routes: map<RouteId, RouteState>
    var models: map<Name, ModelEntry>
    var groups: map<Name, Option<nat>>
    var affinity: map<string, AffinityEntry>
    var rotation: nat
    /** How often a model circuit was opened. */
    var circuitOpens: nat
    /** The guards taken through this handle and not dropped yet. */
    ghost var guards: set<InflightGuard>

    constructor (cfg: Config)
      ensures this.cfg == cfg && State() == FreshTable(cfg) && circuitOpens == 0 && guards == {}
    {
      this.cfg := cfg;
      keys := seq(|cfg.groups|, _ => FRESH_KEY);
      routes, models, groups, affinity := map[], map[], map[], map[];
      rotation, circuitOpens, guards := 0, 0, {};
    }

    function State(): Table
      reads this
    {
      Table(keys, routes, models, groups, affinity, rotation)
    }

    // --- candidates ---------------------------------------------------------------

    /** Key positions per quota group, groups in the order of their first key. */
    method ByGroup() returns (byGroup: seq<(Name, seq<nat>)>)
      ensures byGroup == Grouped(cfg.groups)
    {
      byGroup := [];
      var i := 0;
      hide Members;
      while i < |cfg.groups|
        invariant 0 <= i <= |cfg.groups| && byGroup == Grouped(cfg.groups[..i])
      {
        var group := cfg.groups[i];
        ghost var seen := cfg.groups[..i];
        assert cfg.groups[..i + 1] == seen + [group];
        var at := 0;
        while at < |byGroup| && byGroup[at].0 != group
          invariant 0 <= at <= |byGroup|
          invariant forall k :: 0 <= k < at ==> GroupNames(seen)[k] != group
        {
          at := at + 1;
        }
        if at < |byGroup| {
          GroupedJoins(seen, group, at);
          byGroup := byGroup[at := (group, byGroup[at].1 + [i])];
        } else {
          GroupedStarts(seen, group);
          byGroup := byGroup + [(group, [i])];
        }
        i := i + 1;
      }
      assert cfg.groups[..i] == cfg.groups;
    }

    method CandidatesFor(model: Name, ordinal: nat) returns (cs: seq<Candidate>)
      ensures cs == CandidatesAt(cfg, rotation, model, ordinal)
    {
      var byGroup := ByGroup();
      cs := [];
      ghost var names := GroupNames(cfg.groups);
      for k := 0 to |byGroup|
        invariant |cs| == k
        invariant forall j :: 0 <= j < k ==>
          names[j] in cfg.groups && cs[j] == CandidateFor(cfg, rotation, model, names[j], ordinal)
      {
        var (group, indexes) := byGroup[k];
        assert names[k] in names;
        var a := indexes[rotation % |indexes|];
        var b := if |indexes| > 1 then Some(indexes[(rotation + 1) % |indexes|]) else None;
        cs := cs + [Candidate(model, group, a, b, ordinal)];
      }
    }

    // --- views, expiring what has passed ------------------------------------------------

    method ViewModel(model: Name, now: nat) returns (view: ModelView)
      modifies this`models
      ensures State() == TouchModel(old(State()), model, now)
      ensures var m := View(ModelOf(old(State()), model), now);
        view == ModelView(m.state, m.openUntil, m.disabled, m.probeInFlight)
    {
      var entry := if model in models then models[model] else FRESH_MODEL;
      if entry.state.Open? && entry.openUntil.Some? && now >= entry.openUntil.value {
        entry := entry.(state := HalfOpen, openUntil := None, probeInFlight := false);
      }
      if entry.disabled && entry.disabledUntil.Some? && now >= entry.disabledUntil.value {
        entry := entry.(disabled := false, disabledUntil := None, missingGroups := []);
      }
      models := models[model := entry];
      view := ModelView(entry.state, entry.openUntil, entry.disabled, entry.probeInFlight);
    }

    method ViewRoute(id: RouteId, now: nat) returns (view: RouteView)
      modifies this`routes
      ensures State() == TouchRoute(old(State()), id, now)
      ensures var r := RouteOf(old(State()), id);
        view == RouteView(Remaining(r.coolingUntil, now), Live(r.disabledUntil, now).Some?)
    {
      var entry := if id in routes then routes[id] else FRESH_ROUTE;
      entry := RouteState(Live(entry.coolingUntil, now), Live(entry.disabledUntil, now));
      routes := routes[id := entry];
      var cooling := match entry.coolingUntil { case None => None case Some(u) => Some(u - now) };
      view := RouteView(cooling, entry.disabledUntil.Some?);
    }

    method ViewGroup(group: Name, now: nat) returns (cooling: Option<nat>)
      modifies this`groups
      ensures State() == TouchGroup(old(State()), group, now)
      ensures cooling == Remaining(GroupOf(old(State()), group), now)
    {
      var entry := Live(if group in groups then groups[group] else None, now);
      groups := groups[group := entry];
      cooling := match entry { case None => None case Some(u) => Some(u - now) };
    }

    method KeyIsReady(i: nat, now: nat) returns (ready: bool)
      modifies this`keys
      ensures State() == TouchKey(old(State()), i, now)
      ensures ready == KeyReady(old(State()), i, now)
    {
      if i >= |keys| { return false; }
      keys := keys[i := keys[i].(coolingUntil := Live(keys[i].coolingUntil, now))];
      ready := !keys[i].unusable && keys[i].coolingUntil.None?;
    }

    method KeyCooldown(i: nat, now: nat) returns (cooling: Option<nat>)
      modifies this`keys
      ensures State() == TouchKey(old(State()), i, now)
      ensures cooling == KeyCooling(old(State()), i, now)
    {
      if i >= |keys| { return None; }
      keys := keys[i := keys[i].(coolingUntil := Live(keys[i].coolingUntil, now))];
      cooling := match keys[i].coolingUntil { case None => None case Some(u) => Some(u - now) };
    }

    /** Whether some sampled key is ready, asking the second only if the first is not. */
    method AnySampledReady(c: Candidate, now: nat) returns (ready: bool)
      modifies this`keys
      ensures State() == TouchSampled(old(State()), c, now)
      ensures ready == AnyKeyReady(old(State()), c, now)
    {
      AnyReadyMeans(State(), c, now);
      var choices := Sampled(c);
      ready := KeyIsReady(choices[0], now);
      if !ready && |choices| == 2 { ready := KeyIsReady(choices[1], now); }
    }

    /** The sampled keys as the planner last asks them: the verdict, and the wait of the cooling ones. */
    method JudgeKeys(c: Candidate, now: nat) returns (d: Dialability, wait: Option<nat>)
      modifies this`keys
      ensures State() == TouchSampled(old(State()), c, now)
      ensures Verdict(d, wait) == KeyVerdict(old(State()), c, now)
    {
      hide TouchKey, KeyReady, KeyCooling, KeyUnusable;
      var choices := Sampled(c);
      ghost var s := State();
      AnyReadyMeans(s, c, now);
      assert forall i :: i in choices <==> i == choices[0] || (|choices| == 2 && i == choices[1]);
      var best: Option<nat> := None;
      TouchTwice(s, choices[0], now);
      if |choices| == 2 { TouchTwice(TouchKey(s, choices[0], now), choices[1], now); }
      for k := 0 to |choices|
        invariant k == 0 ==> State() == s && best == None
        invariant k == 1 ==> State() == TouchKey(s, choices[0], now) && !KeyReady(s, choices[0], now)
                             && best == KeyCooling(s, choices[0], now)
        invariant k == 2 ==> State() == TouchSampled(s, c, now) && !AnyKeyReady(s, c, now) && best == KeyWait(s, c, now)
      {
        TouchTwice(State(), choices[k], now);
        var ready := KeyIsReady(choices[k], now);
        if ready { return Ready, best; }
        var cooling := KeyCooldown(choices[k], now);
        if cooling.Some? { best := Sooner(best, cooling.value); }
      }
      match best
      case Some(w) => return Cooling(w), best;
      case None =>
        var allUnusable := forall i :: i in choices ==> KeyUnusable(State(), i);
        return Blocked(if allUnusable then KeyUnusableGate else KeyCoolingGate), None;
    }

    static lemma TouchTwice(s: Table, i: nat, now: nat)
      ensures TouchKey(TouchKey(s, i, now), i, now) == TouchKey(s, i, now)
      ensures KeyCooling(TouchKey(s, i, now), i, now) == KeyCooling(s, i, now)
      ensures forall j: nat :: j != i ==> KeyReady(TouchKey(s, i, now), j, now) == KeyReady(s, j, now)
      ensures forall j: nat :: j != i ==> KeyCooling(TouchKey(s, i, now), j, now) == KeyCooling(s, j, now)
      ensures forall j: nat :: KeyUnusable(TouchKey(s, i, now), j) == KeyUnusable(s, j)
    {
      if i < |s.keys| { LiveLive(s.keys[i].coolingUntil, now, now); }
    }

    // --- dialability -----------------------------------------------------------------

    /** Walks the gates in order and stops at the first that refuses. */
    method CheckDialability(c: Candidate, now: nat) returns (d: Dialability, wait: Option<nat>)
      modifies this`keys, this`routes, this`models, this`groups
      ensures State() == AfterDial(cfg, old(State()), c, now)
      ensures Verdict(d, wait) == Judge(cfg, old(State()), c, now)
    {
      ghost var s := State();
      hide View, KeyVerdict, TouchSampled, AnyKeyReady;
      var model := ViewModel(c.model, now);
      if model.disabled { return Blocked(ModelDisabled), None; }
      var halfOpen := model.state.HalfOpen?;
      var openUntil := if model.state.Open? then model.openUntil else None;
      ViewedOpenIsAhead(ModelOf(s, c.model), now);
      if openUntil.Some? && now < openUntil.value {
        return Blocked(ModelOpen), Some(openUntil.value - now);
      }
      ghost var s1 := State();
      var route := ViewRoute(CandidateId(cfg, c), now);
      if route.disabled { return Blocked(RouteDisabled), None; }
      ghost var s2 := State();
      var cooldown := ViewGroup(c.group, now);
      if cooldown.Some? { return Blocked(QuotaGroupCooling), cooldown; }
      ghost var s3 := State();
      SameKeys(s, s3, c, now);
      if route.cooling.Some? {
        var sibling := AnySampledReady(c, now);
        if !(halfOpen && sibling) { return Blocked(RouteCooling), route.cooling; }
        SampledTwice(s3, c, now);
      }
      if halfOpen && model.probeInFlight { return Blocked(ModelOpen), None; }
      d, wait := JudgeKeys(c, now);
    }

    static lemma ViewedOpenIsAhead(e: ModelEntry, now: nat)
      ensures var m := View(e, now); m.state.Open? && m.openUntil.Some? ==> now < m.openUntil.value
    {
    }

    static lemma SameKeys(s: Table, s': Table, c: Candidate, now: nat)
      requires s.keys == s'.keys
      ensures KeyVerdict(s, c, now) == KeyVerdict(s', c, now) && AnyKeyReady(s, c, now) == AnyKeyReady(s', c, now)
    {
      assert forall i: nat ::
        KeyReady(s, i, now) == KeyReady(s', i, now) && KeyCooling(s, i, now) == KeyCooling(s', i, now)
        && KeyUnusable(s, i) == KeyUnusable(s', i);
    }

    /** Asking the sampled keys again changes nothing. */
    static lemma SampledTwice(s: Table, c: Candidate, now: nat)
      ensures TouchSampled(TouchSampled(s, c, now), c, now) == TouchSampled(s, c, now)
      ensures KeyVerdict(TouchSampled(s, c, now), c, now) == KeyVerdict(s, c, now)
    {
      TouchTwice(s, c.a, now);
      TouchSampledSame(s, c, now);
      SameKeyVerdict(s, TouchSampled(s, c, now), c, now);
      if !(KeyReady(s, c.a, now) || |Sampled(c)| == 1) {
        var first, b := TouchKey(s, c.a, now), Sampled(c)[1];
        TouchTwice(first, b, now);
        SameKeyReady(s, TouchSampled(s, c, now), c.a, now);
        TouchCommutes(s, c.a, b, now);
      } else {
        SameKeyReady(s, TouchSampled(s, c, now), c.a, now);
      }
    }

    static lemma TouchCommutes(s: Table, i: nat, j: nat, now: nat)
      ensures TouchKey(TouchKey(TouchKey(s, i, now), j, now), i, now) == TouchKey(TouchKey(s, i, now), j, now)
    {
      TouchTwice(s, i, now);
      if i < |s.keys| {
        LiveLive(s.keys[i].coolingUntil, now, now);
        var t := TouchKey(TouchKey(s, i, now), j, now);
        assert LiveKey(t.keys[i], now) == t.keys[i];
        assert t.keys[i := t.keys[i]] == t.keys;
      }
    }

    /** Load and recent failures of the sampled keys, in the order they are sampled. */
    method Cost(c: Candidate, affinity: Option<RouteId>, latencyOptimized: bool) returns (score: nat)
      ensures score == Score(cfg, State(), c, affinity, latencyOptimized)
    {
      var choices := Sampled(c);
      score := 0;
      for k := 0 to |choices|
        invariant k == 0 ==> score == 0
        invariant k == 1 ==> score == KeyCost(State(), c.a, latencyOptimized)
        invariant k == 2 ==>
          score == KeyCost(State(), c.a, latencyOptimized) + KeyCost(State(), choices[1], latencyOptimized)
      {
        if choices[k] < |keys| {
          var key := keys[choices[k]];
          score := score + key.inflight * 1_000_000;
          score := score + key.streak * 100_000;
          if latencyOptimized { score := score + key.latencyCost; }
        }
      }
      if affinity == Some(CandidateId(cfg, c)) { score := Max(score - 1, 0); }
    }

    // --- planning ------------------------------------------------------------------------

    method AffinityFor(tag: string, now: nat) returns (route: Option<RouteId>)
      modifies this`affinity
      ensures (State(), route) == AffinityRoute(old(State()), tag, now)
    {
      if Sessionless(tag) || tag !in affinity { return None; }
      if affinity[tag].expires <= now {
        affinity := affinity - {tag};
        return None;
      }
      return Some(affinity[tag].route);
    }

    method ScanCandidate(c: Candidate, ctx: PlanContext, x: Scan) returns (y: Scan)
      requires x.table == State()
      modifies this`keys, this`routes, this`models, this`groups
      ensures y == ScanOne(cfg, x, c, ctx) && y.table == State()
    {
      hide AfterDial, Judge, Score;
      var untried := exists i :: i in Sampled(c) && CandidateIdentity(cfg, c, i) !in ctx.skipped;
      if !untried { return x; }
      var d, wait := CheckDialability(c, ctx.now);
      match d
      case Ready =>
        var score := Cost(c, ctx.affinity, ctx.latencyOptimized);
        y := x.(table := State(), available := x.available + [Scored(c, score)]);
      case Cooling(w) =>
        y := x.(table := State(), wait := Sooner(x.wait, w));
      case Blocked(reason) =>
        y := x.(table := State(), gate := if x.gate.None? then Some(reason) else x.gate);
        match wait
        case Some(w) => y := y.(wait := Sooner(x.wait, w));
        case None => y := y.(hardBlocked := true);
    }

    /** Every candidate of every model of one tier. */
    method ScanModels(tierModels: seq<Name>, gate: Option<GateReason>, ctx: PlanContext) returns (x: Scan)
      modifies this`keys, this`routes, this`models, this`groups
      ensures x == ScanTier(cfg, old(State()), tierModels, gate, ctx) && x.table == State()
    {
      hide ScanOne, CandidatesAt;
      x := Scan(State(), [], None, false, gate);
      ghost var x0 := x;
      for i := 0 to |tierModels|
        invariant x == ScanAll(cfg, x0, TierCandidates(cfg, rotation, tierModels[..i]), ctx) && x.table == State()
      {
        ghost var before := TierCandidates(cfg, rotation, tierModels[..i]);
        var cs := CandidatesFor(tierModels[i], i);
        assert tierModels[..i + 1][..i] == tierModels[..i];
        assert TierCandidates(cfg, rotation, tierModels[..i + 1]) == before + cs;
        assert before + cs[..0] == before;
        for j := 0 to |cs|
          invariant x == ScanAll(cfg, x0, before + cs[..j], ctx) && x.table == State()
        {
          x := ScanCandidate(cs[j], ctx, x);
          assert (before + cs[..j + 1])[..|before| + j] == before + cs[..j];
        }
        assert before + cs[..|cs|] == before + cs;
      }
      assert tierModels[..|tierModels|] == tierModels;
    }

    method PickTarget(c: Candidate, tier: nat, later: nat) returns (t: RouteTarget)
      modifies this`keys
      ensures State() == TouchSampled(old(State()), c, later)
      ensures t == RouteTarget(c.model, c.group, ChosenKey(old(State()), c, later), tier)
    {
      var choices := Sampled(c);
      var ready := KeyIsReady(choices[0], later);
      if ready { return RouteTarget(c.model, c.group, choices[0], tier); }
      if |choices| == 2 {
        ready := KeyIsReady(choices[1], later);
        if ready { return RouteTarget(c.model, c.group, choices[1], tier); }
      }
      return RouteTarget(c.model, c.group, c.a, tier);
    }

    /** Takes the best of what the tier can dial and advances the rotation. */
    method SelectFrom(x: Scan, tier: nat, ctx: PlanContext, later: nat) returns (r: PlanResult)
      requires x.available != [] && x.table == State()
      modifies this`keys, this`rotation
      ensures (State(), r) == Select(cfg, x, tier, ctx, later)
    {
      hide Order, TouchSampled, ChosenKey;
      var chosen := Order(cfg, x.available, ctx.affinity, rotation)[0].candidate;
      rotation := rotation + 1;
      var t := PickTarget(chosen, tier, later);
      return PlanResult.Planned(t, tier, x.gate, x.wait);
    }

    /** Tiers in order; the first with something to dial decides. */
    method PlanTiers(p: Profile, ctx: PlanContext, later: nat) returns (r: PlanResult)
      modifies this`keys, this`routes, this`models, this`groups, this`rotation
      ensures (State(), r) == PlanFrom(cfg, old(State()), p.tiers, 0, p.allowLowerTier, ctx, None, None, later)
    {
      hide ScanTier, PlanFrom, Select;
      ghost var s1 := State();
      var gate: Option<GateReason> := None;
      var lowerWait: Option<nat> := None;
      for tier := 0 to |p.tiers|
        invariant PlanFrom(cfg, s1, p.tiers, 0, p.allowLowerTier, ctx, None, None, later)
               == PlanFrom(cfg, State(), p.tiers, tier, p.allowLowerTier, ctx, gate, lowerWait, later)
      {
        PlanFromUnfolds(cfg, State(), p.tiers, tier, p.allowLowerTier, ctx, gate, lowerWait, later);
        var x := ScanModels(p.tiers[tier].models, gate, ctx);
        gate := x.gate;
        if x.available != [] {
          r := SelectFrom(x, tier, ctx, later);
          return;
        }
        if x.wait.Some? {
          lowerWait := Sooner(lowerWait, x.wait.value);
          if !p.allowLowerTier { return Unavailable(lowerWait); }
        }
      }
      PlanFromEnds(cfg, State(), p.tiers, p.allowLowerTier, ctx, gate, lowerWait, later);
      return Unavailable(lowerWait);
    }

    method Plan(spec: RouteSpec, tag: string, skipped: set<Identity>, now: nat, later: nat) returns (r: PlanResult)
      modifies this`keys, this`routes, this`models, this`groups, this`affinity, this`rotation
      ensures (State(), r) == Routing.Plan(cfg, old(State()), spec, tag, skipped, now, later)
    {
      if spec.ProfileSpec? && spec.name !in cfg.profiles { return Unavailable(None); }
      hide PlanFrom, AffinityRoute;
      var p := ProfileOf(cfg, spec);
      var route := AffinityFor(tag, now);
      r := PlanTiers(p, PlanContext(now, route, p.latencyOptimized, skipped), later);
    }

    method DropAffinity(tag: string)
      modifies this`affinity
      ensures State() == BreakAffinity(old(State()), tag)
    {
      if !Sessionless(tag) { affinity := affinity - {tag}; }
    }

    /** Plans again against the marks just written, without the failed identity. */
    method FollowUp(spec: RouteSpec, tag: string, failed: RouteTarget, skipped: set<Identity>, now: nat, later: nat)
      returns (f: FollowupResult)
      modifies this`keys, this`routes, this`models, this`groups, this`affinity, this`rotation
      ensures (State(), f) == Followup(cfg, old(State()), spec, tag, failed, skipped, now, later)
    {
      DropAffinity(tag);
      var r := Plan(spec, NO_SESSION, skipped + {IdentityOf(cfg, failed)}, now, later);
      match r
      case Planned(_, _, _, next) => return Continue(if next.Some? then next.value else 0, false);
      case Unavailable(wait) =>
        if wait.Some? && wait.value <= cfg.retryAfterMax { return Continue(wait.value, true); }
        return Return;
    }

    // --- recording outcomes -----------------------------------------------------------------

    /** The only place that moves a model circuit on a failure. */
    method RecordRouteFailure(t: RouteTarget, now: nat) returns (tr: Transition)
      modifies this`models
      ensures State() == FailModel(cfg, old(State()), t, now)
      ensures tr == FailTransition(cfg, old(State()), t, now)
    {
      hide Observe;
      var entry := if t.model in models then models[t.model] else FRESH_MODEL;
      var group, th := cfg.hash(t.group), cfg.thresholds;
      tr := Unchanged;
      if entry.state.HalfOpen? {
        var moved := TransitionCircuit(entry, now, th.openFor);
        entry, tr := moved.0, moved.1;
      } else {
        entry := entry.(failingGroups := Observe(entry.failingGroups, group, now, th.tripWindow));
        if |entry.failingGroups| >= th.tripGroups {
          var moved := TransitionCircuit(entry, now, th.openFor);
          entry, tr := moved.0, moved.1;
        }
      }
      models := models[t.model := entry];
    }

    method NoteSuccess(t: RouteTarget, latencyCost: nat)
      modifies this`keys, this`routes, this`models, this`groups
      ensures State() == Routing.NoteSuccess(cfg, old(State()), t, latencyCost)
    {
      if t.key < |keys| {
        keys := keys[t.key := keys[t.key].(streak := 0, coolingUntil := None, latencyCost := latencyCost)];
      }
      var id := TargetId(cfg, t);
      if id in routes { routes := routes[id := RouteState(None, None)]; }
      if t.group in groups { groups := groups[t.group := None]; }
      if t.model in models {
        var entry := models[t.model].(disabled := false, disabledUntil := None, missingGroups := []);
        models := models[t.model := CloseCircuit(entry).0];
      }
    }

    method NoteRateLimited(t: RouteTarget, attempt: nat, streak: nat, hint: Option<nat>, jitter: real, now: nat)
      returns (cooldown: nat)
      modifies this`keys, this`routes, this`models, this`circuitOpens
      ensures State() == Routing.NoteRateLimited(cfg, old(State()), t, attempt, streak, hint, jitter, now)
      ensures cooldown == RateLimitCooldown(cfg, attempt, streak, hint, jitter)
      ensures circuitOpens == old(circuitOpens) + Bump(FailTransition(cfg, old(State()), t, now))
    {
      hide BarrierDuration, RecordFailure;
      cooldown := RateLimitCooldown(cfg, attempt, streak, hint, jitter);
      if t.key < |keys| { keys := keys[t.key := keys[t.key].(streak := Min(streak + 1, U32_MAX))]; }
      var id := TargetId(cfg, t);
      var route := if id in routes then routes[id] else FRESH_ROUTE;
      routes := routes[id := route.(coolingUntil := Some(Deadline(now, cooldown)))];
      var tr := RecordRouteFailure(t, now);
      if OpensCircuit(tr) { circuitOpens := circuitOpens + 1; }
    }

    method NoteQuotaExhausted(t: RouteTarget, cooldown: nat, now: nat)
      modifies this`keys, this`groups, this`affinity
      ensures State() == Routing.NoteQuotaExhausted(cfg, old(State()), t, cooldown, now)
    {
      var until := Deadline(now, cooldown);
      groups := groups[t.group := Some(until)];
      CoolKeys(t.group, until);
      var group := cfg.hash(t.group);
      affinity := map tag | tag in affinity && affinity[tag].route.group != group :: affinity[tag];
    }

    method CoolKeys(group: Name, until: nat)
      modifies this`keys
      ensures keys == CoolGroupKeys(cfg, old(keys), group, until)
    {
      ghost var before := keys;
      for i := 0 to |keys|
        invariant |keys| == |before|
        invariant forall j :: 0 <= j < i ==> keys[j] == CoolGroupKeys(cfg, before, group, until)[j]
        invariant forall j :: i <= j < |keys| ==> keys[j] == before[j]
      {
        if i < |cfg.groups| && cfg.groups[i] == group {
          keys := keys[i := keys[i].(coolingUntil := Some(until))];
        }
      }
    }

    method NoteAuthenticationFailure(t: RouteTarget)
      modifies this`keys, this`affinity
      ensures State() == Routing.NoteAuthenticationFailure(cfg, old(State()), t)
    {
      if t.key < |keys| { keys := keys[t.key := keys[t.key].(unusable := true, coolingUntil := None)]; }
      var id := TargetId(cfg, t);
      affinity := map tag | tag in affinity && affinity[tag].route != id :: affinity[tag];
    }

    method NoteModelMissing(t: RouteTarget, now: nat)
      modifies this`routes, this`models, this`affinity
      ensures State() == Routing.NoteModelMissing(cfg, old(State()), t, now)
    {
      hide Observe;
      var id, th := TargetId(cfg, t), cfg.thresholds;
      affinity := map tag | tag in affinity && affinity[tag].route != id :: affinity[tag];
      var route := if id in routes then routes[id] else FRESH_ROUTE;
      routes := routes[id := route.(disabledUntil := Some(Deadline(now, th.missingFor)))];
      var entry := if t.model in models then models[t.model] else FRESH_MODEL;
      entry := entry.(missingGroups := Observe(entry.missingGroups, cfg.hash(t.group), now, th.missingWindow));
      if |entry.missingGroups| >= th.missingGroups {
        entry := entry.(disabled := true, disabledUntil := Some(Deadline(now, th.missingFor)), missingGroups := []);
      }
      models := models[t.model := entry];
    }

    method NoteTransientFailure(t: RouteTarget, attempt: nat, hint: Option<nat>, jitter: real, now: nat)
      returns (cooldown: nat)
      modifies this`keys, this`models, this`circuitOpens
      ensures State() == Routing.NoteTransientFailure(cfg, old(State()), t, attempt, hint, jitter, now)
      ensures cooldown == TransientCooldown(cfg, t, attempt, hint, jitter)
      ensures circuitOpens == old(circuitOpens) + Bump(FailTransition(cfg, old(State()), t, now))
    {
      hide BarrierDuration, RecordFailure;
      cooldown := BarrierDuration(attempt, cfg.cooldownInitial, cfg.cooldownMax, cfg.maxModelCooldown, 0, hint, jitter);
      var alternatives := KeyHasAlternatives(cfg, t);
      if alternatives { cooldown := Min(cooldown, HEALTHY_ROUTE_STEP); }
      if alternatives && t.key < |keys| {
        keys := keys[t.key := keys[t.key].(coolingUntil := Some(Deadline(now, cooldown)))];
      }
      var tr := RecordRouteFailure(t, now);
      if OpensCircuit(tr) { circuitOpens := circuitOpens + 1; }
    }

    method RateLimitStreak(t: RouteTarget) returns (streak: nat)
      ensures streak == KeyOf(State(), t.key).streak
    {
      return if t.key < |keys| then keys[t.key].streak else 0;
    }

    static function Unexpired(entries: map<string, AffinityEntry>, now: nat): map<string, AffinityEntry> {
      map k | k in entries && entries[k].expires > now :: entries[k]
    }

    /** A new tag on a full map costs one entry, and none that expires later than a kept one. */
    static predicate RoomMade(all: map<string, AffinityEntry>, kept: map<string, AffinityEntry>, tag: string,
                              cap: nat) {
      if tag in all || |all| < cap || all == map[] then kept == all
      else
        && kept.Keys <= all.Keys && |kept| == |all| - 1 && (forall k :: k in kept ==> kept[k] == all[k])
        && (forall k, m :: k in all && k !in kept && m in kept ==> all[k].expires <= kept[m].expires)
    }

    /**
     * Making room never moves a pin and keeps only live ones; a live pin is lost only to a new session on a map full of
     * live pins, one at most, and none that outlives a kept one.
     */
    static lemma RoomIsMadeSparingly(entries: map<string, AffinityEntry>, kept: map<string, AffinityEntry>, tag: string,
                                     cap: nat, now: nat, lost: string)
      requires RoomMade(Unexpired(entries, now), kept, tag, cap)
      ensures forall k :: k in kept ==> k in entries && kept[k] == entries[k] && now < entries[k].expires
      ensures lost in entries && now < entries[lost].expires && lost !in kept ==>
        && lost != tag && cap <= |Unexpired(entries, now)| && |kept| == |Unexpired(entries, now)| - 1
        && forall m :: m in kept ==> entries[lost].expires <= entries[m].expires
    {
    }

    /** The map stays within its cap. */
    static lemma PinnedFits(entries: map<string, AffinityEntry>, kept: map<string, AffinityEntry>, tag: string,
                            cap: nat, now: nat, entry: AffinityEntry)
      requires RoomMade(Unexpired(entries, now), kept, tag, cap) && cap > 0 && |entries| <= cap
      ensures |kept[tag := entry]| <= cap
    {
      var all := Unexpired(entries, now);
      assert all.Keys <= entries.Keys;
      Subset(all.Keys, entries.Keys);
      hide Unexpired;
      assert kept[tag := entry].Keys == kept.Keys + {tag};
      if tag in all { assert kept.Keys + {tag} == kept.Keys; }
    }

    /** Pins a session to its route; expired pins go, and a full map first drops its earliest expiry. */
    method NoteSessionRoute(tag: string, t: RouteTarget, now: nat)
      modifies this`affinity
      ensures State() == old(State()).(affinity := affinity)
      ensures if cfg.softAffinity == 0 || Sessionless(tag) then affinity == old(affinity)
        else exists kept :: RoomMade(Unexpired(old(affinity), now), kept, tag, cfg.maxAffinityEntries)
                            && affinity == kept[tag := AffinityEntry(TargetId(cfg, t), now + cfg.softAffinity)]
    {
      hide Sessionless;
      if cfg.softAffinity == 0 || Sessionless(tag) { return; }
      var live := Unexpired(affinity, now);
      if tag !in live && |live| >= cfg.maxAffinityEntries && |live| > 0 { live := WithoutEarliest(live); }
      assert RoomMade(Unexpired(affinity, now), live, tag, cfg.maxAffinityEntries);
      affinity := live[tag := AffinityEntry(TargetId(cfg, t), now + cfg.softAffinity)];
    }

    static method WithoutEarliest(entries: map<string, AffinityEntry>) returns (rest: map<string, AffinityEntry>)
      requires |entries| > 0
      ensures rest.Keys <= entries.Keys && |rest| == |entries| - 1 && forall k :: k in rest ==> rest[k] == entries[k]
      ensures forall k, m :: k in entries && k !in rest && m in rest ==> entries[k].expires <= rest[m].expires
    {
      var oldest := EarliestExpiry(entries);
      rest := entries - {oldest};
      assert rest.Keys == entries.Keys - {oldest};
    }

    static method EarliestExpiry(entries: map<string, AffinityEntry>) returns (tag: string)
      requires |entries| > 0
      ensures tag in entries && forall k :: k in entries ==> entries[tag].expires <= entries[k].expires
    {
      tag :| tag in entries.Keys;
      var rest := entries.Keys - {tag};
      while rest != {}
        invariant tag in entries && rest <= entries.Keys
        invariant forall k :: k in entries && k !in rest ==> entries[tag].expires <= entries[k].expires
      {
        var k :| k in rest;
        rest := rest - {k};
        if entries[k].expires < entries[tag].expires { tag := k; }
      }
    }

    // --- in-flight guards ----------------------------------------------------------------------

    method BeginAttempt(t: RouteTarget) returns (guard: InflightGuard)
      modifies this`keys, this`models, this`guards
      ensures State() == Routing.BeginAttempt(old(State()), t) && guards == old(guards) + {guard}
      ensures fresh(guard) && guard.live && guard.table == this && guard.index == t.key && guard.model == t.model
      ensures guard.holdsProbe == OffersProbe(ModelOf(old(State()), t.model))
    {
      var entry := if t.model in models then models[t.model] else FRESH_MODEL;
      var holds := entry.state.HalfOpen? && !entry.probeInFlight;
      if holds { entry := entry.(probeInFlight := true); }
      models := models[t.model := entry];
      if t.key < |keys| { keys := keys[t.key := keys[t.key].(inflight := keys[t.key].inflight + 1)]; }
      guard := new InflightGuard(this, t.key, t.model, holds);
      guards := guards + {guard};
    }

    // --- readiness --------------------------------------------------------------------------------

    /** Every (model, group) the profiles can reach, one per pair of name hashes. */
    method AllCandidates() returns (all: seq<(Name, Name)>)
      ensures forall x :: x in all ==> x.0 in ConfiguredModels(cfg) && x.1 in cfg.groups
      ensures forall i, j :: 0 <= i < j < |all| ==> IdOf(cfg, all[i].0, all[i].1) != IdOf(cfg, all[j].0, all[j].1)
      ensures forall m, g :: m in ConfiguredModels(cfg) && g in cfg.groups ==>
        exists x :: x in all && IdOf(cfg, x.0, x.1) == IdOf(cfg, m, g)
    {
      all := [];
      var seen: set<RouteId> := {};
      var rest := cfg.profiles.Keys;
      ghost var done: set<Name> := {};
      while rest != {}
        invariant rest + done == cfg.profiles.Keys
        invariant Collected(cfg, all, seen)
        invariant forall p, m, g ::
          p in done && p in cfg.profiles && m in TierModels(cfg.profiles[p].tiers) && g in cfg.groups ==>
            IdOf(cfg, m, g) in seen
        decreases rest
      {
        var name :| name in rest;
        rest := rest - {name};
        ghost var before := seen;
        all, seen := CollectTiers(name, all, seen);
        done := done + {name};
      }
      assert done == cfg.profiles.Keys;
    }

    /** What has been listed so far: known pairs, and exactly the hashes seen. */
    static predicate Collected(cfg: Config, all: seq<(Name, Name)>, seen: set<RouteId>) {
      && (forall x :: x in all ==> x.0 in ConfiguredModels(cfg) && x.1 in cfg.groups && IdOf(cfg, x.0, x.1) in seen)
      && (forall i, j :: 0 <= i < j < |all| ==> IdOf(cfg, all[i].0, all[i].1) != IdOf(cfg, all[j].0, all[j].1))
      && (forall id :: id in seen ==> exists x :: x in all && IdOf(cfg, x.0, x.1) == id)
    }

    method CollectTiers(name: Name, all0: seq<(Name, Name)>, seen0: set<RouteId>) returns (all: seq<(Name, Name)>,
                                                                                           seen: set<RouteId>)
      requires name in cfg.profiles && Collected(cfg, all0, seen0)
      ensures Collected(cfg, all, seen) && seen0 <= seen
      ensures forall m, g :: m in TierModels(cfg.profiles[name].tiers) && g in cfg.groups ==> IdOf(cfg, m, g) in seen
    {
      all, seen := all0, seen0;
      var tiers := cfg.profiles[name].tiers;
      for t := 0 to |tiers|
        invariant Collected(cfg, all, seen) && seen0 <= seen
        invariant forall u, m, g :: 0 <= u < t && m in tiers[u].models && g in cfg.groups ==> IdOf(cfg, m, g) in seen
      {
        for i := 0 to |tiers[t].models|
          invariant Collected(cfg, all, seen) && seen0 <= seen
          invariant forall u, m, g :: 0 <= u < t && m in tiers[u].models && g in cfg.groups ==> IdOf(cfg, m, g) in seen
          invariant forall j, g :: 0 <= j < i && g in cfg.groups ==> IdOf(cfg, tiers[t].models[j], g) in seen
        {
          assert tiers[t].models[i] in tiers[t].models;
          assert tiers[t].models[i] in TierModels(tiers);
          all, seen := CollectModel(tiers[t].models[i], all, seen);
        }
      }
    }

    static lemma CollectedGrows(cfg: Config, all: seq<(Name, Name)>, seen: set<RouteId>, model: Name, group: Name)
      requires Collected(cfg, all, seen) && model in ConfiguredModels(cfg) && group in cfg.groups
      requires IdOf(cfg, model, group) !in seen
      ensures Collected(cfg, all + [(model, group)], seen + {IdOf(cfg, model, group)})
    {
      hide ConfiguredModels;
      var grown, id := all + [(model, group)], IdOf(cfg, model, group);
      assert forall i :: 0 <= i < |all| ==> all[i] in all;
      assert (model, group) in grown;
      forall seenId | seenId in seen + {id} ensures exists x :: x in grown && IdOf(cfg, x.0, x.1) == seenId {
        if seenId != id {
          var x :| x in all && IdOf(cfg, x.0, x.1) == seenId;
          assert x in grown;
        }
      }
    }

    static lemma CandidatesNamed(cfg: Config, rotation: nat, model: Name)
      ensures var names, cs := GroupNames(cfg.groups), CandidatesAt(cfg, rotation, model, 0);
        |cs| == |names| && forall k :: 0 <= k < |cs| ==>
          cs[k].model == model && cs[k].group == names[k] && names[k] in cfg.groups
    {
      var names := GroupNames(cfg.groups);
      assert forall k :: 0 <= k < |names| ==> names[k] in names;
    }

    static lemma EveryGroupSeen(cfg: Config, model: Name, seen: set<RouteId>)
      requires forall j :: 0 <= j < |GroupNames(cfg.groups)| ==> IdOf(cfg, model, GroupNames(cfg.groups)[j]) in seen
      ensures forall g :: g in cfg.groups ==> IdOf(cfg, model, g) in seen
    {
      var names := GroupNames(cfg.groups);
      forall g | g in cfg.groups ensures IdOf(cfg, model, g) in seen {
        assert g in names;
        var j :| 0 <= j < |names| && names[j] == g;
        assert IdOf(cfg, model, names[j]) in seen;
      }
    }

    method CollectModel(model: Name, all0: seq<(Name, Name)>, seen0: set<RouteId>) returns (all: seq<(Name, Name)>,
                                                                                            seen: set<RouteId>)
      requires model in ConfiguredModels(cfg) && Collected(cfg, all0, seen0)
      ensures Collected(cfg, all, seen) && seen0 <= seen
      ensures forall g :: g in cfg.groups ==> IdOf(cfg, model, g) in seen
    {
      hide Collected, ConfiguredModels, GroupNames, CandidatesAt, IdOf;
      all, seen := all0, seen0;
      var cs := CandidatesFor(model, 0);
      CandidatesNamed(cfg, rotation, model);
      for k := 0 to |cs|
        invariant Collected(cfg, all, seen) && seen0 <= seen
        invariant forall j :: 0 <= j < k ==> IdOf(cfg, model, GroupNames(cfg.groups)[j]) in seen
      {
        var id := IdOf(cfg, cs[k].model, cs[k].group);
        if id !in seen {
          CollectedGrows(cfg, all, seen, cs[k].model, cs[k].group);
          all := all + [(cs[k].model, cs[k].group)];
          seen := seen + {id};
        }
      }
      EveryGroupSeen(cfg, model, seen);
    }

    /** Whether the model's candidate in that group is ready. */
    method RouteIsReady(model: Name, group: Name, now: nat) returns (ready: bool)
      requires group in cfg.groups
      modifies this`keys, this`routes, this`models, this`groups
      ensures var c := CandidateFor(cfg, old(rotation), model, group, 0);
        && State() == AfterDial(cfg, old(State()), c, now) && (ready <==> Judge(cfg, old(State()), c, now).dial.Ready?)
      ensures LooksOnly(old(State()), State(), now, now)
    {
      ghost var s := State();
      var names := GroupNames(cfg.groups);
      var cs := CandidatesFor(model, 0);
      assert forall j :: 0 <= j < |names| ==> names[j] in names;
      hide Judge, AfterDial, GroupNames, CandidateFor, Same, OnlyLooked;
      SameRefl(s, now);
      NothingLooked(s, now);
      forall j | 0 <= j < |names|
        ensures cs[j] == CandidateFor(cfg, rotation, model, names[j], 0) && cs[j].group == names[j]
      {
        CandidateModel(cfg, rotation, model, names[j], 0);
      }
      ghost var at :| 0 <= at < |names| && names[at] == group;
      ready := false;
      for k := 0 to |cs|
        invariant State() == s && k <= at
      {
        if cs[k].group == group {
          var d, wait := CheckDialability(cs[k], now);
          DialSame(cfg, s, cs[k], now);
          DialOnlyLooks(cfg, s, cs[k], now);
          assert k == at;
          return d.Ready?;
        }
      }
      assert false;
    }

    /** How many configured routes could be dialed now. */
    method UsableRouteCount(now: nat) returns (count: nat)
      modifies this`keys, this`routes, this`models, this`groups
      ensures count <= |UsableRoutes(cfg, old(State()), now)|
      ensures HashesApart(cfg) ==> count == |UsableRoutes(cfg, old(State()), now)|
      ensures count == 0 && HashesApart(cfg) ==> UsableRoutes(cfg, old(State()), now) == {}
      ensures LooksOnly(old(State()), State(), now, now)
      ensures exists cs :: State() == DialAll(cfg, old(State()), cs, now)
    {
      ghost var s := State();
      var all := AllCandidates();
      hide Judge, AfterDial, CandidateFor, Same, OnlyLooked, ConfiguredModels;
      SameRefl(s, now);
      NothingLooked(s, now);
      count := 0;
      ghost var checked: seq<Candidate> := [];
      ghost var found: set<(Name, Name)> := {};
      for i := 0 to |all|
        invariant LooksOnly(s, State(), now, now) && State() == DialAll(cfg, s, checked, now)
        invariant |found| == count
        invariant forall x :: x in found <==> x in all[..i] && x in UsableRoutes(cfg, s, now)
      {
        ghost var before := State();
        assert all[i] in all;
        SameJudge(cfg, s, before, CandidateFor(cfg, rotation, all[i].0, all[i].1, 0), now, now);
        var ready := RouteIsReady(all[i].0, all[i].1, now);
        SameTrans(s, before, State(), now);
        OnlyLookedTrans(s, before, State(), now);
        ghost var next := CandidateFor(cfg, rotation, all[i].0, all[i].1, 0);
        assert (checked + [next])[..|checked|] == checked;
        checked := checked + [next];
        assert all[i] !in all[..i];
        assert ready <==> all[i] in UsableRoutes(cfg, s, now);
        if ready {
          count := count + 1;
          found := found + {all[i]};
        }
      }
      assert all[..|all|] == all;
      Subset(found, UsableRoutes(cfg, s, now));
      if HashesApart(cfg) {
        forall x | x in UsableRoutes(cfg, s, now) ensures x in found {
          var y :| y in all && IdOf(cfg, y.0, y.1) == IdOf(cfg, x.0, x.1);
        }
        assert found == UsableRoutes(cfg, s, now);
      }
    }

    static lemma Subset<T>(a: set<T>, b: set<T>)
      requires a <= b
      ensures |a| <= |b|
    {
      assert b == a + (b - a);
    }
  }

  /** Releases an in-flight slot, and possibly a half-open probe, when dropped. */
  class InflightGuard {
    const table: RouteTable
    const index: nat
    const model: Name
    var holdsProbe: bool
    var live: bool

    constructor (table: RouteTable, index: nat, model: Name, holdsProbe: bool)
      ensures this.table == table && this.index == index && this.model == model
      ensures this.holdsProbe == holdsProbe && live
    {
      this.table, this.index, this.model := table, index, model;
      this.holdsProbe, live := holdsProbe, true;
    }

    method ReleaseProbe()
      modifies this`holdsProbe, table`models
      ensures !holdsProbe
      ensures table.State() ==
        if old(holdsProbe) then ReleaseModelProbe(old(table.State()), model) else old(table.State())
    {
      if !holdsProbe { return; }
      holdsProbe := false;
      if model in table.models {
        table.models := table.models[model := table.models[model].(probeInFlight := false)];
      }
    }

    method Drop()
      requires live
      modifies this`live, table`keys, table`models, table`guards
      ensures !live && table.guards == old(table.guards) - {this}
      ensures table.State() == DropGuard(old(table.State()), index, model, holdsProbe)
    {
      if index < |table.keys| {
        var key := table.keys[index];
        table.keys := table.keys[index := key.(inflight := Max(key.inflight - 1, 0))];
      }
      if holdsProbe && model in table.models {
        var entry := table.models[model].(probeInFlight := false);
        if entry.state.HalfOpen? { entry := entry.(state := Closed); }
        table.models := table.models[model := entry];
      }
      live := false;
      table.guards := table.guards - {this};
    }
  }
}
