/** What a plan means, tier by tier, in terms of the table it started from. */
module Planner {
  import opened Options
  import opened Ordering
  import opened Routing
  import opened Expiry

  /** A candidate the request may still dial, and that is healthy. */
  predicate Dialable(cfg: Config, s: Table, c: Candidate, skipped: set<Identity>, now: nat) {
    AnyUnskipped(cfg, c, skipped) && Judge(cfg, s, c, now).dial.Ready?
  }

  /** When a candidate that is not ready is known to come back. */
  function KnownWait(cfg: Config, s: Table, c: Candidate, skipped: set<Identity>, now: nat): Option<nat> {
    var v := Judge(cfg, s, c, now);
    if !AnyUnskipped(cfg, c, skipped) || v.dial.Ready? then None
    else if v.dial.Cooling? then Some(v.dial.wait) else v.wait
  }

  function DialableIn(cfg: Config, s: Table, cs: seq<Candidate>, ctx: PlanContext): seq<Scored> {
    if cs == [] then []
    else
      var n := |cs| - 1;
      var before := DialableIn(cfg, s, cs[..n], ctx);
      if Dialable(cfg, s, cs[n], ctx.skipped, ctx.now)
      then before + [Scored(cs[n], Score(cfg, s, cs[n], ctx.affinity, ctx.latencyOptimized))] else before
  }

  function EarliestIn(cfg: Config, s: Table, cs: seq<Candidate>, ctx: PlanContext): Option<nat> {
    if cs == [] then None
    else
      var n := |cs| - 1;
      var before := EarliestIn(cfg, s, cs[..n], ctx);
      match KnownWait(cfg, s, cs[n], ctx.skipped, ctx.now)
      case None => before
      case Some(w) => Sooner(before, w)
  }

  lemma {:induction false} DialableInMeans(cfg: Config, s: Table, cs: seq<Candidate>, ctx: PlanContext)
    ensures forall x :: x in DialableIn(cfg, s, cs, ctx) ==>
      x.candidate in cs && Dialable(cfg, s, x.candidate, ctx.skipped, ctx.now)
    ensures forall c :: c in cs && Dialable(cfg, s, c, ctx.skipped, ctx.now) ==>
      exists x :: x in DialableIn(cfg, s, cs, ctx) && x.candidate == c
  {
    if cs != [] {
      var n := |cs| - 1;
      DialableInMeans(cfg, s, cs[..n], ctx);
      assert forall c :: c in cs <==> c == cs[n] || c in cs[..n];
      if Dialable(cfg, s, cs[n], ctx.skipped, ctx.now) {
        var x := Scored(cs[n], Score(cfg, s, cs[n], ctx.affinity, ctx.latencyOptimized));
        assert x in DialableIn(cfg, s, cs, ctx);
      }
    }
  }

  lemma {:induction false} EarliestInMeans(cfg: Config, s: Table, cs: seq<Candidate>, ctx: PlanContext)
    ensures var e := EarliestIn(cfg, s, cs, ctx);
      && (forall c :: c in cs && KnownWait(cfg, s, c, ctx.skipped, ctx.now).Some? ==>
            e.Some? && e.value <= KnownWait(cfg, s, c, ctx.skipped, ctx.now).value)
      && (e.Some? ==> exists c :: c in cs && KnownWait(cfg, s, c, ctx.skipped, ctx.now) == e)
  {
    if cs != [] {
      var n := |cs| - 1;
      EarliestInMeans(cfg, s, cs[..n], ctx);
      assert forall c :: c in cs <==> c == cs[n] || c in cs[..n];
      assert cs[n] in cs;
    }
  }

  lemma DialKeepsPins(cfg: Config, s: Table, c: Candidate, now: nat)
    ensures var s' := AfterDial(cfg, s, c, now); s'.rotation == s.rotation && s'.affinity == s.affinity
  {
  }

  /** One scanned candidate: what it adds is decided by the table the scan started from. */
  lemma ScanStep(cfg: Config, s: Table, y: Scan, c: Candidate, ctx: PlanContext)
    requires Same(s, y.table, ctx.now)
    ensures var z := ScanOne(cfg, y, c, ctx);
      && Same(s, z.table, ctx.now)
      && z.table.rotation == y.table.rotation && z.table.affinity == y.table.affinity
      && z.available == y.available +
           (if Dialable(cfg, s, c, ctx.skipped, ctx.now)
            then [Scored(c, Score(cfg, s, c, ctx.affinity, ctx.latencyOptimized))] else [])
      && var w := KnownWait(cfg, s, c, ctx.skipped, ctx.now);
         z.wait == if w.None? then y.wait else Sooner(y.wait, w.value)
  {
    hide Judge, AfterDial, Score, Same, AnyUnskipped;
    var after := AfterDial(cfg, y.table, c, ctx.now);
    DialKeepsPins(cfg, y.table, c, ctx.now);
    SameJudge(cfg, s, y.table, c, ctx.now, ctx.now);
    DialSame(cfg, y.table, c, ctx.now);
    SameTrans(s, y.table, after, ctx.now);
    SameScore(cfg, s, after, c, ctx.affinity, ctx.latencyOptimized, ctx.now);
    JudgeShape(cfg, s, c, ctx.now);
  }

  /** Lazy expiry during the scan changes nothing the scan reports. */
  lemma {:induction false} ScanReports(cfg: Config, s: Table, x: Scan, cs: seq<Candidate>, ctx: PlanContext)
    requires Same(s, x.table, ctx.now) && x.available == [] && x.wait == None
    ensures var y := ScanAll(cfg, x, cs, ctx);
      && Same(s, y.table, ctx.now)
      && y.table.rotation == x.table.rotation && y.table.affinity == x.table.affinity
      && y.available == DialableIn(cfg, s, cs, ctx)
      && y.wait == EarliestIn(cfg, s, cs, ctx)
  {
    if cs != [] {
      var n := |cs| - 1;
      ScanReports(cfg, s, x, cs[..n], ctx);
      ScanStep(cfg, s, ScanAll(cfg, x, cs[..n], ctx), cs[n], ctx);
    }
  }

  lemma JudgeShape(cfg: Config, s: Table, c: Candidate, now: nat)
    ensures var v := Judge(cfg, s, c, now); v.dial.Cooling? ==> v.wait == Some(v.dial.wait)
  {
  }

  // --- tiers -----------------------------------------------------------------------

  function CandidatesOf(cfg: Config, s: Table, tiers: seq<Tier>, t: nat): seq<Candidate>
    requires t < |tiers|
  {
    TierCandidates(cfg, s.rotation, tiers[t].models)
  }

  ghost predicate HasDialable(cfg: Config, s: Table, tiers: seq<Tier>, t: nat, skipped: set<Identity>, now: nat)
    requires t < |tiers|
  {
    exists c :: c in CandidatesOf(cfg, s, tiers, t) && Dialable(cfg, s, c, skipped, now)
  }

  ghost predicate HasKnownWait(cfg: Config, s: Table, tiers: seq<Tier>, t: nat, skipped: set<Identity>, now: nat)
    requires t < |tiers|
  {
    exists c :: c in CandidatesOf(cfg, s, tiers, t) && KnownWait(cfg, s, c, skipped, now).Some?
  }

  /** Tier t is passed over: nothing to dial, and either fallback is allowed or nothing there is coming back. */
  ghost predicate PassedOver(cfg: Config, s: Table, p: Profile, t: nat, skipped: set<Identity>, now: nat)
    requires t < |p.tiers|
  {
    !HasDialable(cfg, s, p.tiers, t, skipped, now)
    && (p.allowLowerTier || !HasKnownWait(cfg, s, p.tiers, t, skipped, now))
  }

  /** The scan gets as far as tier t. */
  ghost predicate Reaches(cfg: Config, s: Table, p: Profile, t: nat, skipped: set<Identity>, now: nat) {
    t <= |p.tiers| && forall t' :: 0 <= t' < t ==> PassedOver(cfg, s, p, t', skipped, now)
  }

  lemma TierScan(cfg: Config, s0: Table, s: Table, tiers: seq<Tier>, t: nat, gate: Option<GateReason>, ctx: PlanContext)
    requires t < |tiers| && Same(s0, s, ctx.now) && s.rotation == s0.rotation
    ensures var x := ScanTier(cfg, s, tiers[t].models, gate, ctx);
      && Same(s0, x.table, ctx.now) && x.table.rotation == s0.rotation && x.table.affinity == s.affinity
      && x.available == DialableIn(cfg, s0, CandidatesOf(cfg, s0, tiers, t), ctx)
      && x.wait == EarliestIn(cfg, s0, CandidatesOf(cfg, s0, tiers, t), ctx)
      && (x.available != [] <==> HasDialable(cfg, s0, tiers, t, ctx.skipped, ctx.now))
      && (x.wait.Some? <==> HasKnownWait(cfg, s0, tiers, t, ctx.skipped, ctx.now))
  {
    var cs := CandidatesOf(cfg, s0, tiers, t);
    ScanReports(cfg, s0, Scan(s, [], None, false, gate), cs, ctx);
    DialableInMeans(cfg, s0, cs, ctx);
    EarliestInMeans(cfg, s0, cs, ctx);
    var found := DialableIn(cfg, s0, cs, ctx);
    if found != [] { assert found[0] in found; }
  }

  /** The head of the order over everything dialable in tier t. */
  function Winner(cfg: Config, s: Table, tiers: seq<Tier>, t: nat, ctx: PlanContext): Candidate
    requires t < |tiers| && DialableIn(cfg, s, CandidatesOf(cfg, s, tiers, t), ctx) != []
  {
    Order(cfg, DialableIn(cfg, s, CandidatesOf(cfg, s, tiers, t), ctx), ctx.affinity, s.rotation)[0].candidate
  }

  /** The target is the tier's best dialable candidate, through its first sampled key that is ready. */
  ghost predicate SoundTarget(cfg: Config, s: Table, tiers: seq<Tier>, target: RouteTarget, ctx: PlanContext,
                              later: nat) {
    && target.tier < |tiers|
    && DialableIn(cfg, s, CandidatesOf(cfg, s, tiers, target.tier), ctx) != []
    && var c := Winner(cfg, s, tiers, target.tier, ctx);
       c in CandidatesOf(cfg, s, tiers, target.tier) && Dialable(cfg, s, c, ctx.skipped, ctx.now)
       && target.model == c.model && target.group == c.group
       && target.key == ChosenKey(s, c, later) && target.key in Sampled(c) && KeyReady(s, target.key, later)
  }

  lemma OrderKeeps(cfg: Config, scored: seq<Scored>, affinity: Option<RouteId>, rotation: nat)
    ensures multiset(Order(cfg, scored, affinity, rotation)) == multiset(scored)
  {
    var ranked := RankAll(cfg, scored, affinity, rotation);
    SortKeepsItems(ranked);
    assert Items(ranked) == scored;
  }

  /** The candidate that wins the order came out of the scan. */
  lemma WinnerIsDialable(cfg: Config, s0: Table, available: seq<Scored>, cs: seq<Candidate>, ctx: PlanContext,
                         rotation: nat)
    requires available == DialableIn(cfg, s0, cs, ctx) && available != []
    ensures var c := Order(cfg, available, ctx.affinity, rotation)[0].candidate;
      c in cs && Dialable(cfg, s0, c, ctx.skipped, ctx.now)
  {
    var ordered := Order(cfg, available, ctx.affinity, rotation);
    OrderKeeps(cfg, available, ctx.affinity, rotation);
    assert ordered[0] in multiset(ordered);
    DialableInMeans(cfg, s0, cs, ctx);
  }

  lemma SameChosenKey(s0: Table, s: Table, c: Candidate, later: nat)
    requires Same(s0, s, later)
    ensures ChosenKey(s0, c, later) == ChosenKey(s, c, later)
  {
  }

  lemma SoundBy(cfg: Config, s: Table, tiers: seq<Tier>, t: nat, ctx: PlanContext, later: nat)
    requires t < |tiers| && ctx.now <= later
    requires DialableIn(cfg, s, CandidatesOf(cfg, s, tiers, t), ctx) != []
    ensures var c := Winner(cfg, s, tiers, t, ctx);
      SoundTarget(cfg, s, tiers, RouteTarget(c.model, c.group, ChosenKey(s, c, later), t), ctx, later)
  {
    hide DialableIn, Order, TierCandidates, Judge, ChosenKey;
    WinnerIsDialable(cfg, s, DialableIn(cfg, s, CandidatesOf(cfg, s, tiers, t), ctx), CandidatesOf(cfg, s, tiers, t),
                     ctx, s.rotation);
    ReadyKeyStaysReady(cfg, s, Winner(cfg, s, tiers, t, ctx), ctx.now, later);
  }

  ghost predicate SelectedWell(cfg: Config, s0: Table, tiers: seq<Tier>, t: nat, ctx: PlanContext, later: nat,
                               x: Scan, after: Table, r: PlanResult)
  {
    r.Planned? && r.target.tier == t && r.steppedDown == t && r.nextAlternative == x.wait
    && SoundTarget(cfg, s0, tiers, r.target, ctx, later)
    && Same(s0, after, later) && after.rotation == s0.rotation + 1 && after.affinity == x.table.affinity
  }

  lemma SelectSoundFor(cfg: Config, s0: Table, x: Scan, c: Candidate, tiers: seq<Tier>, t: nat, ctx: PlanContext,
                       later: nat)
    requires t < |tiers| && ctx.now <= later
    requires Same(s0, x.table, ctx.now) && x.table.rotation == s0.rotation
    requires SoundTarget(cfg, s0, tiers, RouteTarget(c.model, c.group, ChosenKey(s0, c, later), t), ctx, later)
    ensures var s := x.table.(rotation := x.table.rotation + 1);
      SelectedWell(cfg, s0, tiers, t, ctx, later, x, TouchSampled(s, c, later),
                   Planned(RouteTarget(c.model, c.group, ChosenKey(s, c, later), t), t, x.gate, x.wait))
  {
    hide SoundTarget, TouchSampled;
    SelectSame(s0, x.table, c, ctx.now, later);
    SameChosenKey(s0, x.table.(rotation := x.table.rotation + 1), c, later);
  }

  lemma SelectSound(cfg: Config, s0: Table, x: Scan, tiers: seq<Tier>, t: nat, ctx: PlanContext, later: nat)
    requires t < |tiers| && ctx.now <= later
    requires Same(s0, x.table, ctx.now) && x.table.rotation == s0.rotation
    requires x.available == DialableIn(cfg, s0, CandidatesOf(cfg, s0, tiers, t), ctx) && x.available != []
    ensures var (s', r) := Select(cfg, x, t, ctx, later); SelectedWell(cfg, s0, tiers, t, ctx, later, x, s', r)
  {
    hide Same, DialableIn, TierCandidates, Order, SoundTarget, SelectedWell, Dialable;
    SoundBy(cfg, s0, tiers, t, ctx, later);
    SelectSoundFor(cfg, s0, x, Winner(cfg, s0, tiers, t, ctx), tiers, t, ctx, later);
  }

  lemma SelectSame(s0: Table, s: Table, c: Candidate, now: nat, later: nat)
    requires Same(s0, s, now) && now <= later
    ensures var s' := s.(rotation := s.rotation + 1);
      Same(s0, s', later) && Same(s0, TouchSampled(s', c, later), later)
      && TouchSampled(s', c, later).rotation == s'.rotation && TouchSampled(s', c, later).affinity == s'.affinity
  {
    var s' := s.(rotation := s.rotation + 1);
    RotatedSame(s0, s, now, later);
    TouchSampledSame(s', c, later);
    SameTrans(s0, s', TouchSampled(s', c, later), later);
  }

  lemma RotatedSame(s0: Table, s: Table, now: nat, later: nat)
    requires Same(s0, s, now) && now <= later
    ensures Same(s0, s.(rotation := s.rotation + 1), later)
  {
    SameLater(s0, s, now, later);
    var s' := s.(rotation := s.rotation + 1);
    assert forall id :: RouteOf(s, id) == RouteOf(s', id);
    assert forall g :: GroupOf(s, g) == GroupOf(s', g);
    assert forall m :: ModelOf(s, m) == ModelOf(s', m);
  }

  /** The clock alone never makes a ready key unready. */
  lemma ReadyKeyStaysReady(cfg: Config, s: Table, c: Candidate, now: nat, later: nat)
    requires Judge(cfg, s, c, now).dial.Ready? && now <= later
    ensures ChosenKey(s, c, later) in Sampled(c) && KeyReady(s, ChosenKey(s, c, later), later)
  {
    assert AnyKeyReady(s, c, now);
    var i :| i in Sampled(c) && KeyReady(s, i, now);
    assert KeyReady(s, i, later);
  }

  // --- the whole plan ------------------------------------------------------------------

  /** The least known wait over the tiers the scan reached. */
  ghost predicate EarliestReached(cfg: Config, s: Table, tiers: seq<Tier>, last: nat, skipped: set<Identity>,
                                  now: nat, wait: Option<nat>)
    requires last <= |tiers|
  {
    && (forall t, c ::
          0 <= t < last && c in CandidatesOf(cfg, s, tiers, t) && KnownWait(cfg, s, c, skipped, now).Some? ==>
          wait.Some? && wait.value <= KnownWait(cfg, s, c, skipped, now).value)
    && (wait.Some? ==> exists t, c :: 0 <= t < last && c in CandidatesOf(cfg, s, tiers, t)
                                      && KnownWait(cfg, s, c, skipped, now) == wait)
  }

  lemma ExtendEarliest(cfg: Config, s: Table, tiers: seq<Tier>, t: nat, ctx: PlanContext, wait: Option<nat>)
    requires t < |tiers| && EarliestReached(cfg, s, tiers, t, ctx.skipped, ctx.now, wait)
    ensures var e := EarliestIn(cfg, s, CandidatesOf(cfg, s, tiers, t), ctx);
      EarliestReached(cfg, s, tiers, t + 1, ctx.skipped, ctx.now, if e.None? then wait else Sooner(wait, e.value))
  {
    hide KnownWait, EarliestIn, TierCandidates;
    var cs := CandidatesOf(cfg, s, tiers, t);
    EarliestInMeans(cfg, s, cs, ctx);
    var e := EarliestIn(cfg, s, cs, ctx);
    var sum := if e.None? then wait else Sooner(wait, e.value);
    if sum.Some? && sum != wait {
      var c :| c in cs && KnownWait(cfg, s, c, ctx.skipped, ctx.now) == e;
      assert c in CandidatesOf(cfg, s, tiers, t) && KnownWait(cfg, s, c, ctx.skipped, ctx.now) == sum;
    }
  }

  /** What the scan from tier t on comes to. */
  ghost predicate Meaning(cfg: Config, s: Table, p: Profile, ctx: PlanContext, later: nat, r: PlanResult) {
    var skipped, now := ctx.skipped, ctx.now;
    match r
    case Planned(target, stepped, _, next) =>
      && SoundTarget(cfg, s, p.tiers, target, ctx, later)
      && Reaches(cfg, s, p, target.tier, skipped, now)
      && stepped == target.tier
      && next == EarliestIn(cfg, s, CandidatesOf(cfg, s, p.tiers, target.tier), ctx)
    case Unavailable(wait) =>
      exists last :: 0 <= last <= |p.tiers| && EarliestReached(cfg, s, p.tiers, last, skipped, now, wait)
        && (forall t :: 0 <= t < last ==> !HasDialable(cfg, s, p.tiers, t, skipped, now))
        && (last < |p.tiers| ==>
              last > 0 && !p.allowLowerTier && Reaches(cfg, s, p, last - 1, skipped, now)
              && HasKnownWait(cfg, s, p.tiers, last - 1, skipped, now))
  }

  lemma ReachedAreBlank(cfg: Config, s: Table, p: Profile, last: nat, skipped: set<Identity>, now: nat)
    requires Reaches(cfg, s, p, last, skipped, now)
    ensures forall t :: 0 <= t < last ==> !HasDialable(cfg, s, p.tiers, t, skipped, now)
  {
    forall t | 0 <= t < last ensures !HasDialable(cfg, s, p.tiers, t, skipped, now) {
      assert PassedOver(cfg, s, p, t, skipped, now);
    }
  }

  lemma StoppedMeans(cfg: Config, s: Table, p: Profile, last: nat, ctx: PlanContext, wait: Option<nat>, later: nat)
    requires 0 < last <= |p.tiers| && !p.allowLowerTier
    requires Reaches(cfg, s, p, last - 1, ctx.skipped, ctx.now)
    requires !HasDialable(cfg, s, p.tiers, last - 1, ctx.skipped, ctx.now)
    requires HasKnownWait(cfg, s, p.tiers, last - 1, ctx.skipped, ctx.now)
    requires EarliestReached(cfg, s, p.tiers, last, ctx.skipped, ctx.now, wait)
    ensures Meaning(cfg, s, p, ctx, later, Unavailable(wait))
  {
    hide HasDialable, HasKnownWait, EarliestReached;
    ReachedAreBlank(cfg, s, p, last - 1, ctx.skipped, ctx.now);
  }

  lemma ExhaustedMeans(cfg: Config, s: Table, p: Profile, ctx: PlanContext, wait: Option<nat>, later: nat)
    requires Reaches(cfg, s, p, |p.tiers|, ctx.skipped, ctx.now)
    requires EarliestReached(cfg, s, p.tiers, |p.tiers|, ctx.skipped, ctx.now, wait)
    ensures Meaning(cfg, s, p, ctx, later, Unavailable(wait))
  {
    hide HasDialable, HasKnownWait, EarliestReached;
    ReachedAreBlank(cfg, s, p, |p.tiers|, ctx.skipped, ctx.now);
  }

  lemma {:induction false} PlanFromMeans(cfg: Config, s0: Table, s: Table, p: Profile, tier: nat, ctx: PlanContext,
                                         gate: Option<GateReason>, wait: Option<nat>, later: nat)
    requires tier <= |p.tiers| && ctx.now <= later
    requires Same(s0, s, ctx.now) && s.rotation == s0.rotation
    requires Reaches(cfg, s0, p, tier, ctx.skipped, ctx.now)
    requires EarliestReached(cfg, s0, p.tiers, tier, ctx.skipped, ctx.now, wait)
    ensures var (s', r) := PlanFrom(cfg, s, p.tiers, tier, p.allowLowerTier, ctx, gate, wait, later);
      && Meaning(cfg, s0, p, ctx, later, r)
      && Same(s0, s', later) && s'.affinity == s.affinity
      && s'.rotation == s0.rotation + (if r.Planned? then 1 else 0)
    decreases |p.tiers| - tier
  {
    hide Same, SoundTarget, DialableIn, EarliestIn, TierCandidates;
    hide ScanTier, Select, EarliestReached, HasDialable, HasKnownWait;
    SameLater(s0, s, ctx.now, later);
    if tier < |p.tiers| {
      var x := ScanTier(cfg, s, p.tiers[tier].models, gate, ctx);
      TierScan(cfg, s0, s, p.tiers, tier, gate, ctx);
      SameLater(s0, x.table, ctx.now, later);
      ExtendEarliest(cfg, s0, p.tiers, tier, ctx, wait);
      if x.available != [] {
        SelectSound(cfg, s0, x, p.tiers, tier, ctx, later);
        EarliestInMeans(cfg, s0, CandidatesOf(cfg, s0, p.tiers, tier), ctx);
      } else if x.wait.None? {
        assert PassedOver(cfg, s0, p, tier, ctx.skipped, ctx.now);
        PlanFromMeans(cfg, s0, x.table, p, tier + 1, ctx, x.gate, wait, later);
      } else if p.allowLowerTier {
        assert PassedOver(cfg, s0, p, tier, ctx.skipped, ctx.now);
        PlanFromMeans(cfg, s0, x.table, p, tier + 1, ctx, x.gate, Sooner(wait, x.wait.value), later);
      } else {
        StoppedMeans(cfg, s0, p, tier + 1, ctx, Sooner(wait, x.wait.value), later);
      }
    } else {
      ExhaustedMeans(cfg, s0, p, ctx, wait, later);
    }
  }

  lemma SameAffinityRoute(s: Table, tag: string, now: nat)
    ensures var s' := AffinityRoute(s, tag, now).0; Same(s, s', now) && s'.rotation == s.rotation
  {
  }

  function ContextOf(cfg: Config, s: Table, spec: RouteSpec, tag: string, skipped: set<Identity>, now: nat): PlanContext
    requires Known(cfg, spec)
  {
    PlanContext(now, AffinityRoute(s, tag, now).1, ProfileOf(cfg, spec).latencyOptimized, skipped)
  }

  /**
   * Tier absoluteness and sound selection: a planned target is a ready, sampled key of a dialable candidate of
   * its tier, every earlier tier was passed over, and a refusal reports the least wait of the tiers it scanned.
   */
  lemma PlanMeans(cfg: Config, s: Table, spec: RouteSpec, tag: string, skipped: set<Identity>, now: nat, later: nat)
    requires Known(cfg, spec) && now <= later
    ensures var (s', r) := Plan(cfg, s, spec, tag, skipped, now, later);
      && Meaning(cfg, s, ProfileOf(cfg, spec), ContextOf(cfg, s, spec, tag, skipped, now), later, r)
      && Same(s, s', later)
      && s'.rotation == s.rotation + (if r.Planned? then 1 else 0)
  {
    var p := ProfileOf(cfg, spec);
    var (s1, affinity) := AffinityRoute(s, tag, now);
    SameAffinityRoute(s, tag, now);
    PlanFromMeans(cfg, s, s1, p, 0, PlanContext(now, affinity, p.latencyOptimized, skipped), None, None, later);
  }

  lemma PassedOverMeans(cfg: Config, s: Table, p: Profile, t: nat, skipped: set<Identity>, now: nat)
    requires t < |p.tiers|
    ensures PassedOver(cfg, s, p, t, skipped, now) ==> !HasDialable(cfg, s, p.tiers, t, skipped, now)
    ensures PassedOver(cfg, s, p, t, skipped, now) && !p.allowLowerTier ==>
      !HasKnownWait(cfg, s, p.tiers, t, skipped, now)
  {
  }

  /** A refusal means there was nothing to dial in any tier the scan could reach. */
  lemma RefusalMeans(cfg: Config, s: Table, p: Profile, ctx: PlanContext, later: nat, r: PlanResult, t: nat)
    requires r.Unavailable? && Meaning(cfg, s, p, ctx, later, r)
    requires t < |p.tiers| && Reaches(cfg, s, p, t, ctx.skipped, ctx.now)
    ensures !HasDialable(cfg, s, p.tiers, t, ctx.skipped, ctx.now)
  {
    hide EarliestReached, HasDialable, HasKnownWait, PassedOver;
    var last :| 0 <= last <= |p.tiers| && EarliestReached(cfg, s, p.tiers, last, ctx.skipped, ctx.now, r.wait)
      && (forall t :: 0 <= t < last ==> !HasDialable(cfg, s, p.tiers, t, ctx.skipped, ctx.now))
      && (last < |p.tiers| ==>
            last > 0 && !p.allowLowerTier && Reaches(cfg, s, p, last - 1, ctx.skipped, ctx.now)
            && HasKnownWait(cfg, s, p.tiers, last - 1, ctx.skipped, ctx.now));
    if 0 < last { PassedOverMeans(cfg, s, p, last - 1, ctx.skipped, ctx.now); }
  }

  /** The plan lands on tier t exactly when the scan reaches t and t has something to dial. */
  lemma PlansTierExactly(cfg: Config, s: Table, spec: RouteSpec, tag: string, skipped: set<Identity>,
                         now: nat, later: nat, t: nat)
    requires Known(cfg, spec) && now <= later
    ensures var r := Plan(cfg, s, spec, tag, skipped, now, later).1;
            var p := ProfileOf(cfg, spec);
      r.Planned? && r.target.tier == t <==>
        t < |p.tiers| && Reaches(cfg, s, p, t, skipped, now) && HasDialable(cfg, s, p.tiers, t, skipped, now)
  {
    PlanMeans(cfg, s, spec, tag, skipped, now, later);
    var r := Plan(cfg, s, spec, tag, skipped, now, later).1;
    var p := ProfileOf(cfg, spec);
    if t < |p.tiers| && Reaches(cfg, s, p, t, skipped, now) {
      PassedOverMeans(cfg, s, p, t, skipped, now);
      if r.Planned? {
        PassedOverMeans(cfg, s, p, r.target.tier, skipped, now);
      } else {
        RefusalMeans(cfg, s, p, ContextOf(cfg, s, spec, tag, skipped, now), later, r, t);
      }
    }
  }

  /** A planned target is a candidate of its tier that passes every gate, through a sampled key that is ready. */
  lemma PlannedTargetIsHealthy(cfg: Config, s: Table, spec: RouteSpec, tag: string, skipped: set<Identity>,
                               now: nat, later: nat)
    requires Known(cfg, spec) && now <= later
    ensures var r := Plan(cfg, s, spec, tag, skipped, now, later).1;
            var tiers := ProfileOf(cfg, spec).tiers;
            r.Planned? ==> var target := r.target;
      && target.tier < |tiers| && target.model in tiers[target.tier].models
      && target.key < |cfg.groups| && cfg.groups[target.key] == target.group
      && exists c :: c in CandidatesOf(cfg, s, tiers, target.tier) && c.model == target.model && c.group == target.group
           && target.key in Sampled(c) && KeyReady(s, target.key, later) && PassesEveryGate(cfg, s, c, now)
  {
    hide Meaning, SoundTarget;
    PlanMeans(cfg, s, spec, tag, skipped, now, later);
    var r := Plan(cfg, s, spec, tag, skipped, now, later).1;
    if r.Planned? { MeansHealthy(cfg, s, ProfileOf(cfg, spec), ContextOf(cfg, s, spec, tag, skipped, now), later, r); }
  }

  lemma MeansHealthy(cfg: Config, s: Table, p: Profile, ctx: PlanContext, later: nat, r: PlanResult)
    requires r.Planned? && Meaning(cfg, s, p, ctx, later, r)
    ensures var target := r.target;
      && target.tier < |p.tiers| && target.model in p.tiers[target.tier].models
      && target.key < |cfg.groups| && cfg.groups[target.key] == target.group
      && exists c ::
           c in CandidatesOf(cfg, s, p.tiers, target.tier) && c.model == target.model && c.group == target.group
           && target.key in Sampled(c) && KeyReady(s, target.key, later) && PassesEveryGate(cfg, s, c, ctx.now)
  {
    hide Judge, Reaches, EarliestIn;
    var c := Winner(cfg, s, p.tiers, r.target.tier, ctx);
    TierCandidatesMeans(cfg, s.rotation, p.tiers[r.target.tier].models, c);
    ReadyExactly(cfg, s, c, ctx.now);
  }

  /** Membership in a tier's candidates: one candidate per listed model and quota group. */
  lemma {:induction false} TierCandidatesMeans(cfg: Config, rotation: nat, models: seq<Name>, c: Candidate)
    ensures c in TierCandidates(cfg, rotation, models) <==>
      c.ordinal < |models| && c.group in cfg.groups
      && c == CandidateFor(cfg, rotation, models[c.ordinal], c.group, c.ordinal)
  {
    if models != [] {
      var n := |models| - 1;
      TierCandidatesMeans(cfg, rotation, models[..n], c);
      CandidatesAtMeans(cfg, rotation, models[n], n, c);
    }
  }

  lemma CandidatesAtMeans(cfg: Config, rotation: nat, model: Name, ordinal: nat, c: Candidate)
    ensures c in CandidatesAt(cfg, rotation, model, ordinal) <==>
      c.group in cfg.groups && c == CandidateFor(cfg, rotation, model, c.group, ordinal)
  {
    var names, cs := GroupNames(cfg.groups), CandidatesAt(cfg, rotation, model, ordinal);
    if c in cs {
      var k :| 0 <= k < |cs| && cs[k] == c;
      assert names[k] in names;
    }
    if c.group in cfg.groups && c == CandidateFor(cfg, rotation, model, c.group, ordinal) {
      assert c.group in names;
      var k :| 0 <= k < |names| && names[k] == c.group;
      assert cs[k] == c;
    }
  }
}
