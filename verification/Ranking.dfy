/** Which of the dialable routes a plan picks, in terms of the counters of the keys they sample. */
module Ranking {
  import opened Options
  import opened Ordering
  import opened Routing
  import opened Planner
  import opened Rotation

  /** Attempts in flight on the keys that a candidate samples. */
  function InFlight(s: Table, c: Candidate): nat {
    KeyOf(s, c.a).inflight + if c.b.Some? && c.b.value != c.a then KeyOf(s, c.b.value).inflight else 0
  }

  /** Rate limits in a row on those keys. */
  function Strikes(s: Table, c: Candidate): nat {
    KeyOf(s, c.a).streak + if c.b.Some? && c.b.value != c.a then KeyOf(s, c.b.value).streak else 0
  }

  function Slowness(s: Table, c: Candidate): nat {
    KeyOf(s, c.a).latencyCost + if c.b.Some? && c.b.value != c.a then KeyOf(s, c.b.value).latencyCost else 0
  }

  /** The route the session is pinned to, while the pin lasts. */
  function PinOf(s: Table, tag: string, now: nat): Option<RouteId> {
    if tag != "" && tag != "sess_none" && tag in s.affinity && now < s.affinity[tag].expires
    then Some(s.affinity[tag].route) else None
  }

  /** `c` weighs no more than `d`: a million for each attempt, a hundred thousand for each strike, and slowness. */
  predicate NoHeavier(s: Table, c: Candidate, d: Candidate, bySpeed: bool) {
    1_000_000 * InFlight(s, c) + 100_000 * Strikes(s, c) + (if bySpeed then Slowness(s, c) else 0)
    <= 1_000_000 * InFlight(s, d) + 100_000 * Strikes(s, d) + (if bySpeed then Slowness(s, d) else 0)
  }

  lemma ScoreWeighs(cfg: Config, s: Table, c: Candidate, pin: Option<RouteId>, bySpeed: bool)
    requires pin != Some(CandidateId(cfg, c))
    ensures Score(cfg, s, c, pin, bySpeed)
         == 1_000_000 * InFlight(s, c) + 100_000 * Strikes(s, c) + (if bySpeed then Slowness(s, c) else 0)
  {
    assert forall i: nat ::
        KeyCost(s, i, bySpeed) == 1_000_000 * KeyOf(s, i).inflight + 100_000 * KeyOf(s, i).streak
                                  + (if bySpeed then KeyOf(s, i).latencyCost else 0);
  }

  lemma {:induction false} ScoresAreTheirs(cfg: Config, s: Table, cs: seq<Candidate>, ctx: PlanContext)
    ensures forall x :: x in DialableIn(cfg, s, cs, ctx) ==>
      x.score == Score(cfg, s, x.candidate, ctx.affinity, ctx.latencyOptimized)
  {
    hide Score, Dialable;
    if cs != [] { ScoresAreTheirs(cfg, s, cs[..|cs| - 1], ctx); }
  }

  /** The head of the order, compared with any other entry. */
  lemma HeadAgainst(cfg: Config, scored: seq<Scored>, pin: Option<RouteId>, rotation: nat, x: Scored)
    requires x in scored
    ensures var head := Order(cfg, scored, pin, rotation)[0];
      && head in scored
      && (pin == Some(CandidateId(cfg, x.candidate)) ==> pin == Some(CandidateId(cfg, head.candidate)))
      && (pin != Some(CandidateId(cfg, head.candidate)) ==>
            head.score < x.score || (head.score == x.score && head.candidate.ordinal <= x.candidate.ordinal))
  {
    hide Order;
    var p := OrderHeadIsLeast(cfg, scored, pin, rotation);
    var q :| 0 <= q < |scored| && scored[q] == x;
    assert Le(RankAt(cfg, scored, pin, rotation, p), RankAt(cfg, scored, pin, rotation, q));
  }

  /**
   * The planned route, unless it is the session's pinned one, weighs no more than any other route that the tier could
   * dial, and comes no later in the tier than any that weighs the same.
   */
  ghost predicate Lightest(cfg: Config, s: Table, cs: seq<Candidate>, skipped: set<Identity>, now: nat,
                           pin: Option<RouteId>, bySpeed: bool, target: RouteTarget)
  {
    exists c :: c in cs && Dialable(cfg, s, c, skipped, now) && c.model == target.model && c.group == target.group
      && target.key in Sampled(c)
      && (pin == Some(CandidateId(cfg, c))
          || forall d :: d in cs && Dialable(cfg, s, d, skipped, now) ==>
               && pin != Some(CandidateId(cfg, d)) && NoHeavier(s, c, d, bySpeed)
               && (NoHeavier(s, d, c, bySpeed) ==> c.ordinal <= d.ordinal))
  }

  lemma WinnerIsLightest(cfg: Config, s: Table, tiers: seq<Tier>, t: nat, ctx: PlanContext, d: Candidate)
    requires t < |tiers| && DialableIn(cfg, s, CandidatesOf(cfg, s, tiers, t), ctx) != []
    requires ctx.affinity != Some(CandidateId(cfg, Winner(cfg, s, tiers, t, ctx)))
    requires d in CandidatesOf(cfg, s, tiers, t) && Dialable(cfg, s, d, ctx.skipped, ctx.now)
    ensures var c := Winner(cfg, s, tiers, t, ctx);
      && ctx.affinity != Some(CandidateId(cfg, d)) && NoHeavier(s, c, d, ctx.latencyOptimized)
      && (NoHeavier(s, d, c, ctx.latencyOptimized) ==> c.ordinal <= d.ordinal)
  {
    hide Order, Score, DialableIn, Dialable, CandidatesOf;
    var c, cs := Winner(cfg, s, tiers, t, ctx), CandidatesOf(cfg, s, tiers, t);
    var scored := DialableIn(cfg, s, cs, ctx);
    DialableInMeans(cfg, s, cs, ctx);
    ScoresAreTheirs(cfg, s, cs, ctx);
    var x :| x in scored && x.candidate == d;
    HeadAgainst(cfg, scored, ctx.affinity, s.rotation, x);
    ScoreWeighs(cfg, s, c, ctx.affinity, ctx.latencyOptimized);
    ScoreWeighs(cfg, s, d, ctx.affinity, ctx.latencyOptimized);
  }

  lemma PinIsAffinity(s: Table, tag: string, now: nat)
    ensures AffinityRoute(s, tag, now).1 == PinOf(s, tag, now)
  {
  }

  /** A plan picks the lightest dialable route of its tier, the pinned one apart. */
  lemma PicksTheLightest(cfg: Config, s: Table, spec: RouteSpec, tag: string, skipped: set<Identity>, now: nat,
                         later: nat)
    requires Known(cfg, spec) && now <= later
    ensures var r, p := Plan(cfg, s, spec, tag, skipped, now, later).1, ProfileOf(cfg, spec);
      r.Planned? ==>
        r.target.tier < |p.tiers| &&
        Lightest(cfg, s, CandidatesOf(cfg, s, p.tiers, r.target.tier), skipped, now, PinOf(s, tag, now),
                 p.latencyOptimized, r.target)
  {
    hide Plan, Judge, Reaches, DialableIn, Order, TierCandidates, EarliestIn, ChosenKey, NoHeavier, Dialable;
    PlanMeans(cfg, s, spec, tag, skipped, now, later);
    PinIsAffinity(s, tag, now);
    var r, p := Plan(cfg, s, spec, tag, skipped, now, later).1, ProfileOf(cfg, spec);
    if r.Planned? {
      var ctx, cs := ContextOf(cfg, s, spec, tag, skipped, now), CandidatesOf(cfg, s, p.tiers, r.target.tier);
      var c := Winner(cfg, s, p.tiers, r.target.tier, ctx);
      if ctx.affinity != Some(CandidateId(cfg, c)) {
        forall d | d in cs && Dialable(cfg, s, d, skipped, now)
          ensures ctx.affinity != Some(CandidateId(cfg, d)) && NoHeavier(s, c, d, ctx.latencyOptimized)
          ensures NoHeavier(s, d, c, ctx.latencyOptimized) ==> c.ordinal <= d.ordinal
        {
          WinnerIsLightest(cfg, s, p.tiers, r.target.tier, ctx, d);
        }
      }
    }
  }

  /**
   * In terms of the counters, for a profile that does not weigh speed: no other dialable route has fewer attempts in
   * flight unless it has ten strikes more for each of them; none has as many attempts and fewer strikes; and none with
   * the same counters comes earlier in the tier.
   */
  lemma LightestByCounters(s: Table, c: Candidate, d: Candidate)
    requires NoHeavier(s, c, d, false) && (NoHeavier(s, d, c, false) ==> c.ordinal <= d.ordinal)
    ensures InFlight(s, d) < InFlight(s, c) ==>
      Strikes(s, d) >= Strikes(s, c) + 10 * (InFlight(s, c) - InFlight(s, d))
    ensures InFlight(s, d) == InFlight(s, c) ==> Strikes(s, c) <= Strikes(s, d)
    ensures InFlight(s, d) == InFlight(s, c) && Strikes(s, d) == Strikes(s, c) ==> c.ordinal <= d.ordinal
  {
    hide InFlight, Strikes;
  }

  /** So a route with fewer attempts in flight is picked over one with up to nine strikes less. */
  lemma LeastLoadedWins(cfg: Config, s: Table, spec: RouteSpec, tag: string, skipped: set<Identity>, now: nat,
                        later: nat, d: Candidate)
    requires Known(cfg, spec) && now <= later && !ProfileOf(cfg, spec).latencyOptimized
    requires Plan(cfg, s, spec, tag, skipped, now, later).1.Planned?
    ensures var target, tiers := Plan(cfg, s, spec, tag, skipped, now, later).1.target, ProfileOf(cfg, spec).tiers;
      && target.tier < |tiers|
      && (d in CandidatesOf(cfg, s, tiers, target.tier) && Dialable(cfg, s, d, skipped, now)
          && PinOf(s, tag, now) != Some(TargetId(cfg, target)) ==>
            exists c :: c in CandidatesOf(cfg, s, tiers, target.tier) && Dialable(cfg, s, c, skipped, now)
              && c.model == target.model && c.group == target.group && target.key in Sampled(c)
              && (InFlight(s, d) < InFlight(s, c) ==>
                    Strikes(s, d) >= Strikes(s, c) + 10 * (InFlight(s, c) - InFlight(s, d)))
              && (InFlight(s, d) == InFlight(s, c) ==> Strikes(s, c) <= Strikes(s, d))
              && (InFlight(s, d) == InFlight(s, c) && Strikes(s, d) == Strikes(s, c) ==> c.ordinal <= d.ordinal))
  {
    hide Plan, CandidatesOf, Dialable, NoHeavier, InFlight, Strikes, Sampled, PinOf;
    PicksTheLightest(cfg, s, spec, tag, skipped, now, later);
    var target, tiers := Plan(cfg, s, spec, tag, skipped, now, later).1.target, ProfileOf(cfg, spec).tiers;
    var cs, pin := CandidatesOf(cfg, s, tiers, target.tier), PinOf(s, tag, now);
    if d in cs && Dialable(cfg, s, d, skipped, now) && pin != Some(TargetId(cfg, target)) {
      var c :| c in cs && Dialable(cfg, s, c, skipped, now) && c.model == target.model && c.group == target.group
        && target.key in Sampled(c)
        && (pin == Some(CandidateId(cfg, c))
            || forall d :: d in cs && Dialable(cfg, s, d, skipped, now) ==>
                 && pin != Some(CandidateId(cfg, d)) && NoHeavier(s, c, d, false)
                 && (NoHeavier(s, d, c, false) ==> c.ordinal <= d.ordinal));
      LightestByCounters(s, c, d);
    }
  }
}
