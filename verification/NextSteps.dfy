/** What follows a failed reply, and what the client is told when nothing does. */
module NextSteps {
  import opened Options
  import opened Backoff
  import opened Routing
  import opened Planner
  import opened Runs
  import opened Failover
  import opened FailoverRuns
  import opened FailoverTheorems
  import opened KnownWaits
  import opened Outcomes
  import opened RequestOutcomes

  // --- the follow-up ------------------------------------------------------------------------------------

  /**
   * What follows a failure that is neither an exhaustion nor a 404, in terms of a plan without the failed identity and
   * without the session's pin: another route is dialed if there is one; a refusal is waited out if its wait is known
   * and within the client-facing limit; and only then is the same route dialed again, after its cooldown, if that is
   * within the limit too and a retry is left. Otherwise the request stops. Only this last resort uses up a retry.
   */
  lemma LastResortExactly(x: Setup, w: World, r: Reply, failed: RouteTarget, skipped: set<Identity>, cooldown: nat,
                          retries: nat, lag: nat)
    requires !r.QuotaSpent? && !r.Missing?
    ensures var tried := skipped + {IdentityOf(x.cfg, failed)};
            var unpinned := w.table.(affinity := map tag | tag in w.table.affinity && (tag != x.tag || Sessionless(tag))
                                                 :: w.table.affinity[tag]);
            var p := Plan(x.cfg, unpinned, x.spec, NO_SESSION, tried, w.clock, w.clock + lag).1;
            var (_, next, n) := Decision(x, w, r, failed, skipped, cooldown, retries, lag);
            var wait := if p.Planned? then p.nextAlternative else p.wait;
            var waits := p.Unavailable? && wait.Some? && wait.value <= x.cfg.retryAfterMax;
      if p.Planned? || waits then
        next == Again(if wait == None || wait == Some(0) then None else wait) && n == retries
      else if retries < x.budget.sameRouteRetries && cooldown <= x.cfg.retryAfterMax then
        next == Again(Some(cooldown)) && n == retries + 1
      else next == Stop && n == retries
  {
    hide Plan;
    var s := w.table;
    assert BreakAffinity(s, x.tag) == s.(affinity := map tag
      | tag in s.affinity && (tag != x.tag || Sessionless(tag)) :: s.affinity[tag]) by {
      UnpinnedPlainly(s, x.tag);
    }
  }

  lemma UnpinnedPlainly(s: Table, tag: string)
    ensures BreakAffinity(s, tag)
         == s.(affinity := map t | t in s.affinity && (t != tag || Sessionless(t)) :: s.affinity[t])
  {
    var kept := map t | t in s.affinity && (t != tag || Sessionless(t)) :: s.affinity[t];
    if Sessionless(tag) { assert kept == s.affinity; } else { assert kept == s.affinity - {tag}; }
  }

  // --- the last failure ---------------------------------------------------------------------------------

  /** The status a failed reply is reported with: the upstream's own where there is one to pass on. */
  function PassedOn(r: Reply): nat {
    match r
    case LimitReached(_) => 429
    case QuotaSpent(_) => 429
    case Unauthorized(status) => status
    case Forbidden(status) => status
    case Missing(status) => status
    case Invalid(status) => status
    case Unclassified(status) => status
    case Transient(status) => if status == 408 then 504 else status
    case FirstByteDeadline => 504
    case _ => 502
  }

  lemma ReportedPlainly(r: Reply, cooldown: nat)
    requires !Succeeds(r)
    ensures var e := ErrorFor(r, cooldown);
      && e.status == PassedOn(r)
      && e.retryAfter == (if r.LimitReached? || r.QuotaSpent? then Some(cooldown + 250) else None)
  {
  }

  /**
   * A request that gives up reports its own last reply. After a generic 429 the client is told to come back a quarter
   * second after the cooldown that was put on the route, and after an exhaustion a quarter second after the group's.
   */
  lemma ReportsItsLastReply(x: Setup, m: Moment, rounds: seq<Round>, r: Result, m': Moment)
    requires Story(x, m, rounds) && Ends(x, m, rounds, GaveUp, r, m') && m.own.None?
    ensures var rd := rounds[|rounds| - 1];
      && r.Reported? && r.error.status == PassedOn(rd.reply)
      && (rd.reply.LimitReached? || rd.reply.QuotaSpent? <==> r.error.retryAfter.Some?)
      && (rd.reply.LimitReached? && rd.target.key < |m.world.table.keys| ==>
            var route := RouteOf(rd.recorded.world.table, TargetId(x.cfg, rd.target));
            r.error.retryAfter.Some? && r.error.retryAfter.value >= 250
            && route.coolingUntil == Some(rd.recorded.world.clock + r.error.retryAfter.value - 250))
      && (rd.reply.QuotaSpent? ==>
            r.error.retryAfter.Some? && r.error.retryAfter.value >= 250
            && GroupOf(rd.recorded.world.table, rd.target.group)
                 == Some(rd.recorded.world.clock + r.error.retryAfter.value - 250))
  {
    hide Story, PlanStep, GateStep, TriedBy, FailedStep, DecideStep, Run, Spared, Runs.Step, Leads, ErrorFor;
    GaveUpMeans(x, m, rounds, r, m');
    LastRound(x, m, rounds);
    StoriesAreRuns(x, m, rounds);
    var n, rd := |rounds|, rounds[|rounds| - 1];
    var gated, retries := DialedFrom(x, m, rounds), RetriesSoFar(rounds[..n - 1]);
    var tried := TriedBy(x.cfg, rounds[..n - 1]) + {IdentityOf(x.cfg, rd.target)};
    ReportedPlainly(rd.reply, rd.cooldown);
    if rd.reply.LimitReached? && rd.target.key < |m.world.table.keys| {
      LimitedDial(x, m, gated, rd.target, tried, retries, n, rd);
    }
    if rd.reply.QuotaSpent? {
      var held := FailedDial(x, gated, rd.target, tried, retries, n, rd);
      FailureTakesOut(x, held, rd.reply, rd.target, n, rd.cooldown, rd.noRoutes, rd.recorded);
      SpentCooldown(x, held, rd.reply, rd.target, n, rd.cooldown, rd.noRoutes, rd.recorded);
    }
  }

  lemma SpentCooldown(x: Setup, m: Moment, r: Reply, t: RouteTarget, attempt: nat, cooldown: nat, noRoutes: bool,
                      m': Moment)
    requires FailedStep(x, m, r, t, attempt, cooldown, noRoutes, m') && r.QuotaSpent?
    ensures 1 <= cooldown <= MAX_ROUTE_WAIT
  {
    hide Recorded, Surveyed, BreakerAfter, Runs.Step;
  }

  /** The route of a dial that met a generic 429 cools from the instant it is recorded. */
  lemma LimitedDial(x: Setup, start: Moment, m: Moment, t: RouteTarget, skipped: set<Identity>, retries: nat,
                    attempt: nat, rd: Round)
    requires DialOk(x, m, t, skipped, retries, attempt, rd) && rd.reply.LimitReached? && m.own.None?
    requires Leads(x, PartOf(start), PartOf(m)) && t.key < |start.world.table.keys|
    ensures RouteOf(rd.recorded.world.table, TargetId(x.cfg, t)).coolingUntil
         == Some(rd.recorded.world.clock + rd.cooldown)
  {
    hide FailedStep, DecideStep, Disturbed, BeginStep, ReadStep, Leads, Run;
    var held := FailedDial(x, m, t, skipped, retries, attempt, rd);
    var begun := BeginStep(x, m, t);
    var answered := Disturbed(x, begun);
    BeginLeads(x, m, t);
    DisturbedLeads(x, begun);
    BegunHolds(x, m, t);
    DisturbedHolds(x, begun, t);
    ReadLeads(x, answered, rd.reply, t);
    DisturbedLeads(x, ReadStep(x, answered, rd.reply, t));
    KeysStayAlong(x, PartOf(start), PartOf(m), t.key);
    KeysStayAlong(x, PartOf(m), PartOf(begun), t.key);
    KeysStayAlong(x, PartOf(begun), PartOf(answered), t.key);
    KeysStayAlong(x, PartOf(answered), PartOf(ReadStep(x, answered, rd.reply, t)), t.key);
    KeysStayAlong(x, PartOf(ReadStep(x, answered, rd.reply, t)), PartOf(held), t.key);
    LimitCoolsTheRoute(x, held, rd.reply, t, attempt, rd.cooldown, rd.noRoutes, rd.recorded);
    FailureTakesOut(x, held, rd.reply, t, attempt, rd.cooldown, rd.noRoutes, rd.recorded);
  }

  // --- no route -------------------------------------------------------------------------------------------

  /** Everything untried in the tier is refused for a reason without a deadline. */
  ghost predicate NothingComesBackTo(cfg: Config, s: Table, tiers: seq<Tier>, t: nat, tried: set<Identity>, now: nat)
    requires t < |tiers|
  {
    forall c :: c in CandidatesOf(cfg, s, tiers, t) && AnyUnskipped(cfg, c, tried) ==>
      exists why :: Refuses(cfg, s, c, now, why) && DueAt(why).None?
  }

  /** The least known wait of the tiers that were scanned. */
  ghost predicate LeastScanned(cfg: Config, s: Table, tiers: seq<Tier>, tried: set<Identity>, now: nat, least: nat) {
    exists last :: 0 <= last <= |tiers| && EarliestReached(cfg, s, tiers, last, tried, now, Some(least))
  }

  lemma ScannedWait(cfg: Config, s: Table, p: Profile, ctx: PlanContext, later: nat, least: nat)
    requires Meaning(cfg, s, p, ctx, later, Unavailable(Some(least)))
    ensures LeastScanned(cfg, s, p.tiers, ctx.skipped, ctx.now, least)
  {
    hide EarliestReached, HasDialable, HasKnownWait, Reaches;
  }

  /**
   * Without a route the client is told 429 with the least known wait of the tiers that were scanned, capped, and a
   * quarter second; it is told 503 without a time only when every tier was scanned and everything untried is refused
   * for a reason that no time cures.
   */
  lemma NoRouteTellsTheClient(x: Setup, m: Moment, rounds: seq<Round>, wait: Option<nat>, r: Result, m': Moment)
    requires Ends(x, m, rounds, NoRoute(wait), r, m') && Known(x.cfg, x.spec)
    ensures var w, tried, tiers := Disturbed(x, Reached(m, rounds)).world, TriedBy(x.cfg, rounds),
                                   ProfileOf(x.cfg, x.spec).tiers;
      match wait
      case Some(least) =>
        && r == Reported(GatewayError(429, ErrorClass.RateLimited,
                                      Some(CapCooldown(least, x.cfg.retryAfterMax) + 250)))
        && LeastScanned(x.cfg, w.table, tiers, tried, w.clock, least)
      case None =>
        && r == Reported(GatewayError(503, Unknown, None))
        && forall t :: 0 <= t < |tiers| ==> NothingComesBackTo(x.cfg, w.table, tiers, t, tried, w.clock)
  {
    hide Plan, GateStep, TriedBy, Run, Runs.Step, Meaning, NothingComesBackTo, LeastScanned, Disturbed, AffinityRoute;
    var d := Disturbed(x, Reached(m, rounds));
    var w, tried := d.world, TriedBy(x.cfg, rounds);
    PlanMeans(x.cfg, w.table, x.spec, x.tag, tried, w.clock, w.clock + x.env.lag(d.tick));
    var p, ctx := ProfileOf(x.cfg, x.spec), ContextOf(x.cfg, w.table, x.spec, x.tag, tried, w.clock);
    match wait
    case None => NoTimeCures(x.cfg, w.table, p, ctx, w.clock + x.env.lag(d.tick));
    case Some(least) => ScannedWait(x.cfg, w.table, p, ctx, w.clock + x.env.lag(d.tick), least);
  }

  lemma NoTimeCures(cfg: Config, s: Table, p: Profile, ctx: PlanContext, later: nat)
    requires Meaning(cfg, s, p, ctx, later, Unavailable(None))
    ensures forall t :: 0 <= t < |p.tiers| ==> NothingComesBackTo(cfg, s, p.tiers, t, ctx.skipped, ctx.now)
  {
    hide CandidatesOf, KnownWait, Refuses, AnyUnskipped, Judge, Reaches;
    var last :| 0 <= last <= |p.tiers| && EarliestReached(cfg, s, p.tiers, last, ctx.skipped, ctx.now, None)
      && (forall t :: 0 <= t < last ==> !HasDialable(cfg, s, p.tiers, t, ctx.skipped, ctx.now))
      && (last < |p.tiers| ==>
            last > 0 && !p.allowLowerTier && Reaches(cfg, s, p, last - 1, ctx.skipped, ctx.now)
            && HasKnownWait(cfg, s, p.tiers, last - 1, ctx.skipped, ctx.now));
    assert last == |p.tiers|;
    forall t | 0 <= t < |p.tiers| ensures NothingComesBackTo(cfg, s, p.tiers, t, ctx.skipped, ctx.now) {
      forall c | c in CandidatesOf(cfg, s, p.tiers, t) && AnyUnskipped(cfg, c, ctx.skipped)
        ensures exists why :: Refuses(cfg, s, c, ctx.now, why) && DueAt(why).None?
      {
        assert !HasDialable(cfg, s, p.tiers, t, ctx.skipped, ctx.now);
        WaitIsTheDeadline(cfg, s, c, ctx.skipped, ctx.now);
      }
    }
  }
}
