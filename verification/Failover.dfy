/** One logical request: a bounded loop of routed attempts over a table and a breaker shared with other requests. */
module Failover {
  import opened Options
  import opened Backoff
  import opened Routing
  import opened Runs
  import opened RunInvariants
  import opened Readiness
  import opened RouteTables
  import CB = CircuitBreakers

  datatype ErrorClass =
    | RateLimited | QuotaExhausted | Authentication | Permission | NotFound | ServerTransient
    | QueueTimeout | TransportTransient | Unknown | InvalidRequest

  /** `fallback`: the upstream gave no usable hint, so the duration is only the configured default. */
  datatype Hint = Hint(duration: nat, fallback: bool)

  /** What one dialed attempt came back with, before the first byte reached the client. */
  datatype Reply =
    | Streaming | Json(valid: bool)
    | NoConnection(timedOut: bool) | NoFirstByte(timedOut: bool) | FirstByteDeadline
    | LimitReached(hint: Hint) | QuotaSpent(hint: Hint)
    | Unauthorized(status: nat) | Forbidden(status: nat) | Missing(status: nat)
    | Transient(status: nat) | Invalid(status: nat) | Unclassified(status: nat)

  datatype GatewayError = GatewayError(status: nat, kind: ErrorClass, retryAfter: Option<nat>)
  datatype Result = Answered(target: RouteTarget, attempt: nat) | Reported(error: GatewayError)

  /** Which exit of the loop a request took. */
  datatype Ending =
    | Won | GaveUp | NoRoute(wait: Option<nat>) | BreakerRefused(remaining: nat) | BadBody | BudgetSpentAtHead

  predicate Succeeds(r: Reply) {
    r.Streaming? || (r.Json? && r.valid)
  }

  function ClassOf(r: Reply): ErrorClass {
    match r
    case NoConnection(timedOut) => if timedOut then QueueTimeout else TransportTransient
    case NoFirstByte(timedOut) => if timedOut then QueueTimeout else TransportTransient
    case FirstByteDeadline => QueueTimeout
    case LimitReached(_) => ErrorClass.RateLimited
    case QuotaSpent(_) => ErrorClass.QuotaExhausted
    case Unauthorized(_) => Authentication
    case Forbidden(_) => Permission
    case Missing(_) => NotFound
    case Transient(status) => if status == 408 then QueueTimeout else ServerTransient
    case Invalid(_) => InvalidRequest
    case Unclassified(_) => Unknown
    case _ => ServerTransient
  }

  function StatusOf(r: Reply): nat {
    match r
    case FirstByteDeadline => 504
    case LimitReached(_) => 429
    case QuotaSpent(_) => 429
    case Transient(status) => if status == 408 then 504 else status
    case Unauthorized(status) => status
    case Forbidden(status) => status
    case Missing(status) => status
    case Invalid(status) => status
    case Unclassified(status) => status
    case _ => 502
  }

  /** A generic 429 says nothing about the upstream as a whole; an exhausted quota only when no route is left. */
  function BreakerAfter(b: CB.Breaker, r: Reply, now: nat, limits: CB.Limits, noRoutes: bool,
                        cooldown: nat): CB.Breaker {
    match r
    case LimitReached(_) => b
    case QuotaSpent(_) => if noRoutes then CB.Exhaust(b, cooldown, now) else b
    case Unauthorized(_) => CB.Neutral(b)
    case Forbidden(_) => CB.Neutral(b)
    case Missing(_) => CB.Neutral(b)
    case Invalid(_) => CB.Neutral(b)
    case Unclassified(_) => CB.Neutral(b)
    case _ => if Succeeds(r) then CB.Succeed(b) else CB.Overloaded(b, now, limits)
  }

  function ErrorFor(r: Reply, cooldown: nat): GatewayError {
    GatewayError(StatusOf(r), ClassOf(r),
                 if r.LimitReached? || r.QuotaSpent? then Some(RetryAfterFor(cooldown)) else None)
  }

  function RouteUnavailable(wait: Option<nat>, retryAfterMax: nat): GatewayError {
    match wait
    case Some(w) => GatewayError(429, ErrorClass.RateLimited, Some(RetryAfterFor(CapCooldown(w, retryAfterMax))))
    case None => GatewayError(503, Unknown, None)
  }

  /** Replies that count as an overload of the whole upstream. */
  predicate Strained(r: Reply) {
    r.NoConnection? || r.NoFirstByte? || r.FirstByteDeadline? || r.Transient? || (r.Json? && !r.valid)
  }

  /** Replies after which the request may be routed again. */
  predicate Retryable(r: Reply, attempt: nat, budget: nat) {
    !Succeeds(r) && !r.Unclassified? && attempt < budget
  }

  /** Continue after an optional sleep, or stop. */
  datatype Next = Stop | Again(sleep: Option<nat>)

  function NextAfter(f: FollowupResult, retries: nat, retryLimit: nat, cooldown: nat, retryAfterMax: nat): (Next, nat) {
    match f
    case Continue(wait, _) => (Again(if wait > 0 then Some(wait) else None), retries)
    case Return =>
      if retries >= retryLimit || cooldown > retryAfterMax then (Stop, retries)
      else (Again(Some(cooldown)), retries + 1)
  }

  // --- what the request does not decide ----------------------------------------------------------

  /**
   * By step: what other requests do to the table, in whose steps time passes, what they leave the breaker in, the
   * upstream's replies, the jitter, and how long planning takes.
   */
  datatype Environment = Environment(
    others: nat -> seq<Event>, breakers: nat -> Option<CB.Breaker>, replies: nat -> Reply,
    jitter: nat -> real, latency: nat -> nat, lag: nat -> nat, bodyIsObject: bool)

  datatype Budget = Budget(attempts: nat, sameRouteRetries: nat, maxQuotaCooldown: nat)

  /** One request: the configuration, its surroundings, and what it asks for. */
  datatype Setup = Setup(cfg: Config, env: Environment, budget: Budget, limits: CB.Limits, spec: RouteSpec, tag: string)

  /** The shared world and the breaker at a step, and the request's own guard while it holds one. */
  datatype Moment = Moment(world: World, breaker: CB.Breaker, tick: nat, own: Option<nat>)

  /** The guard a step acts through, or in whose name a streak is read. */
  function Handle(e: Event): Option<nat> {
    match e
    case Released(id) => Some(id)
    case Dropped(id) => Some(id)
    case StreakRead(reader, _) => Some(reader)
    case _ => None
  }

  /** Other requests have no handle on this request's guard, nor on the streak it has read. */
  predicate Touches(e: Event, own: Option<nat>) {
    own.Some? && Handle(e) == own
  }

  function Spared(es: seq<Event>, own: Option<nat>): seq<Event> {
    if es == [] then []
    else Spared(es[..|es| - 1], own) + (if Touches(es[|es| - 1], own) then [] else [es[|es| - 1]])
  }

  /** Other requests act on the table and the breaker. */
  function Disturbed(x: Setup, m: Moment): Moment {
    var tick := m.tick + 1;
    Moment(Run(x.cfg, m.world, Spared(x.env.others(tick), m.own)),
           if x.env.breakers(tick).Some? then x.env.breakers(tick).value else m.breaker, tick, m.own)
  }

  // --- the steps of one attempt ------------------------------------------------------------------

  /** One of the request's own steps on the table. */
  function Does(x: Setup, m: Moment, e: Event): Moment {
    m.(world := Runs.Step(x.cfg, m.world, e))
  }

  function PlanStep(x: Setup, m: Moment, skipped: set<Identity>): (Moment, PlanResult) {
    var d := Disturbed(x, m);
    var now, lag := d.world.clock, x.env.lag(d.tick);
    (Does(x, d, Event.Planned(0, lag, x.spec, x.tag, skipped)),
     Plan(x.cfg, d.world.table, x.spec, x.tag, skipped, now, now + lag).1)
  }

  function GateStep(x: Setup, m: Moment): (Moment, CB.Admission) {
    var d := Disturbed(x, m);
    var (b, a) := CB.AdmitAt(d.breaker, d.world.clock);
    (d.(breaker := b), a)
  }

  function BeginStep(x: Setup, m: Moment, t: RouteTarget): Moment {
    var d := Disturbed(x, m);
    Does(x, d, Began(t)).(own := Some(d.world.nextId))
  }

  /** The request's guard; it also names what the request has read. */
  function OwnId(m: Moment): nat {
    match m.own
    case Some(id) => id
    case None => 0
  }

  /** A generic 429 without an authoritative hint climbs from the key's streak, which is read before it is written. */
  function ReadStep(x: Setup, m: Moment, r: Reply, t: RouteTarget): Moment {
    if r.LimitReached? && r.hint.fallback then Does(x, m, StreakRead(OwnId(m), t)) else m
  }

  /** The run event a reply amounts to; some replies leave the table alone. */
  function EventFor(x: Setup, r: Reply, t: RouteTarget, attempt: nat, jitter: real, reader: nat): Option<Event> {
    match r
    case LimitReached(hint) =>
      Some(Event.RateLimited(0, reader, t, attempt, if hint.fallback then None else Some(hint.duration), jitter))
    case QuotaSpent(hint) => Some(Event.QuotaExhausted(0, t, CapCooldown(hint.duration, x.budget.maxQuotaCooldown)))
    case Unauthorized(_) => Some(Event.Rejected(t))
    case Forbidden(_) => None
    case Missing(_) => Some(Event.Missing(0, t))
    case Unclassified(_) => None
    case _ => Some(Event.Transient(0, t, attempt, None, jitter))
  }

  /** A 400 with no budget left, and an unclassified error, are only reported. */
  predicate OnlyReported(x: Setup, r: Reply, attempt: nat) {
    r.Unclassified? || (r.Invalid? && attempt >= x.budget.attempts)
  }

  function Unpin(x: Setup, w: World): World {
    Runs.Step(x.cfg, w, Repinned(BreakAffinity(w.table, x.tag).affinity))
  }

  /** What recording the reply leaves. */
  function Recorded(x: Setup, w: World, r: Reply, t: RouteTarget, attempt: nat, jitter: real, reader: nat): World {
    if OnlyReported(x, r, attempt) then w
    else
      match EventFor(x, r, t, attempt, jitter, reader)
      case None => Unpin(x, w)
      case Some(e) => Unpin(x, Runs.Step(x.cfg, w, e))
  }

  /** The cooldown that the follow-up decision is given. */
  function CooldownAfter(x: Setup, r: Reply, t: RouteTarget, attempt: nat, streak: nat, jitter: real): nat {
    match r
    case LimitReached(hint) =>
      if hint.fallback then RateLimitCooldown(x.cfg, attempt, streak, None, jitter)
      else RateLimitCooldown(x.cfg, attempt, 0, Some(hint.duration), jitter)
    case QuotaSpent(hint) => CapCooldown(hint.duration, x.budget.maxQuotaCooldown)
    case Unauthorized(_) => 0
    case Forbidden(_) => 0
    case Missing(_) => 1000
    case Unclassified(_) => 0
    case _ => TransientCooldown(x.cfg, t, attempt, None, jitter)
  }

  /** Counting the usable routes after a quota exhaustion checks them one by one; nothing else is looked at. */
  ghost predicate Surveyed(x: Setup, r: Reply, w: World, w': World) {
    if r.QuotaSpent? then exists cs :: w' == w.(table := DialAll(x.cfg, w.table, cs, w.clock))
    else w' == w
  }

  /** A failure: recorded on table and breaker while the guard is held, then the guard dropped with its probe. */
  ghost predicate FailedStep(x: Setup, m: Moment, r: Reply, t: RouteTarget, attempt: nat, cooldown: nat, noRoutes: bool,
                             m': Moment)
  {
    var now, jitter, id := m.world.clock, x.env.jitter(m.tick), OwnId(m);
    var w := Recorded(x, m.world, r, t, attempt, jitter, id);
    && m'.tick == m.tick && m'.own == None
    && (exists w' :: Surveyed(x, r, w, w') && m'.world == Runs.Step(x.cfg, w', Dropped(id)))
    && (!OnlyReported(x, r, attempt) ==>
          cooldown == CooldownAfter(x, r, t, attempt, StreakFor(m.world, id, None), jitter))
    && m'.breaker == BreakerAfter(m.breaker, r, now, x.limits, noRoutes, cooldown)
    && (r.QuotaSpent? && UsableRoutes(x.cfg, w.table, now) == {} ==> noRoutes)
    && (r.QuotaSpent? && HashesApart(x.cfg) && noRoutes ==> UsableRoutes(x.cfg, w.table, now) == {})
  }

  /** The session pins after a success; only a first attempt adds one. */
  ghost predicate Pinned(x: Setup, before: map<string, AffinityEntry>, t: RouteTarget, attempt: nat, now: nat,
                         after: map<string, AffinityEntry>)
  {
    if attempt != 1 || x.cfg.softAffinity == 0 || Sessionless(x.tag) then after == before
    else
      exists kept :: RouteTable.RoomMade(RouteTable.Unexpired(before, now), kept, x.tag, x.cfg.maxAffinityEntries)
        && after == kept[x.tag := AffinityEntry(TargetId(x.cfg, t), now + x.cfg.softAffinity)]
  }

  /** The probe is given back, and then the guard. */
  function GivenBack(x: Setup, w: World, id: nat): World {
    Runs.Step(x.cfg, Runs.Step(x.cfg, w, Released(id)), Dropped(id))
  }

  /** A success: recorded, the session pinned, the breaker closed, the probe released and the guard dropped. */
  ghost predicate ServedStep(x: Setup, m: Moment, t: RouteTarget, attempt: nat, m': Moment) {
    var noted := Runs.Step(x.cfg, m.world, Event.Served(t, x.env.latency(m.tick)));
    && m'.tick == m.tick && m'.own == None && m'.breaker == CB.Succeed(m.breaker)
    && exists pins :: Pinned(x, noted.table.affinity, t, attempt, m.world.clock, pins)
         && m'.world == GivenBack(x, Runs.Step(x.cfg, noted, Repinned(pins)), OwnId(m))
  }

  /** The follow-up of a reply's class: a plan for another group, one for another route, or the general follow-up. */
  function Decision(x: Setup, w: World, r: Reply, failed: RouteTarget, skipped: set<Identity>, cooldown: nat,
                    retries: nat, lag: nat): (Event, Next, nat)
  {
    var s, now, later := w.table, w.clock, w.clock + lag;
    if r.QuotaSpent? then
      var tried := skipped + {IdentityOf(x.cfg, failed)};
      var p := Plan(x.cfg, s, x.spec, x.tag, tried, now, later).1;
      (Event.Planned(0, lag, x.spec, x.tag, tried),
       if p.Planned? && p.target.group != failed.group then Again(None) else Stop, retries)
    else if r.Missing? then
      var p := Plan(x.cfg, s, x.spec, x.tag, skipped, now, later).1;
      var other := p.Planned? && IdentityOf(x.cfg, p.target) != IdentityOf(x.cfg, failed);
      (Event.Planned(0, lag, x.spec, x.tag, skipped), if other then Again(None) else Stop, retries)
    else
      var f := Followup(x.cfg, s, x.spec, x.tag, failed, skipped, now, later).1;
      var (next, n) := NextAfter(f, retries, x.budget.sameRouteRetries, cooldown, x.cfg.retryAfterMax);
      (FollowedUp(0, lag, x.spec, x.tag, failed, skipped), next, n)
  }

  function DecideStep(x: Setup, m: Moment, r: Reply, failed: RouteTarget, skipped: set<Identity>, attempt: nat,
                      cooldown: nat, retries: nat): (Moment, Next, nat)
  {
    var d := Disturbed(x, m);
    if r.Unclassified? || attempt >= x.budget.attempts then (d, Stop, retries)
    else
      var (e, next, n) := Decision(x, d.world, r, failed, skipped, cooldown, retries, x.env.lag(d.tick));
      (Does(x, d, e), next, n)
  }

  // --- the whole request -------------------------------------------------------------------------

  /** One attempt as it went: what was dialed, what came back, what it did, and what was decided. */
  datatype Round = Round(target: RouteTarget, reply: Reply, cooldown: nat, noRoutes: bool, recorded: Moment,
                         next: Next, retries: nat, end: Moment)

  /** From the breaker's admission on: the guard is taken, the reply comes in, and the attempt is served or failed. */
  ghost predicate DialOk(x: Setup, m: Moment, t: RouteTarget, skipped: set<Identity>, retries: nat, attempt: nat,
                         rd: Round)
  {
    var answered := Disturbed(x, BeginStep(x, m, t));
    && rd.target == t && rd.reply == x.env.replies(answered.tick)
    && if Succeeds(rd.reply) then
         ServedStep(x, answered, t, attempt, rd.end) && rd.next == Stop && rd.retries == retries
       else
         && FailedStep(x, Disturbed(x, ReadStep(x, answered, rd.reply, t)), rd.reply, t, attempt,
                       rd.cooldown, rd.noRoutes, rd.recorded)
         && (rd.end, rd.next, rd.retries) ==
              DecideStep(x, rd.recorded, rd.reply, t, skipped, attempt, rd.cooldown, retries)
  }

  /** A round within the budget: a route is planned, the breaker admits it, and it is dialed. */
  ghost predicate RoundOk(x: Setup, m: Moment, skipped: set<Identity>, retries: nat, attempt: nat, rd: Round) {
    var (planned, plan) := PlanStep(x, m, skipped);
    var (gated, gate) := GateStep(x, planned);
    && attempt <= x.budget.attempts && plan.Planned? && gate.Allowed? && x.env.bodyIsObject
    && DialOk(x, gated, plan.target, skipped + {IdentityOf(x.cfg, plan.target)}, retries, attempt, rd)
  }

  function TriedBy(cfg: Config, rounds: seq<Round>): set<Identity> {
    set rd | rd in rounds :: IdentityOf(cfg, rd.target)
  }

  function Reached(m: Moment, rounds: seq<Round>): Moment {
    if rounds == [] then m else rounds[|rounds| - 1].end
  }

  function RetriesSoFar(rounds: seq<Round>): nat {
    if rounds == [] then 0 else rounds[|rounds| - 1].retries
  }

  predicate GoesOn(rounds: seq<Round>) {
    rounds == [] || rounds[|rounds| - 1].next.Again?
  }

  /** Rounds that follow on one another from a moment, each skipping every identity dialed before it. */
  ghost predicate Story(x: Setup, m: Moment, rounds: seq<Round>)
    decreases |rounds|
  {
    rounds == [] ||
    var before := rounds[..|rounds| - 1];
    && Story(x, m, before) && GoesOn(before)
    && RoundOk(x, Reached(m, before), TriedBy(x.cfg, before), RetriesSoFar(before), |rounds|, rounds[|rounds| - 1])
  }

  /** How the request ends after its rounds, what the caller gets, and the moment it leaves behind. */
  ghost predicate Ends(x: Setup, m: Moment, rounds: seq<Round>, ending: Ending, r: Result, m': Moment) {
    var n, at := |rounds|, Reached(m, rounds);
    var (planned, plan) := PlanStep(x, at, TriedBy(x.cfg, rounds));
    var (gated, gate) := GateStep(x, planned);
    match ending
    case Won => n > 0 && Succeeds(rounds[n - 1].reply) && r == Answered(rounds[n - 1].target, n) && m' == at
    case GaveUp =>
      && n > 0 && !Succeeds(rounds[n - 1].reply) && rounds[n - 1].next == Stop
      && r == Reported(ErrorFor(rounds[n - 1].reply, rounds[n - 1].cooldown)) && m' == at
    case BudgetSpentAtHead => GoesOn(rounds) && n >= x.budget.attempts && r == LastError(rounds) && m' == at
    case NoRoute(wait) =>
      && GoesOn(rounds) && n < x.budget.attempts && plan == Unavailable(wait)
      && r == Reported(RouteUnavailable(wait, x.cfg.retryAfterMax)) && m' == planned
    case BreakerRefused(remaining) =>
      && GoesOn(rounds) && n < x.budget.attempts && plan.Planned? && gate.Refused? && gate.remaining == remaining
      && r == Reported(GatewayError(429, ErrorClass.RateLimited, Some(remaining))) && m' == gated
    case BadBody =>
      && GoesOn(rounds) && n < x.budget.attempts && plan.Planned? && gate.Allowed? && !x.env.bodyIsObject
      && r == Reported(GatewayError(400, InvalidRequest, None)) && m' == gated
  }

  function LastError(rounds: seq<Round>): Result {
    var n := |rounds|;
    Reported(if n == 0 then GatewayError(429, ErrorClass.RateLimited, None)
             else ErrorFor(rounds[n - 1].reply, rounds[n - 1].cooldown))
  }

  class Core {
    const routes: RouteTable
    const circuit: CB.CircuitBreaker
    const budget: Budget
    const env: Environment
    /** The surroundings: whose guards are out, what was read, and the time; its table is the shared one. */
    var world: World
    /** How often other requests have acted. */
    var tick: nat
    var own: Option<nat>

    constructor (routes: RouteTable, circuit: CB.CircuitBreaker, budget: Budget, env: Environment, world: World)
      ensures this.routes == routes && this.circuit == circuit && this.budget == budget && this.env == env
      ensures this.world == world && tick == 0 && own == None
    {
      this.routes, this.circuit, this.budget, this.env, this.world := routes, circuit, budget, env, world;
      tick, own := 0, None;
    }

    function Shared(): World
      reads this, routes
    {
      world.(table := routes.State(), opens := routes.circuitOpens)
    }

    function Now(): Moment
      reads this, routes, circuit
    {
      Moment(Shared(), circuit.Now(), tick, own)
    }

    function Asks(spec: RouteSpec, tag: string): Setup {
      Setup(routes.cfg, env, budget, circuit.limits, spec, tag)
    }

    /** The guard this request holds is the one the surroundings know of. */
    predicate Holds(guard: InflightGuard)
      reads this, guard
    {
      && guard.live && guard.table == routes && own.Some? && own.value in world.guards && own.value < world.nextId
      && world.guards[own.value] == Guard(guard.index, guard.model, guard.holdsProbe)
    }

    /** The shared table and its counter become what a world says they are; the guards handed out stay. */
    method BringAbout(w: World)
      modifies this`world, routes`keys, routes`routes, routes`models, routes`groups, routes`affinity
      modifies routes`rotation, routes`circuitOpens
      ensures world == w && Shared() == w
    {
      world := w;
      var s := w.table;
      routes.keys, routes.routes, routes.models, routes.groups := s.keys, s.routes, s.models, s.groups;
      routes.affinity, routes.rotation, routes.circuitOpens := s.affinity, s.rotation, w.opens;
      assert routes.State() == s;
    }

    method BreakerLeft(b: CB.Breaker)
      modifies circuit
      ensures circuit.Now() == b
    {
      circuit.state, circuit.openUntil, circuit.reason := b.state, b.openUntil, b.reason;
      circuit.overloads, circuit.probeInFlight := b.overloads, b.probeInFlight;
    }

    method Others(x: Setup)
      requires x.cfg == routes.cfg && x.env == env
      modifies this`tick, this`world, routes, circuit
      ensures Now() == Disturbed(x, old(Now())) && routes.guards == old(routes.guards)
      ensures own.Some? && own.value in old(world.guards) && own.value < old(world.nextId) ==>
        own.value in world.guards && own.value < world.nextId
        && world.guards[own.value] == old(world.guards[own.value])
        && StreakFor(world, own.value, None) == old(StreakFor(world, own.value, None))
    {
      hide Run, Spared, StreakFor;
      tick := tick + 1;
      ghost var before := Shared();
      if own.Some? && own.value in world.guards && own.value < world.nextId {
        SparedKeepsOwn(routes.cfg, before, env.others(tick), own.value);
        SameReading(world, before, own.value);
      }
      var after := Run(routes.cfg, Shared(), Spared(env.others(tick), own));
      BringAbout(after);
      if env.breakers(tick).Some? { BreakerLeft(env.breakers(tick).value); }
    }

    method PlanRoute(x: Setup, skipped: set<Identity>) returns (r: PlanResult)
      requires x.cfg == routes.cfg && x.env == env
      modifies this`tick, this`world, routes, circuit
      ensures (Now(), r) == PlanStep(x, old(Now()), skipped) && routes.guards == old(routes.guards)
    {
      hide Plan, Run;
      Others(x);
      r := routes.Plan(x.spec, x.tag, skipped, world.clock, world.clock + env.lag(tick));
      world := world.(clock := world.clock + env.lag(tick));
    }

    method AskBreaker(x: Setup) returns (a: CB.Admission)
      requires x.cfg == routes.cfg && x.env == env
      modifies this`tick, this`world, routes, circuit
      ensures (Now(), a) == GateStep(x, old(Now())) && routes.guards == old(routes.guards)
    {
      hide Run;
      Others(x);
      a := circuit.Admit(world.clock);
    }

    method TakeGuard(x: Setup, t: RouteTarget) returns (guard: InflightGuard)
      requires x.cfg == routes.cfg && x.env == env
      modifies this, routes, circuit
      ensures Now() == BeginStep(x, old(Now()), t) && Holds(guard)
      ensures fresh(guard) && guard.index == t.key && guard.model == t.model
      ensures routes.guards == old(routes.guards) + {guard}
    {
      hide Run, BeginAttempt;
      Others(x);
      guard := routes.BeginAttempt(t);
      own := Some(world.nextId);
      var held := Guard(guard.index, guard.model, guard.holdsProbe);
      world := world.(guards := world.guards[world.nextId := held], nextId := world.nextId + 1);
    }

    method DropOwn(x: Setup, guard: InflightGuard)
      requires x.cfg == routes.cfg && Holds(guard)
      modifies this`world, this`own, routes, guard
      ensures Now() == Does(x, old(Now()), Dropped(OwnId(old(Now())))).(own := None)
      ensures !guard.live && routes.guards == old(routes.guards) - {guard}
    {
      hide DropGuard;
      guard.Drop();
      world := world.(guards := world.guards - {own.value});
      own := None;
    }

    method ReleaseOwn(x: Setup, guard: InflightGuard)
      requires x.cfg == routes.cfg && Holds(guard)
      modifies this`world, routes`models, guard`holdsProbe
      ensures Now() == Does(x, old(Now()), Released(OwnId(old(Now())))) && Holds(guard)
    {
      hide ReleaseModelProbe;
      guard.ReleaseProbe();
      world := world.(guards := world.guards[own.value := world.guards[own.value].(holdsProbe := false)]);
    }

    /** Whether another attempt is worth making: another route first, the same route only as a bounded last resort. */
    method NextAttempt(x: Setup, failed: RouteTarget, skipped: set<Identity>, attempt: nat, cooldown: nat, retries: nat,
                       now: nat, later: nat) returns (next: Next, retries': nat)
      requires x.cfg == routes.cfg && x.budget == budget
      modifies routes`keys, routes`routes, routes`models, routes`groups, routes`affinity, routes`rotation
      ensures if attempt >= budget.attempts then
          next == Stop && retries' == retries && routes.State() == old(routes.State())
        else
          var (s, f) := Followup(x.cfg, old(routes.State()), x.spec, x.tag, failed, skipped, now, later);
          routes.State() == s &&
          (next, retries') == NextAfter(f, retries, budget.sameRouteRetries, cooldown, x.cfg.retryAfterMax)
    {
      hide Followup;
      retries' := retries;
      if attempt >= budget.attempts { return Stop, retries'; }
      var f := routes.FollowUp(x.spec, x.tag, failed, skipped, now, later);
      match f
      case Continue(wait, _) => next := Again(if wait > 0 then Some(wait) else None);
      case Return =>
        if retries >= budget.sameRouteRetries || cooldown > routes.cfg.retryAfterMax { return Stop, retries'; }
        retries' := retries + 1;
        next := Again(Some(cooldown));
    }

    /** After explicit quota exhaustion only another quota group may be tried. */
    method NextAttemptGroup(x: Setup, failed: RouteTarget, skipped: set<Identity>, attempt: nat, now: nat, later: nat)
      returns (next: Next)
      requires x.cfg == routes.cfg && x.budget == budget
      modifies routes`keys, routes`routes, routes`models, routes`groups, routes`affinity, routes`rotation
      ensures if attempt >= budget.attempts then next == Stop && routes.State() == old(routes.State())
        else
          var tried := skipped + {IdentityOf(x.cfg, failed)};
          var (s, p) := Plan(x.cfg, old(routes.State()), x.spec, x.tag, tried, now, later);
          routes.State() == s && next == if p.Planned? && p.target.group != failed.group then Again(None) else Stop
    {
      hide Plan;
      if attempt >= budget.attempts { return Stop; }
      var p := routes.Plan(x.spec, x.tag, skipped + {IdentityOf(routes.cfg, failed)}, now, later);
      next := if p.Planned? && p.target.group != failed.group then Again(None) else Stop;
    }

    /** After a 404 any other route may be tried, of the same model or of another. */
    method NextAttemptModel(x: Setup, failed: RouteTarget, skipped: set<Identity>, attempt: nat, now: nat, later: nat)
      returns (next: Next)
      requires x.cfg == routes.cfg && x.budget == budget
      modifies routes`keys, routes`routes, routes`models, routes`groups, routes`affinity, routes`rotation
      ensures if attempt >= budget.attempts then next == Stop && routes.State() == old(routes.State())
        else
          var (s, p) := Plan(x.cfg, old(routes.State()), x.spec, x.tag, skipped, now, later);
          var other := p.Planned? && IdentityOf(x.cfg, p.target) != IdentityOf(x.cfg, failed);
          routes.State() == s && next == if other then Again(None) else Stop
    {
      hide Plan;
      if attempt >= budget.attempts { return Stop; }
      var p := routes.Plan(x.spec, x.tag, skipped, now, later);
      var other := p.Planned? && IdentityOf(routes.cfg, p.target) != IdentityOf(routes.cfg, failed);
      next := if other then Again(None) else Stop;
    }

    /** What the reply's class allows next. */
    method Decide(x: Setup, reply: Reply, failed: RouteTarget, skipped: set<Identity>, attempt: nat, cooldown: nat,
                  retries: nat) returns (next: Next, retries': nat)
      requires x.cfg == routes.cfg && x.env == env && x.budget == budget
      modifies this`tick, this`world, routes, circuit
      ensures (Now(), next, retries') == DecideStep(x, old(Now()), reply, failed, skipped, attempt, cooldown, retries)
      ensures routes.guards == old(routes.guards)
    {
      hide Plan, Followup, Run;
      next, retries' := Stop, retries;
      Others(x);
      if reply.Unclassified? || (reply.Invalid? && attempt >= budget.attempts) { return; }
      var now, later := world.clock, world.clock + env.lag(tick);
      if reply.QuotaSpent? {
        next := NextAttemptGroup(x, failed, skipped, attempt, now, later);
      } else if reply.Missing? {
        next := NextAttemptModel(x, failed, skipped, attempt, now, later);
      } else {
        next, retries' := NextAttempt(x, failed, skipped, attempt, cooldown, retries, now, later);
      }
      if attempt < budget.attempts { world := world.(clock := later); }
    }

    /** After a failure the session is no longer pinned. */
    method DropSession(x: Setup)
      requires x.cfg == routes.cfg
      modifies routes`affinity
      ensures Shared() == Unpin(x, old(Shared()))
    {
      routes.DropAffinity(x.tag);
    }

    method RecordLimit(x: Setup, hint: Hint, t: RouteTarget, attempt: nat, streak: nat, jitter: real)
      returns (cooldown: nat)
      requires x.cfg == routes.cfg && streak == if hint.fallback then StreakFor(world, OwnId(Now()), None) else 0
      modifies routes
      ensures Shared() == Recorded(x, old(Shared()), LimitReached(hint), t, attempt, jitter, OwnId(old(Now())))
      ensures cooldown == CooldownAfter(x, LimitReached(hint), t, attempt, streak, jitter)
      ensures routes.guards == old(routes.guards)
    {
      hide NoteRateLimited, RateLimitCooldown, FailTransition;
      var duration := if hint.fallback then None else Some(hint.duration);
      ghost var start, e := Shared(), Event.RateLimited(0, OwnId(Now()), t, attempt, duration, jitter);
      cooldown := routes.NoteRateLimited(t, attempt, streak, duration, jitter, world.clock);
      assert Shared() == Runs.Step(x.cfg, start, e);
      hide Runs.Step;
      DropSession(x);
    }

    method ExhaustGroup(x: Setup, hint: Hint, t: RouteTarget, attempt: nat, jitter: real) returns (cooldown: nat)
      requires x.cfg == routes.cfg && x.budget == budget
      modifies routes
      ensures cooldown == CapCooldown(hint.duration, budget.maxQuotaCooldown)
      ensures Shared() == Recorded(x, old(Shared()), QuotaSpent(hint), t, attempt, jitter, OwnId(old(Now())))
      ensures routes.guards == old(routes.guards)
    {
      hide NoteQuotaExhausted;
      ghost var start := Shared();
      cooldown := CapCooldown(hint.duration, budget.maxQuotaCooldown);
      routes.NoteQuotaExhausted(t, cooldown, world.clock);
      assert Shared() == Runs.Step(x.cfg, start, Event.QuotaExhausted(0, t, cooldown));
      hide Runs.Step;
      DropSession(x);
    }

    method RecordQuota(x: Setup, hint: Hint, t: RouteTarget, attempt: nat, jitter: real)
      returns (cooldown: nat, noRoutes: bool)
      requires x.cfg == routes.cfg && x.budget == budget
      modifies routes, circuit
      ensures cooldown == CapCooldown(hint.duration, budget.maxQuotaCooldown)
      ensures var r, now := QuotaSpent(hint), world.clock;
              var w := Recorded(x, old(Shared()), r, t, attempt, jitter, OwnId(old(Now())));
        && Surveyed(x, r, w, Shared())
        && (UsableRoutes(x.cfg, w.table, now) == {} ==> noRoutes)
        && (HashesApart(x.cfg) && noRoutes ==> UsableRoutes(x.cfg, w.table, now) == {})
      ensures circuit.Now() ==
        if noRoutes then CB.Exhaust(old(circuit.Now()), cooldown, world.clock) else old(circuit.Now())
      ensures routes.guards == old(routes.guards)
    {
      hide Recorded, UsableRoutes, HashesApart, LooksOnly, DialAll;
      cooldown := ExhaustGroup(x, hint, t, attempt, jitter);
      ghost var w := Shared();
      var usable := routes.UsableRouteCount(world.clock);
      if UsableRoutes(x.cfg, w.table, world.clock) == {} { assert |UsableRoutes(x.cfg, w.table, world.clock)| == 0; }
      noRoutes := usable == 0;
      if noRoutes { circuit.RecordQuotaExhaustion(cooldown, world.clock); }
      assert Shared() == w.(table := routes.State());
    }

    method RecordTransient(x: Setup, r: Reply, t: RouteTarget, attempt: nat, jitter: real) returns (cooldown: nat)
      requires x.cfg == routes.cfg && x.budget == budget
      requires Strained(r) || (r.Invalid? && attempt < budget.attempts)
      modifies routes
      ensures Shared() == Recorded(x, old(Shared()), r, t, attempt, jitter, OwnId(old(Now())))
      ensures forall streak :: cooldown == CooldownAfter(x, r, t, attempt, streak, jitter)
      ensures routes.guards == old(routes.guards)
    {
      hide NoteTransientFailure, TransientCooldown, FailTransition;
      ghost var start, e := Shared(), Event.Transient(0, t, attempt, None, jitter);
      cooldown := routes.NoteTransientFailure(t, attempt, None, jitter, world.clock);
      assert Shared() == Runs.Step(x.cfg, start, e);
      hide Runs.Step;
      DropSession(x);
    }

    method RecordRejected(x: Setup, r: Reply, t: RouteTarget, attempt: nat, jitter: real)
      requires x.cfg == routes.cfg && r.Unauthorized?
      modifies routes
      ensures Shared() == Recorded(x, old(Shared()), r, t, attempt, jitter, OwnId(old(Now())))
      ensures routes.guards == old(routes.guards)
    {
      hide NoteAuthenticationFailure;
      ghost var start := Shared();
      routes.NoteAuthenticationFailure(t);
      assert Shared() == Runs.Step(x.cfg, start, Rejected(t));
      hide Runs.Step;
      DropSession(x);
    }

    method RecordNotFound(x: Setup, r: Reply, t: RouteTarget, attempt: nat, jitter: real)
      requires x.cfg == routes.cfg && r.Missing?
      modifies routes
      ensures Shared() == Recorded(x, old(Shared()), r, t, attempt, jitter, OwnId(old(Now())))
      ensures routes.guards == old(routes.guards)
    {
      hide NoteModelMissing;
      ghost var start := Shared();
      routes.NoteModelMissing(t, world.clock);
      assert Shared() == Runs.Step(x.cfg, start, Event.Missing(0, t));
      hide Runs.Step;
      DropSession(x);
    }

    method RecordForbidden(x: Setup, r: Reply, t: RouteTarget, attempt: nat, jitter: real)
      requires x.cfg == routes.cfg && r.Forbidden?
      modifies routes
      ensures Shared() == Recorded(x, old(Shared()), r, t, attempt, jitter, OwnId(old(Now())))
      ensures routes.guards == old(routes.guards)
    {
      hide Runs.Step;
      DropSession(x);
    }

    /** Replies that say nothing about the upstream as a whole. */
    method RecordNeutral(x: Setup, r: Reply, t: RouteTarget, attempt: nat, jitter: real) returns (cooldown: nat)
      requires x.cfg == routes.cfg && x.budget == budget
      requires !Succeeds(r) && !Strained(r) && !r.LimitReached? && !r.QuotaSpent?
      modifies routes
      ensures Shared() == Recorded(x, old(Shared()), r, t, attempt, jitter, OwnId(old(Now())))
      ensures !OnlyReported(x, r, attempt) ==>
        forall streak :: cooldown == CooldownAfter(x, r, t, attempt, streak, jitter)
      ensures routes.guards == old(routes.guards)
    {
      hide Unpin, Runs.Step, TransientCooldown;
      cooldown := 0;
      match r
      case Unauthorized(_) => RecordRejected(x, r, t, attempt, jitter);
      case Forbidden(_) => RecordForbidden(x, r, t, attempt, jitter);
      case Missing(_) =>
        RecordNotFound(x, r, t, attempt, jitter);
        cooldown := 1000;
      case Invalid(_) =>
        if attempt < budget.attempts { cooldown := RecordTransient(x, r, t, attempt, jitter); }
      case _ =>
    }

    /** Records a failed attempt: its reply's run event on the table, its class on the breaker, no session pinned. */
    method Record(x: Setup, r: Reply, t: RouteTarget, attempt: nat, streak: nat, jitter: real)
      returns (cooldown: nat, noRoutes: bool)
      requires !Succeeds(r) && x.cfg == routes.cfg && x.budget == budget && x.limits == circuit.limits
      requires r.LimitReached? ==> streak == if r.hint.fallback then StreakFor(world, OwnId(Now()), None) else 0
      modifies routes, circuit
      ensures var w, now := Recorded(x, old(Shared()), r, t, attempt, jitter, OwnId(old(Now()))), world.clock;
        && Surveyed(x, r, w, Shared())
        && (r.QuotaSpent? && UsableRoutes(x.cfg, w.table, now) == {} ==> noRoutes)
        && (r.QuotaSpent? && HashesApart(x.cfg) && noRoutes ==> UsableRoutes(x.cfg, w.table, now) == {})
      ensures !OnlyReported(x, r, attempt) ==>
        cooldown == CooldownAfter(x, r, t, attempt, StreakFor(world, OwnId(old(Now())), None), jitter)
      ensures circuit.Now() == BreakerAfter(old(circuit.Now()), r, world.clock, x.limits, noRoutes, cooldown)
      ensures routes.guards == old(routes.guards)
    {
      hide Recorded, RateLimitCooldown, TransientCooldown, UsableRoutes, HashesApart, DialAll;
      cooldown, noRoutes := 0, false;
      if r.LimitReached? {
        cooldown := RecordLimit(x, r.hint, t, attempt, streak, jitter);
      } else if r.QuotaSpent? {
        cooldown, noRoutes := RecordQuota(x, r.hint, t, attempt, jitter);
      } else if Strained(r) {
        circuit.RecordOverload(world.clock);
        cooldown := RecordTransient(x, r, t, attempt, jitter);
      } else {
        cooldown := RecordNeutral(x, r, t, attempt, jitter);
        circuit.RecordNeutralFailure();
      }
    }

    method Pin(x: Setup, t: RouteTarget, attempt: nat)
      requires x.cfg == routes.cfg
      modifies routes`affinity
      ensures routes.State() == old(routes.State()).(affinity := routes.affinity)
      ensures Pinned(x, old(routes.affinity), t, attempt, world.clock, routes.affinity)
    {
      hide Sessionless, RouteTable.RoomMade, RouteTable.Unexpired;
      if attempt == 1 { routes.NoteSessionRoute(x.tag, t, world.clock); }
    }

    /** Records a success; only a first attempt pins its session, and the guard gives its probe back before it goes. */
    method Serve(x: Setup, t: RouteTarget, attempt: nat, guard: InflightGuard)
      requires x.cfg == routes.cfg && x.env == env && Holds(guard)
      modifies this, routes, circuit, guard
      ensures ServedStep(x, old(Now()), t, attempt, Now())
      ensures !guard.live && routes.guards == old(routes.guards) - {guard}
    {
      hide NoteSuccess, Pinned, ReleaseModelProbe, DropGuard;
      ghost var start := Shared();
      routes.NoteSuccess(t, env.latency(tick));
      ghost var noted := Shared();
      assert noted == Runs.Step(x.cfg, start, Event.Served(t, env.latency(tick)));
      Pin(x, t, attempt);
      assert Shared() == Runs.Step(x.cfg, noted, Repinned(routes.affinity));
      circuit.RecordSuccess();
      hide Runs.Step;
      ReleaseOwn(x, guard);
      DropOwn(x, guard);
    }

    /** Records a failure while the guard is held, then drops the guard. */
    method Fail(x: Setup, reply: Reply, t: RouteTarget, attempt: nat, streak: nat, guard: InflightGuard)
      returns (cooldown: nat, noRoutes: bool)
      requires !Succeeds(reply) && x == Asks(x.spec, x.tag) && Holds(guard)
      requires reply.LimitReached? ==> streak == if reply.hint.fallback then StreakFor(world, OwnId(Now()), None) else 0
      modifies this, routes, circuit, guard
      ensures FailedStep(x, old(Now()), reply, t, attempt, cooldown, noRoutes, Now())
      ensures !guard.live && routes.guards == old(routes.guards) - {guard}
    {
      hide Runs.Step, Recorded, Surveyed, CooldownAfter, BreakerAfter, UsableRoutes, HashesApart;
      cooldown, noRoutes := Record(x, reply, t, attempt, streak, env.jitter(tick));
      DropOwn(x, guard);
    }

    /** The streak is read before other requests act again; the recorded report climbs from what was read. */
    method ReadStreak(x: Setup, r: Reply, t: RouteTarget) returns (streak: nat)
      requires x.cfg == routes.cfg && own.Some?
      modifies this`world
      ensures Now() == ReadStep(x, old(Now()), r, t)
      ensures world.guards == old(world.guards) && world.nextId == old(world.nextId)
      ensures r.LimitReached? ==> streak == if r.hint.fallback then StreakFor(world, OwnId(Now()), None) else 0
    {
      streak := 0;
      if r.LimitReached? && r.hint.fallback {
        streak := routes.RateLimitStreak(t);
        world := world.(readings := world.readings[own.value := streak]);
      }
    }

    /** One attempt after the breaker's admission, its recording, and the decision on it. */
    method Attempt(x: Setup, t: RouteTarget, skipped: set<Identity>, attempt: nat, retries: nat)
      returns (reply: Reply, error: GatewayError, next: Next, retries': nat, ghost round: Round)
      requires x == Asks(x.spec, x.tag)
      modifies this, routes, circuit
      ensures DialOk(x, old(Now()), t, skipped, retries, attempt, round)
      ensures round.end == Now() && reply == round.reply && next == round.next && retries' == round.retries
      ensures error == ErrorFor(reply, round.cooldown) && routes.guards == old(routes.guards)
    {
      hide Disturbed, BeginStep, ReadStep, ServedStep, FailedStep, DecideStep, ErrorFor;
      var guard := TakeGuard(x, t);
      Others(x);
      reply := env.replies(tick);
      next, retries' := Stop, retries;
      var cooldown, noRoutes := 0, false;
      ghost var recorded := Now();
      if Succeeds(reply) {
        Serve(x, t, attempt, guard);
      } else {
        var streak := ReadStreak(x, reply, t);
        Others(x);
        cooldown, noRoutes := Fail(x, reply, t, attempt, streak, guard);
        recorded := Now();
        next, retries' := Decide(x, reply, t, skipped, attempt, cooldown, retries);
      }
      error := ErrorFor(reply, cooldown);
      round := Round(t, reply, cooldown, noRoutes, recorded, next, retries', Now());
    }

    /**
     * One logical request is a story: rounds of planning, asking the breaker, dialing, recording and deciding that
     * follow on one another from the table and the breaker as they were to those it leaves, other requests acting in
     * between; the result is the one its ending calls for, and no guard is left behind.
     */
    method SendMessages(spec: RouteSpec, tag: string) returns (r: Result, ending: Ending, ghost rounds: seq<Round>)
      modifies this, routes, circuit
      ensures Story(Asks(spec, tag), old(Now()), rounds)
      ensures Ends(Asks(spec, tag), old(Now()), rounds, ending, r, Now())
      ensures routes.guards == old(routes.guards)
    {
      hide RoundOk, DialOk, PlanStep, GateStep, ErrorFor, IdentityOf;
      var x := Asks(spec, tag);
      ghost var start := Now();
      rounds := [];
      var skipped: set<Identity>, retries, attempt := {}, 0, 0;
      var lastError: Option<GatewayError> := None;
      while true
        invariant Story(x, start, rounds) && GoesOn(rounds) && Reached(start, rounds) == Now()
        invariant attempt == |rounds| && skipped == TriedBy(x.cfg, rounds) && retries == RetriesSoFar(rounds)
        invariant LastError(rounds) ==
          Reported(match lastError case Some(e) => e case None => GatewayError(429, ErrorClass.RateLimited, None))
        invariant attempt == 0 || attempt < budget.attempts
        invariant routes.guards == old(routes.guards)
        decreases budget.attempts - attempt
      {
        if attempt >= budget.attempts {
          ending := BudgetSpentAtHead;
          r := Reported(match lastError case Some(e) => e case None => GatewayError(429, ErrorClass.RateLimited, None));
          return;
        }
        var plan := PlanRoute(x, skipped);
        if plan.Unavailable? {
          ending := NoRoute(plan.wait);
          r := Reported(RouteUnavailable(plan.wait, routes.cfg.retryAfterMax));
          return;
        }
        var admission := AskBreaker(x);
        if admission.Refused? {
          ending := BreakerRefused(admission.remaining);
          r := Reported(GatewayError(429, ErrorClass.RateLimited, Some(admission.remaining)));
          return;
        }
        attempt := attempt + 1;
        var target := plan.target;
        if !env.bodyIsObject {
          ending := BadBody;
          r := Reported(GatewayError(400, InvalidRequest, None));
          return;
        }
        ghost var before := rounds;
        skipped := skipped + {IdentityOf(routes.cfg, target)};
        var reply, error, next;
        ghost var round;
        reply, error, next, retries, round := Attempt(x, target, skipped, attempt, retries);
        rounds := before + [round];
        Told(x, start, before, round, plan, admission);
        if next.Stop? {
          ending := if Succeeds(reply) then Won else GaveUp;
          r := if Succeeds(reply) then Answered(target, attempt) else Reported(error);
          return;
        }
        lastError := Some(error);
      }
    }
  }

  lemma StepKeepsOwn(cfg: Config, w: World, e: Event, id: nat)
    requires id in w.guards && id < w.nextId && !Touches(e, Some(id))
    ensures var w' := Runs.Step(cfg, w, e);
      && id in w'.guards && id < w'.nextId && w'.guards[id] == w.guards[id]
      && StreakFor(w', id, None) == StreakFor(w, id, None)
  {
    hide TableAfter, OpensAfter, EndOf;
  }

  /** Whatever other requests do, the guard a request holds and the streak it has read stay as they are. */
  lemma {:induction false} SparedKeepsOwn(cfg: Config, w: World, es: seq<Event>, id: nat)
    requires id in w.guards && id < w.nextId
    ensures var w' := Run(cfg, w, Spared(es, Some(id)));
      && id in w'.guards && id < w'.nextId && w'.guards[id] == w.guards[id]
      && StreakFor(w', id, None) == StreakFor(w, id, None)
  {
    hide TableAfter, OpensAfter, EndOf, Runs.Step, StreakFor;
    if es != [] {
      var n := |es| - 1;
      var before := Spared(es[..n], Some(id));
      SparedKeepsOwn(cfg, w, es[..n], id);
      if !Touches(es[n], Some(id)) { StepKeepsOwn(cfg, Run(cfg, w, before), es[n], id); }
      if Touches(es[n], Some(id)) {
        assert before + [] == before;
      } else {
        assert (before + [es[n]])[..|before|] == before;
      }
    }
  }

  lemma SameReading(w: World, w': World, id: nat)
    requires w'.readings == w.readings
    ensures StreakFor(w', id, None) == StreakFor(w, id, None)
  {
  }

  lemma TriedGrows(cfg: Config, before: seq<Round>, rd: Round)
    ensures TriedBy(cfg, before + [rd]) == TriedBy(cfg, before) + {IdentityOf(cfg, rd.target)}
  {
    hide IdentityOf;
    assert rd in before + [rd] && forall a :: a in before + [rd] <==> a in before || a == rd;
  }

  /** A request goes on only after a failure, and only within its budget. */
  lemma GoesOnWithinBudget(x: Setup, m: Moment, t: RouteTarget, skipped: set<Identity>, retries: nat, attempt: nat,
                           rd: Round)
    requires DialOk(x, m, t, skipped, retries, attempt, rd)
    ensures rd.target == t
    ensures rd.next.Again? ==> Retryable(rd.reply, attempt, x.budget.attempts)
  {
    hide ServedStep, FailedStep, Decision;
  }

  /** One more round of a story. */
  lemma Told(x: Setup, m: Moment, before: seq<Round>, rd: Round, plan: PlanResult, gate: CB.Admission)
    requires Story(x, m, before) && GoesOn(before) && |before| < x.budget.attempts
    requires var (planned, p) := PlanStep(x, Reached(m, before), TriedBy(x.cfg, before));
             var (gated, g) := GateStep(x, planned);
      && p == plan && g == gate && plan.Planned? && gate.Allowed? && x.env.bodyIsObject
      && DialOk(x, gated, plan.target, TriedBy(x.cfg, before) + {IdentityOf(x.cfg, plan.target)}, RetriesSoFar(before),
                |before| + 1, rd)
    ensures Story(x, m, before + [rd]) && Reached(m, before + [rd]) == rd.end
    ensures RetriesSoFar(before + [rd]) == rd.retries
    ensures TriedBy(x.cfg, before + [rd]) == TriedBy(x.cfg, before) + {IdentityOf(x.cfg, plan.target)}
    ensures rd.target == plan.target
    ensures rd.next.Again? ==> Retryable(rd.reply, |before| + 1, x.budget.attempts)
  {
    hide PlanStep, GateStep, DialOk, TriedBy, Retryable;
    assert (before + [rd])[..|before|] == before;
    var gated := GateStep(x, PlanStep(x, Reached(m, before), TriedBy(x.cfg, before)).0).0;
    GoesOnWithinBudget(x, gated, plan.target, TriedBy(x.cfg, before) + {IdentityOf(x.cfg, plan.target)},
                       RetriesSoFar(before), |before| + 1, rd);
    TriedGrows(x.cfg, before, rd);
  }
}
