/** What each kind of reply leaves behind: on the key, the route, the group, the model's circuit and the breaker. */
module Outcomes {
  import opened Options
  import opened Backoff
  import opened ModelCircuit
  import opened Routing
  import opened Expiry
  import opened Runs
  import opened Isolation
  import opened Readiness
  import opened Failover

  // --- the guard --------------------------------------------------------------------------------

  /** The request holds the guard of the attempt it is recording. */
  predicate HoldsFor(m: Moment, t: RouteTarget) {
    && m.own.Some? && m.own.value in m.world.guards
    && m.world.guards[m.own.value].key == t.key && m.world.guards[m.own.value].model == t.model
  }

  function HeldProbe(m: Moment): bool
    requires m.own.Some? && m.own.value in m.world.guards
  {
    m.world.guards[m.own.value].holdsProbe
  }

  /** The key as it was, whatever is in flight on it. */
  predicate SameHealth(k: KeyState, k': KeyState) {
    k'.coolingUntil == k.coolingUntil && k'.unusable == k.unusable && k'.streak == k.streak
    && k'.latencyCost == k.latencyCost
  }

  /** Every key as it was, but for one. */
  predicate OtherKeysKept(s: Table, s': Table, key: nat) {
    |s'.keys| == |s.keys| && forall i :: 0 <= i < |s.keys| && i != key ==> s'.keys[i] == s.keys[i]
  }

  predicate HealthKept(s: Table, s': Table) {
    && |s'.keys| == |s.keys| && (forall i :: 0 <= i < |s.keys| ==> SameHealth(s.keys[i], s'.keys[i]))
    && s'.routes == s.routes && s'.groups == s.groups
  }

  lemma DroppedTable(cfg: Config, w: World, id: nat, t: RouteTarget)
    requires id in w.guards && w.guards[id].key == t.key && w.guards[id].model == t.model
    ensures var s' := Runs.Step(cfg, w, Dropped(id)).table;
      && HealthKept(w.table, s') && OtherKeysKept(w.table, s', t.key) && s'.affinity == w.table.affinity
      && s'.rotation == w.table.rotation
      && (forall m :: m != t.model ==> ModelOf(s', m) == ModelOf(w.table, m))
      && ModelOf(s', t.model) ==
           ApplyAll(ModelOf(w.table, t.model), if w.guards[id].holdsProbe then [DroppedProbe] else [], cfg.thresholds)
  {
    var e := ModelOf(w.table, t.model);
    assert [DroppedProbe][..0] == [];
    assert ApplyAll(e, [DroppedProbe], cfg.thresholds) == DropProbe(e);
    assert DropProbe(FRESH_MODEL) == FRESH_MODEL;
    hide DropProbe;
  }

  /** Recording moves no guard and takes no time. */
  lemma RecordingKeepsGuards(x: Setup, w: World, r: Reply, t: RouteTarget, attempt: nat, jitter: real, reader: nat)
    ensures var w' := Recorded(x, w, r, t, attempt, jitter, reader); w'.guards == w.guards && w'.clock == w.clock
  {
    hide TableAfter, OpensAfter;
  }

  // --- one class of replies at a time ---------------------------------------------------------------

  /** Overloads of the upstream, and a 400 that is tried elsewhere. */
  predicate CountsAgainstTheModel(r: Reply, attempt: nat, budget: nat) {
    || r.LimitReached? || r.NoConnection? || r.NoFirstByte? || r.FirstByteDeadline? || r.Transient?
    || (r.Json? && !r.valid) || (r.Invalid? && attempt < budget)
  }

  /** The table between the recording and the drop of the guard, for every reply but an exhaustion. */
  lemma ThenDropped(x: Setup, m: Moment, r: Reply, t: RouteTarget, attempt: nat, cooldown: nat, noRoutes: bool,
                    m': Moment) returns (w: World)
    requires FailedStep(x, m, r, t, attempt, cooldown, noRoutes, m') && HoldsFor(m, t) && !r.QuotaSpent?
    ensures w == Recorded(x, m.world, r, t, attempt, x.env.jitter(m.tick), m.own.value)
    ensures m'.world == Runs.Step(x.cfg, w, Dropped(m.own.value)) && w.guards == m.world.guards
    ensures w.clock == m.world.clock
    ensures !OnlyReported(x, r, attempt) ==>
      var streak := StreakFor(m.world, m.own.value, None);
      cooldown == CooldownAfter(x, r, t, attempt, streak, x.env.jitter(m.tick))
  {
    hide BreakerAfter, UsableRoutes, HashesApart, Recorded, Runs.Step, CooldownAfter, OnlyReported;
    w := Recorded(x, m.world, r, t, attempt, x.env.jitter(m.tick), m.own.value);
    RecordingKeepsGuards(x, m.world, r, t, attempt, x.env.jitter(m.tick), m.own.value);
  }

  /** A 401 rejects the dialed key, and nothing else; no session stays pinned to its route. */
  lemma UnauthorizedRejectsTheKey(x: Setup, m: Moment, r: Reply, t: RouteTarget, attempt: nat, cooldown: nat,
                                  noRoutes: bool, m': Moment)
    requires FailedStep(x, m, r, t, attempt, cooldown, noRoutes, m') && HoldsFor(m, t)
    requires r.Unauthorized? && t.key < |m.world.table.keys|
    ensures var s, s' := m.world.table, m'.world.table;
      && OtherKeysKept(s, s', t.key) && s'.routes == s.routes && s'.groups == s.groups
      && s'.keys[t.key].unusable && s'.keys[t.key].coolingUntil.None?
      && (forall tag :: tag in s'.affinity ==> s'.affinity[tag].route != TargetId(x.cfg, t))
  {
    hide FailedStep, Runs.Step;
    var w := ThenDropped(x, m, r, t, attempt, cooldown, noRoutes, m');
    DroppedTable(x.cfg, w, m.own.value, t);
    RejectedTable(x, m.world, r, t, attempt, x.env.jitter(m.tick), m.own.value);
  }

  lemma RejectedTable(x: Setup, w: World, r: Reply, t: RouteTarget, attempt: nat, jitter: real, reader: nat)
    requires r.Unauthorized? && t.key < |w.table.keys|
    ensures var s, s' := w.table, Recorded(x, w, r, t, attempt, jitter, reader).table;
      && OtherKeysKept(s, s', t.key) && s'.routes == s.routes && s'.groups == s.groups && s'.models == s.models
      && s'.keys[t.key].unusable && s'.keys[t.key].coolingUntil.None?
      && (forall tag :: tag in s'.affinity ==> s'.affinity[tag].route != TargetId(x.cfg, t))
  {
  }

  /** A 403 leaves the health of every key, route and group as it was. */
  lemma ForbiddenLeavesHealth(x: Setup, m: Moment, r: Reply, t: RouteTarget, attempt: nat, cooldown: nat,
                              noRoutes: bool, m': Moment)
    requires FailedStep(x, m, r, t, attempt, cooldown, noRoutes, m') && HoldsFor(m, t)
    requires r.Forbidden? || r.Unclassified? || (r.Invalid? && attempt >= x.budget.attempts)
    ensures HealthKept(m.world.table, m'.world.table)
  {
    var w := ThenDropped(x, m, r, t, attempt, cooldown, noRoutes, m');
    DroppedTable(x.cfg, w, m.own.value, t);
  }

  /** A generic 429 cools its route until the cooldown is over, and one strike more is on the key. */
  lemma LimitCoolsTheRoute(x: Setup, m: Moment, r: Reply, t: RouteTarget, attempt: nat, cooldown: nat,
                           noRoutes: bool, m': Moment)
    requires FailedStep(x, m, r, t, attempt, cooldown, noRoutes, m') && HoldsFor(m, t)
    requires r.LimitReached? && t.key < |m.world.table.keys|
    ensures var s, s', id := m.world.table, m'.world.table, TargetId(x.cfg, t);
            var strikes := if r.hint.fallback then StreakFor(m.world, m.own.value, None) else 0;
            var hint := if r.hint.fallback then None else Some(r.hint.duration);
      && s'.routes == s.routes[id := RouteOf(s, id).(coolingUntil := Some(m.world.clock + cooldown))]
      && s'.groups == s.groups && OtherKeysKept(s, s', t.key)
      && s'.keys[t.key].coolingUntil == s.keys[t.key].coolingUntil
      && s'.keys[t.key].unusable == s.keys[t.key].unusable
      && s'.keys[t.key].streak == (if strikes < U32_MAX then strikes + 1 else U32_MAX)
      && cooldown == RateLimitCooldown(x.cfg, attempt, strikes, hint, x.env.jitter(m.tick))
  {
    hide FailedStep, Runs.Step, Recorded, RateLimitCooldown;
    var w := ThenDropped(x, m, r, t, attempt, cooldown, noRoutes, m');
    DroppedTable(x.cfg, w, m.own.value, t);
    LimitedTable(x, m.world, r, t, attempt, x.env.jitter(m.tick), m.own.value);
  }

  lemma LimitedTable(x: Setup, w: World, r: Reply, t: RouteTarget, attempt: nat, jitter: real, reader: nat)
    requires r.LimitReached? && t.key < |w.table.keys|
    ensures var s, s', id := w.table, Recorded(x, w, r, t, attempt, jitter, reader).table, TargetId(x.cfg, t);
            var strikes := if r.hint.fallback then StreakFor(w, reader, None) else 0;
            var hint := if r.hint.fallback then None else Some(r.hint.duration);
            var cooldown := RateLimitCooldown(x.cfg, attempt, strikes, hint, jitter);
      && s'.routes == s.routes[id := RouteOf(s, id).(coolingUntil := Some(w.clock + cooldown))]
      && s'.groups == s.groups && OtherKeysKept(s, s', t.key)
      && s'.keys[t.key] == s.keys[t.key].(streak := if strikes < U32_MAX then strikes + 1 else U32_MAX)
  {
    hide BarrierDuration, RecordFailure;
  }

  /** A 404 disables its route for the configured time. */
  lemma MissingDisablesTheRoute(x: Setup, m: Moment, r: Reply, t: RouteTarget, attempt: nat, cooldown: nat,
                                noRoutes: bool, m': Moment)
    requires FailedStep(x, m, r, t, attempt, cooldown, noRoutes, m') && HoldsFor(m, t) && r.Missing?
    ensures var s, s', id := m.world.table, m'.world.table, TargetId(x.cfg, t);
            var until := Deadline(m.world.clock, x.cfg.thresholds.missingFor);
      && s'.routes == s.routes[id := RouteOf(s, id).(disabledUntil := Some(until))]
      && s'.groups == s.groups && |s'.keys| == |s.keys|
      && (forall i :: 0 <= i < |s.keys| ==> SameHealth(s.keys[i], s'.keys[i]))
      && (forall tag :: tag in s'.affinity ==> s'.affinity[tag].route != id)
  {
    hide FailedStep, Runs.Step, Recorded, Deadline;
    var w := ThenDropped(x, m, r, t, attempt, cooldown, noRoutes, m');
    DroppedTable(x.cfg, w, m.own.value, t);
    MissedTable(x, m.world, r, t, attempt, x.env.jitter(m.tick), m.own.value);
  }

  lemma MissedTable(x: Setup, w: World, r: Reply, t: RouteTarget, attempt: nat, jitter: real, reader: nat)
    requires r.Missing?
    ensures var s, s', id := w.table, Recorded(x, w, r, t, attempt, jitter, reader).table, TargetId(x.cfg, t);
            var until := Deadline(w.clock, x.cfg.thresholds.missingFor);
      && s'.routes == s.routes[id := RouteOf(s, id).(disabledUntil := Some(until))]
      && s'.groups == s.groups && s'.keys == s.keys
      && (forall tag :: tag in s'.affinity ==> s'.affinity[tag].route != id)
  {
    hide Deadline, RecordMissing;
  }

  /** An overload, or a 400 that is tried elsewhere, cools its key alone, and only if another group could serve. */
  lemma StrainCoolsTheKey(x: Setup, m: Moment, r: Reply, t: RouteTarget, attempt: nat, cooldown: nat,
                          noRoutes: bool, m': Moment)
    requires FailedStep(x, m, r, t, attempt, cooldown, noRoutes, m') && HoldsFor(m, t)
    requires CountsAgainstTheModel(r, attempt, x.budget.attempts) && !r.LimitReached? && t.key < |m.world.table.keys|
    ensures var s, s' := m.world.table, m'.world.table;
            var cooling := if KeyHasAlternatives(x.cfg, t) then Some(m.world.clock + cooldown)
                           else s.keys[t.key].coolingUntil;
      && s'.routes == s.routes && s'.groups == s.groups && OtherKeysKept(s, s', t.key)
      && SameHealth(s.keys[t.key].(coolingUntil := cooling), s'.keys[t.key])
      && (KeyHasAlternatives(x.cfg, t) ==> 1 <= cooldown <= 250)
  {
    hide FailedStep, Runs.Step, Recorded, TransientCooldown, KeyHasAlternatives, CooldownAfter, OnlyReported;
    var w := ThenDropped(x, m, r, t, attempt, cooldown, noRoutes, m');
    DroppedTable(x.cfg, w, m.own.value, t);
    StrainedTable(x, m.world, r, t, attempt, x.env.jitter(m.tick), m.own.value);
    StrainedCooldown(x, r, t, attempt, StreakFor(m.world, m.own.value, None), x.env.jitter(m.tick), 0);
  }

  lemma StrainedCooldown(x: Setup, r: Reply, t: RouteTarget, attempt: nat, streak: nat, jitter: real, reader: nat)
    requires CountsAgainstTheModel(r, attempt, x.budget.attempts) && !r.LimitReached?
    ensures CooldownAfter(x, r, t, attempt, streak, jitter) == TransientCooldown(x.cfg, t, attempt, None, jitter)
    ensures !OnlyReported(x, r, attempt)
    ensures EventFor(x, r, t, attempt, jitter, reader) == Some(Event.Transient(0, t, attempt, None, jitter))
  {
    hide TransientCooldown;
  }

  lemma StrainedTable(x: Setup, w: World, r: Reply, t: RouteTarget, attempt: nat, jitter: real, reader: nat)
    requires CountsAgainstTheModel(r, attempt, x.budget.attempts) && !r.LimitReached? && t.key < |w.table.keys|
    ensures var s, s' := w.table, Recorded(x, w, r, t, attempt, jitter, reader).table;
            var cooldown := TransientCooldown(x.cfg, t, attempt, None, jitter);
            var cooling := if KeyHasAlternatives(x.cfg, t) then Some(w.clock + cooldown)
                           else s.keys[t.key].coolingUntil;
      && s'.routes == s.routes && s'.groups == s.groups && OtherKeysKept(s, s', t.key)
      && s'.keys[t.key] == s.keys[t.key].(coolingUntil := cooling)
      && (KeyHasAlternatives(x.cfg, t) ==> 1 <= cooldown <= 250)
  {
    hide EventFor, OnlyReported, CooldownAfter, KeyHasAlternatives, NoteTransientFailure, FailTransition;
    hide TransientCooldown, CountsAgainstTheModel, GuardsAfter, ReadingsAfter;
    StrainedCooldown(x, r, t, attempt, 0, jitter, reader);
    FailedKey(x.cfg, w.table, t, attempt, None, jitter, w.clock);
    QuickStrain(x.cfg, t, attempt, jitter);
  }

  lemma QuickStrain(cfg: Config, t: RouteTarget, attempt: nat, jitter: real)
    ensures var cooldown := TransientCooldown(cfg, t, attempt, None, jitter);
      1 <= cooldown <= MAX_ROUTE_WAIT && (KeyHasAlternatives(cfg, t) ==> cooldown <= 250)
  {
    hide KeyHasAlternatives, BarrierDuration;
  }

  /** After any failure that is more than reported, the request's own session is pinned nowhere. */
  lemma FailureUnpins(x: Setup, m: Moment, r: Reply, t: RouteTarget, attempt: nat, cooldown: nat, noRoutes: bool,
                      m': Moment)
    requires FailedStep(x, m, r, t, attempt, cooldown, noRoutes, m') && HoldsFor(m, t) && !r.QuotaSpent?
    requires !r.Unclassified? && !(r.Invalid? && attempt >= x.budget.attempts)
    requires x.tag != "" && x.tag != "sess_none"
    ensures x.tag !in m'.world.table.affinity
  {
    hide TableAfter, OpensAfter;
    var w := ThenDropped(x, m, r, t, attempt, cooldown, noRoutes, m');
    DroppedTable(x.cfg, w, m.own.value, t);
    assert !OnlyReported(x, r, attempt);
    UnpinnedTable(x, m.world, r, t, attempt, x.env.jitter(m.tick), m.own.value);
  }

  lemma UnpinnedTable(x: Setup, w: World, r: Reply, t: RouteTarget, attempt: nat, jitter: real, reader: nat)
    requires !OnlyReported(x, r, attempt) && x.tag != "" && x.tag != "sess_none"
    ensures x.tag !in Recorded(x, w, r, t, attempt, jitter, reader).table.affinity
  {
    hide NoteRateLimited, NoteQuotaExhausted, NoteAuthenticationFailure, NoteModelMissing, NoteTransientFailure;
  }

  // --- explicit exhaustion --------------------------------------------------------------------------

  /**
   * An exhaustion cools its group and every key in it until the cooldown is over, and no session stays pinned to it;
   * keys outside the group and all routes keep their deadlines as far as these lie ahead.
   */
  lemma QuotaCoolsTheGroup(x: Setup, m: Moment, r: Reply, t: RouteTarget, attempt: nat, cooldown: nat,
                           noRoutes: bool, m': Moment)
    requires FailedStep(x, m, r, t, attempt, cooldown, noRoutes, m') && HoldsFor(m, t) && r.QuotaSpent?
    requires |m.world.table.keys| == |x.cfg.groups|
    ensures var s, s', now := m.world.table, m'.world.table, m.world.clock;
            var until := if cooldown <= 86_400_000 then now + cooldown else now + 86_400_000;
      && Live(GroupOf(s', t.group), now) == Live(Some(until), now)
      && (forall g :: g != t.group ==> Live(GroupOf(s', g), now) == Live(GroupOf(s, g), now))
      && |s'.keys| == |s.keys|
      && (forall i :: 0 <= i < |s.keys| ==>
            && Live(s'.keys[i].coolingUntil, now) ==
                 (if x.cfg.groups[i] == t.group then Live(Some(until), now) else Live(s.keys[i].coolingUntil, now))
            && s'.keys[i].unusable == s.keys[i].unusable && s'.keys[i].streak == s.keys[i].streak)
      && (forall id :: LiveRoute(RouteOf(s', id), now) == LiveRoute(RouteOf(s, id), now))
    ensures forall tag :: tag in m'.world.table.affinity ==>
      tag in m.world.table.affinity && m'.world.table.affinity[tag].route.group != x.cfg.hash(t.group)
  {
    hide *;
    var w, w' := SurveyedThenDropped(x, m, r, t, attempt, cooldown, noRoutes, m');
    var now, jitter, id := m.world.clock, x.env.jitter(m.tick), m.own.value;
    DroppedTable(x.cfg, w', id, t);
    SpentTable(x, m.world, r, t, attempt, jitter, id);
    SurveyedDeadlines(x.cfg, m.world.table, w.table, w'.table, t.group, cooldown, now);
    HealthShows(w'.table, m'.world.table, now);
    PlainDeadline(now, cooldown);
  }

  lemma PlainDeadline(now: nat, wait: nat)
    ensures Deadline(now, wait) == if wait <= 86_400_000 then now + wait else now + 86_400_000
  {
  }

  lemma HealthShows(s: Table, s': Table, now: nat)
    requires HealthKept(s, s')
    ensures forall g :: GroupOf(s', g) == GroupOf(s, g)
    ensures forall id :: RouteOf(s', id) == RouteOf(s, id)
    ensures |s'.keys| == |s.keys| && forall i :: 0 <= i < |s.keys| ==>
      s'.keys[i].coolingUntil == s.keys[i].coolingUntil && s'.keys[i].unusable == s.keys[i].unusable
      && s'.keys[i].streak == s.keys[i].streak
  {
  }

  /** An exhaustion is recorded, the usable routes are counted, and the guard is dropped. */
  lemma SurveyedThenDropped(x: Setup, m: Moment, r: Reply, t: RouteTarget, attempt: nat, cooldown: nat,
                            noRoutes: bool, m': Moment) returns (w: World, w': World)
    requires FailedStep(x, m, r, t, attempt, cooldown, noRoutes, m') && HoldsFor(m, t) && r.QuotaSpent?
    ensures m.own.Some? && m.own.value in w'.guards && w'.guards == m.world.guards
    ensures w'.guards[m.own.value].key == t.key && w'.guards[m.own.value].model == t.model
    ensures w == Recorded(x, m.world, r, t, attempt, x.env.jitter(m.tick), m.own.value)
    ensures m'.world == Runs.Step(x.cfg, w', Dropped(m.own.value))
    ensures Same(w.table, w'.table, m.world.clock) && w'.table.affinity == w.table.affinity
    ensures cooldown == CapCooldown(r.hint.duration, x.budget.maxQuotaCooldown)
  {
    hide BreakerAfter, UsableRoutes, HashesApart, Recorded, Runs.Step, DialAll, CapCooldown;
    w := Recorded(x, m.world, r, t, attempt, x.env.jitter(m.tick), m.own.value);
    w' :| Surveyed(x, r, w, w') && m'.world == Runs.Step(x.cfg, w', Dropped(m.own.value));
    RecordingKeepsGuards(x, m.world, r, t, attempt, x.env.jitter(m.tick), m.own.value);
    var cs :| w' == w.(table := DialAll(x.cfg, w.table, cs, w.clock));
    ChecksAreInvisible(x.cfg, w.table, cs, w.clock);
  }

  /** The hint is kept between a millisecond and the configured cap, which is a day at most. */
  lemma QuotaCooldownIsCapped(x: Setup, m: Moment, r: Reply, t: RouteTarget, attempt: nat, cooldown: nat,
                              noRoutes: bool, m': Moment)
    requires FailedStep(x, m, r, t, attempt, cooldown, noRoutes, m') && r.QuotaSpent?
    ensures var cap := Min(x.budget.maxQuotaCooldown, 86_400_000);
      cooldown == if r.hint.duration == 0 || cap == 0 then 1 else Min(r.hint.duration, cap)
  {
    hide BreakerAfter, UsableRoutes, HashesApart, Recorded, Runs.Step, Surveyed, CapCooldown;
    CapIsPlain(r.hint.duration, x.budget.maxQuotaCooldown);
  }

  lemma SpentTable(x: Setup, w: World, r: Reply, t: RouteTarget, attempt: nat, jitter: real, reader: nat)
    requires r.QuotaSpent?
    ensures var s, s' := w.table, Recorded(x, w, r, t, attempt, jitter, reader).table;
            var until := Deadline(w.clock, CapCooldown(r.hint.duration, x.budget.maxQuotaCooldown));
      && s'.groups == s.groups[t.group := Some(until)] && s'.routes == s.routes && s'.models == s.models
      && s'.keys == CoolGroupKeys(x.cfg, s.keys, t.group, until) && s'.rotation == s.rotation
      && (forall tag :: tag in s'.affinity ==>
            tag in s.affinity && s'.affinity[tag].route.group != x.cfg.hash(t.group))
  {
    hide CapCooldown, Deadline, CoolGroupKeys;
  }

  lemma {:induction false} ChecksAreInvisible(cfg: Config, s: Table, cs: seq<Candidate>, now: nat)
    ensures Same(s, DialAll(cfg, s, cs, now), now) && DialAll(cfg, s, cs, now).affinity == s.affinity
  {
    hide AfterDial, Same;
    if cs == [] {
      SameRefl(s, now);
    } else {
      var before := DialAll(cfg, s, cs[..|cs| - 1], now);
      ChecksAreInvisible(cfg, s, cs[..|cs| - 1], now);
      DialSame(cfg, before, cs[|cs| - 1], now);
      SameTrans(s, before, DialAll(cfg, s, cs, now), now);
    }
  }

  /** Read off the table after the survey: only what has passed is gone from it. */
  lemma SurveyedDeadlines(cfg: Config, s: Table, s1: Table, s2: Table, g: Name, cooldown: nat, now: nat)
    requires |s.keys| == |cfg.groups| && Same(s1, s2, now)
    requires s1.groups == s.groups[g := Some(Deadline(now, cooldown))] && s1.routes == s.routes
    requires s1.keys == CoolGroupKeys(cfg, s.keys, g, Deadline(now, cooldown))
    ensures var until := Deadline(now, cooldown);
      && Live(GroupOf(s2, g), now) == Live(Some(until), now)
      && (forall h :: h != g ==> Live(GroupOf(s2, h), now) == Live(GroupOf(s, h), now))
      && |s2.keys| == |s.keys|
      && (forall i :: 0 <= i < |s.keys| ==>
            && Live(s2.keys[i].coolingUntil, now) ==
                 (if cfg.groups[i] == g then Live(Some(until), now) else Live(s.keys[i].coolingUntil, now))
            && s2.keys[i].unusable == s.keys[i].unusable && s2.keys[i].streak == s.keys[i].streak)
      && (forall id :: LiveRoute(RouteOf(s2, id), now) == LiveRoute(RouteOf(s, id), now))
  {
    forall i | 0 <= i < |s.keys|
      ensures Live(s2.keys[i].coolingUntil, now) ==
        (if cfg.groups[i] == g then Live(Some(Deadline(now, cooldown)), now) else Live(s.keys[i].coolingUntil, now))
      ensures s2.keys[i].unusable == s.keys[i].unusable && s2.keys[i].streak == s.keys[i].streak
    {
      assert LiveKey(s1.keys[i], now) == LiveKey(s2.keys[i], now);
    }
  }

  // --- the model's circuit ----------------------------------------------------------------------------

  /** What the circuit of the dialed model hears of a reply. */
  function Heard(cfg: Config, r: Reply, t: RouteTarget, attempt: nat, budget: nat, now: nat): seq<ModelOp> {
    if CountsAgainstTheModel(r, attempt, budget) then [ModelOp.Failed(cfg.hash(t.group), now)]
    else if r.Missing? then [Missed(cfg.hash(t.group), now)]
    else []
  }

  /**
   * The circuit of the dialed model hears of one failure of the group, of one 404, or of nothing, and then of the probe
   * if the guard still held it; no other circuit hears of anything.
   */
  lemma CircuitHears(x: Setup, m: Moment, r: Reply, t: RouteTarget, attempt: nat, cooldown: nat, noRoutes: bool,
                     m': Moment, model: Name)
    requires FailedStep(x, m, r, t, attempt, cooldown, noRoutes, m') && HoldsFor(m, t) && !Succeeds(r)
    requires !r.QuotaSpent?
    ensures var heard := Heard(x.cfg, r, t, attempt, x.budget.attempts, m.world.clock)
                         + if HeldProbe(m) then [DroppedProbe] else [];
      ModelOf(m'.world.table, model) ==
        ApplyAll(ModelOf(m.world.table, model), if model == t.model then heard else [], x.cfg.thresholds)
  {
    hide FailedStep, Runs.Step, Recorded, ApplyAll;
    var w := ThenDropped(x, m, r, t, attempt, cooldown, noRoutes, m');
    DroppedTable(x.cfg, w, m.own.value, t);
    RecordedCircuit(x, m.world, r, t, attempt, x.env.jitter(m.tick), m.own.value, model);
    ApplyConcat(ModelOf(m.world.table, model), Heard(x.cfg, r, t, attempt, x.budget.attempts, m.world.clock),
                if HeldProbe(m) then [DroppedProbe] else [], x.cfg.thresholds);
    AppliedNothing(ModelOf(m.world.table, model), x.cfg.thresholds);
  }

  lemma AppliedNothing(e: ModelEntry, th: Thresholds)
    ensures ApplyAll(e, [], th) == e
  {
  }

  lemma RecordedCircuit(x: Setup, w: World, r: Reply, t: RouteTarget, attempt: nat, jitter: real, reader: nat,
                        model: Name)
    requires !Succeeds(r) && !r.QuotaSpent?
    ensures var heard := Heard(x.cfg, r, t, attempt, x.budget.attempts, w.clock);
      ModelOf(Recorded(x, w, r, t, attempt, jitter, reader).table, model) ==
        ApplyAll(ModelOf(w.table, model), if model == t.model then heard else [], x.cfg.thresholds)
  {
    hide ApplyAll, Runs.Step, Heard, EventFor, Apply;
    var e := ModelOf(w.table, model);
    AppliedNothing(e, x.cfg.thresholds);
    var event := EventFor(x, r, t, attempt, jitter, reader);
    HeardEvent(x, w, r, t, attempt, jitter, reader, model);
    UnpinKeepsModels(x, if event.Some? then Runs.Step(x.cfg, w, event.value) else w, model);
  }

  lemma UnpinKeepsModels(x: Setup, w: World, model: Name)
    ensures ModelOf(Unpin(x, w).table, model) == ModelOf(w.table, model)
  {
  }

  /** The recorded event, if there is one, does to the circuit what it hears. */
  lemma HeardEvent(x: Setup, w: World, r: Reply, t: RouteTarget, attempt: nat, jitter: real, reader: nat, model: Name)
    requires !Succeeds(r) && !r.QuotaSpent?
    ensures var event, heard := EventFor(x, r, t, attempt, jitter, reader),
                                Heard(x.cfg, r, t, attempt, x.budget.attempts, w.clock);
      if OnlyReported(x, r, attempt) || event.None? then heard == []
      else ModelOf(Runs.Step(x.cfg, w, event.value).table, model) ==
             ApplyAll(ModelOf(w.table, model), if model == t.model then heard else [], x.cfg.thresholds)
  {
    var e, g := ModelOf(w.table, model), x.cfg.hash(t.group);
    AppliedNothing(e, x.cfg.thresholds);
    ApplyOne(e, ModelOp.Failed(g, w.clock), x.cfg.thresholds);
    ApplyOne(e, Missed(g, w.clock), x.cfg.thresholds);
    NotedModels(x.cfg, w.table, t, model);
    hide ApplyAll, RecordFailure, RecordMissing, NoteRateLimited, NoteModelMissing, NoteTransientFailure;
    hide NoteAuthenticationFailure, OpensAfter, ReadingsAfter;
  }

  /** Of the recorded outcomes only failures and 404s touch a model, and only the one that was dialed. */
  lemma NotedModels(cfg: Config, s: Table, t: RouteTarget, model: Name)
    ensures var e, g := ModelOf(s, model), cfg.hash(t.group);
      && ModelOf(NoteAuthenticationFailure(cfg, s, t), model) == e
      && (forall attempt, streak, hint, jitter, now ::
            ModelOf(NoteRateLimited(cfg, s, t, attempt, streak, hint, jitter, now), model) ==
              if model == t.model then RecordFailure(e, g, now, cfg.thresholds).0 else e)
      && (forall attempt, hint, jitter, now ::
            ModelOf(NoteTransientFailure(cfg, s, t, attempt, hint, jitter, now), model) ==
              if model == t.model then RecordFailure(e, g, now, cfg.thresholds).0 else e)
      && (forall now ::
            ModelOf(NoteModelMissing(cfg, s, t, now), model) ==
              if model == t.model then RecordMissing(e, g, now, cfg.thresholds) else e)
  {
    hide RecordFailure, RecordMissing, RateLimitCooldown, TransientCooldown, KeyHasAlternatives;
  }

  // --- the breaker --------------------------------------------------------------------------------------

  /** What the breaker hears of a failed reply. */
  function Reported(r: Reply, cooldown: nat, noRoutes: bool, now: nat): seq<CB.Op> {
    match r
    case NoConnection(_) => [CB.SawOverload(now)]
    case NoFirstByte(_) => [CB.SawOverload(now)]
    case FirstByteDeadline => [CB.SawOverload(now)]
    case Transient(_) => [CB.SawOverload(now)]
    case Json(_) => [CB.SawOverload(now)]
    case LimitReached(_) => []
    case QuotaSpent(_) => if noRoutes then [CB.Exhausted(cooldown, now)] else []
    case _ => [CB.Op.Failed]
  }

  /**
   * Lost connections, missed deadlines, transient statuses and broken bodies are overloads of the upstream; a generic
   * 429 is nothing to it, an exhaustion only when no route is left, and every other failure only frees its probe.
   */
  lemma BreakerHears(x: Setup, m: Moment, r: Reply, t: RouteTarget, attempt: nat, cooldown: nat, noRoutes: bool,
                     m': Moment)
    requires FailedStep(x, m, r, t, attempt, cooldown, noRoutes, m') && !Succeeds(r)
    ensures m'.breaker == CB.Run(m.breaker, Reported(r, cooldown, noRoutes, m.world.clock), x.limits)
  {
    hide Recorded, Surveyed, UsableRoutes, HashesApart, CooldownAfter, CB.Overloaded, CB.Exhaust, CB.Neutral;
    hide Runs.Step;
    var ops := Reported(r, cooldown, noRoutes, m.world.clock);
    if ops != [] { assert ops[..|ops| - 1] == []; }
  }

  /** No route is left exactly when none is usable on the table with the exhaustion on it. */
  lemma ExhaustionOpensExactly(x: Setup, m: Moment, r: Reply, t: RouteTarget, attempt: nat, cooldown: nat,
                               noRoutes: bool, m': Moment)
    requires FailedStep(x, m, r, t, attempt, cooldown, noRoutes, m') && r.QuotaSpent?
    ensures var left := UsableRoutes(x.cfg, NoteQuotaExhausted(x.cfg, m.world.table, t, cooldown, m.world.clock),
                                     m.world.clock);
      && (left == {} ==> m'.breaker == CB.Exhaust(m.breaker, cooldown, m.world.clock))
      && (left != {} && HashesApart(x.cfg) ==> m'.breaker == m.breaker)
  {
    hide UsableRoutes, HashesApart, DialAll, Runs.Step, Recorded, CB.Exhaust;
    var now, jitter, id := m.world.clock, x.env.jitter(m.tick), OwnId(m);
    var s1, s2 := Recorded(x, m.world, r, t, attempt, jitter, id).table,
                  NoteQuotaExhausted(x.cfg, m.world.table, t, cooldown, now);
    SpentHealth(x, m.world, r, t, attempt, jitter, id);
    SameUsableRoutes(x.cfg, s1, s2, now);
  }

  lemma SpentHealth(x: Setup, w: World, r: Reply, t: RouteTarget, attempt: nat, jitter: real, reader: nat)
    requires r.QuotaSpent?
    ensures var cooldown := CapCooldown(r.hint.duration, x.budget.maxQuotaCooldown);
            var s, s' := Recorded(x, w, r, t, attempt, jitter, reader).table,
                         NoteQuotaExhausted(x.cfg, w.table, t, cooldown, w.clock);
      Same(s, s', w.clock) && s'.rotation == s.rotation
  {
    hide CapCooldown, Deadline, CoolGroupKeys;
    var s := Recorded(x, w, r, t, attempt, jitter, reader).table;
    var s' := NoteQuotaExhausted(x.cfg, w.table, t, CapCooldown(r.hint.duration, x.budget.maxQuotaCooldown), w.clock);
    assert s.keys == s'.keys && s.routes == s'.routes && s.groups == s'.groups && s.models == s'.models;
    assert forall i :: RouteOf(s, i) == RouteOf(s', i);
    assert forall g :: GroupOf(s, g) == GroupOf(s', g);
    assert forall n :: ModelOf(s, n) == ModelOf(s', n);
  }
}
