/** Failure domains: which candidates each recorded outcome can and cannot affect, at every later instant. */
module Isolation {
  import opened Options
  import opened Backoff
  import opened ModelCircuit
  import opened Routing
  import opened Expiry

  /** The parts of a model entry that a verdict depends on. */
  predicate LooksAlike(e: ModelEntry, e': ModelEntry) {
    e'.state == e.state && e'.openUntil == e.openUntil && e'.disabled == e.disabled
    && e'.disabledUntil == e.disabledUntil && e'.probeInFlight == e.probeInFlight
  }

  /** A verdict reads one route, one group, one model and the sampled keys. */
  lemma JudgeReads(cfg: Config, s: Table, s': Table, c: Candidate, at: nat)
    requires RouteOf(s', CandidateId(cfg, c)) == RouteOf(s, CandidateId(cfg, c))
    requires GroupOf(s', c.group) == GroupOf(s, c.group)
    requires LooksAlike(ModelOf(s, c.model), ModelOf(s', c.model))
    requires |s'.keys| == |s.keys|
    requires forall i :: i in Sampled(c) && i < |s.keys| ==>
      s'.keys[i].unusable == s.keys[i].unusable && Live(s'.keys[i].coolingUntil, at) == Live(s.keys[i].coolingUntil, at)
    ensures Judge(cfg, s', c, at) == Judge(cfg, s, c, at)
  {
    assert forall i :: i in Sampled(c) ==>
      KeyReady(s', i, at) == KeyReady(s, i, at)
      && KeyCooling(s', i, at) == KeyCooling(s, i, at) && KeyUnusable(s', i) == KeyUnusable(s, i);
    assert c.a in Sampled(c);
    assert AnyKeyReady(s', c, at) == AnyKeyReady(s, c, at);
    assert KeyVerdict(s', c, at) == KeyVerdict(s, c, at);
  }

  lemma UnopenedLooksAlike(e: ModelEntry, group: int, now: nat, th: Thresholds)
    requires !OpensCircuit(RecordFailure(e, group, now, th).1)
    ensures LooksAlike(e, RecordFailure(e, group, now, th).0)
  {
  }

  /** A generic 429 touches no other route, unless that very call opened the model's circuit. */
  lemma RateLimitIsolated(cfg: Config, s: Table, t: RouteTarget, attempt: nat, streak: nat, hint: Option<nat>,
                          jitter: real, now: nat, c: Candidate, at: nat)
    requires CandidateId(cfg, c) != TargetId(cfg, t)
    requires c.model != t.model || !OpensCircuit(FailTransition(cfg, s, t, now))
    ensures Judge(cfg, NoteRateLimited(cfg, s, t, attempt, streak, hint, jitter, now), c, at) == Judge(cfg, s, c, at)
  {
    hide RateLimitCooldown, RecordFailure, Judge, Deadline;
    if c.model == t.model { UnopenedLooksAlike(ModelOf(s, t.model), cfg.hash(t.group), now, cfg.thresholds); }
    hide LooksAlike;
    JudgeReads(cfg, s, NoteRateLimited(cfg, s, t, attempt, streak, hint, jitter, now), c, at);
  }

  /** The limited route itself waits out its cooldown while its model's circuit stays closed. */
  lemma RateLimitedRouteWaits(cfg: Config, s: Table, t: RouteTarget, attempt: nat, streak: nat, hint: Option<nat>,
                              jitter: real, now: nat, c: Candidate, at: nat)
    requires CandidateId(cfg, c) == TargetId(cfg, t)
    requires at < Deadline(now, RateLimitCooldown(cfg, attempt, streak, hint, jitter))
    requires ModelOf(NoteRateLimited(cfg, s, t, attempt, streak, hint, jitter, now), c.model).state.Closed?
    ensures !Judge(cfg, NoteRateLimited(cfg, s, t, attempt, streak, hint, jitter, now), c, at).dial.Ready?
  {
    hide BarrierDuration, RecordFailure;
    var s' := NoteRateLimited(cfg, s, t, attempt, streak, hint, jitter, now);
    ReadyExactly(cfg, s', c, at);
    var until := Deadline(now, RateLimitCooldown(cfg, attempt, streak, hint, jitter));
    assert RouteOf(s', CandidateId(cfg, c)).coolingUntil == Some(until);
  }

  /** If it did open it, every candidate of that model waits for the open period. */
  lemma OpenedModelWaits(cfg: Config, s: Table, t: RouteTarget, now: nat, c: Candidate, at: nat)
    requires OpensCircuit(FailTransition(cfg, s, t, now)) && c.model == t.model
    requires at < Deadline(now, cfg.thresholds.openFor)
    ensures Judge(cfg, FailModel(cfg, s, t, now), c, at).dial.Blocked?
  {
    hide Observe;
  }

  /** A 404 touches no other route, unless it completes the evidence that takes the model out. */
  lemma ModelMissingIsolated(cfg: Config, s: Table, t: RouteTarget, now: nat, c: Candidate, at: nat)
    requires CandidateId(cfg, c) != TargetId(cfg, t)
    requires c.model != t.model
          || |Observe(ModelOf(s, t.model).missingGroups, cfg.hash(t.group), now, cfg.thresholds.missingWindow)|
             < cfg.thresholds.missingGroups
    ensures Judge(cfg, NoteModelMissing(cfg, s, t, now), c, at) == Judge(cfg, s, c, at)
  {
    hide Observe;
    JudgeReads(cfg, s, NoteModelMissing(cfg, s, t, now), c, at);
  }

  /** The route that answered 404 is not dialed again before its cooldown ends. */
  lemma MissingRouteWaits(cfg: Config, s: Table, t: RouteTarget, now: nat, c: Candidate, at: nat)
    requires CandidateId(cfg, c) == TargetId(cfg, t) && at < Deadline(now, cfg.thresholds.missingFor)
    ensures !Judge(cfg, NoteModelMissing(cfg, s, t, now), c, at).dial.Ready?
  {
    hide Observe, RecordMissing;
    var s' := NoteModelMissing(cfg, s, t, now);
    ReadyExactly(cfg, s', c, at);
    assert RouteOf(s', CandidateId(cfg, c)).disabledUntil == Some(Deadline(now, cfg.thresholds.missingFor));
  }

  /** A 401 touches only candidates that sample the rejected key. */
  lemma AuthenticationIsolated(cfg: Config, s: Table, t: RouteTarget, c: Candidate, at: nat)
    requires t.key !in Sampled(c)
    ensures Judge(cfg, NoteAuthenticationFailure(cfg, s, t), c, at) == Judge(cfg, s, c, at)
  {
    JudgeReads(cfg, s, NoteAuthenticationFailure(cfg, s, t), c, at);
  }

  /** Exhaustion touches only candidates of the exhausted group. */
  lemma QuotaIsolated(cfg: Config, s: Table, t: RouteTarget, cooldown: nat, now: nat,
                      rotation: nat, model: Name, group: Name, ordinal: nat, at: nat)
    requires group in cfg.groups && group != t.group
    ensures var c := CandidateFor(cfg, rotation, model, group, ordinal);
            Judge(cfg, NoteQuotaExhausted(cfg, s, t, cooldown, now), c, at) == Judge(cfg, s, c, at)
  {
    var c := CandidateFor(cfg, rotation, model, group, ordinal);
    hide CandidateFor;
    JudgeReads(cfg, s, NoteQuotaExhausted(cfg, s, t, cooldown, now), c, at);
  }

  /**
   * A transient failure reaches other candidates only through the failed key, only when another group exists,
   * and for a quarter of a second at most; a longer cooldown the key already had is the one thing it can end.
   */
  lemma TransientIsolated(cfg: Config, s: Table, t: RouteTarget, attempt: nat, hint: Option<nat>, jitter: real,
                          now: nat, c: Candidate, at: nat)
    requires c.model != t.model || !OpensCircuit(FailTransition(cfg, s, t, now))
    requires t.key !in Sampled(c) || !KeyHasAlternatives(cfg, t)
          || (now + HEALTHY_ROUTE_STEP <= at && Live(KeyOf(s, t.key).coolingUntil, at).None?)
    ensures Judge(cfg, NoteTransientFailure(cfg, s, t, attempt, hint, jitter, now), c, at) == Judge(cfg, s, c, at)
  {
    hide BarrierDuration, RecordFailure;
    hide Judge;
    if c.model == t.model { UnopenedLooksAlike(ModelOf(s, t.model), cfg.hash(t.group), now, cfg.thresholds); }
    JudgeReads(cfg, s, NoteTransientFailure(cfg, s, t, attempt, hint, jitter, now), c, at);
  }

  lemma FailedKey(cfg: Config, s: Table, t: RouteTarget, attempt: nat, hint: Option<nat>, jitter: real, now: nat)
    ensures var s' := NoteTransientFailure(cfg, s, t, attempt, hint, jitter, now);
            var until := Some(Deadline(now, TransientCooldown(cfg, t, attempt, hint, jitter)));
      && s'.routes == s.routes && s'.groups == s.groups && |s'.keys| == |s.keys|
      && (forall i :: 0 <= i < |s.keys| && i != t.key ==> s'.keys[i] == s.keys[i])
      && (t.key < |s.keys| ==>
            s'.keys[t.key] ==
              if KeyHasAlternatives(cfg, t) then s.keys[t.key].(coolingUntil := until) else s.keys[t.key])
  {
    hide BarrierDuration, RecordFailure, TransientCooldown, KeyHasAlternatives;
  }

  lemma FailedModel(cfg: Config, s: Table, t: RouteTarget, attempt: nat, hint: Option<nat>, jitter: real, now: nat,
                    m: Name)
    requires m != t.model || !OpensCircuit(FailTransition(cfg, s, t, now))
    ensures LooksAlike(ModelOf(s, m), ModelOf(NoteTransientFailure(cfg, s, t, attempt, hint, jitter, now), m))
  {
    hide BarrierDuration, RecordFailure, TransientCooldown, KeyHasAlternatives;
    if m == t.model { UnopenedLooksAlike(ModelOf(s, m), cfg.hash(t.group), now, cfg.thresholds); }
  }

  /**
   * A transient failure does not cool its route. While the failed key cools, a route that was ready stays ready exactly
   * when no other group exists, for then the key does not cool at all, or when another key it samples is ready.
   */
  lemma TransientRouteStaysReady(cfg: Config, s: Table, t: RouteTarget, attempt: nat, hint: Option<nat>, jitter: real,
                                 now: nat, c: Candidate, at: nat)
    requires t.key in Sampled(c) && t.key < |s.keys|
    requires c.model != t.model || !OpensCircuit(FailTransition(cfg, s, t, now))
    requires Judge(cfg, s, c, at).dial.Ready? && at < Deadline(now, TransientCooldown(cfg, t, attempt, hint, jitter))
    ensures Judge(cfg, NoteTransientFailure(cfg, s, t, attempt, hint, jitter, now), c, at).dial.Ready? <==>
      !KeyHasAlternatives(cfg, t) || exists i :: i in Sampled(c) && i != t.key && KeyReady(s, i, at)
  {
    var s' := NoteTransientFailure(cfg, s, t, attempt, hint, jitter, now);
    FailedKey(cfg, s, t, attempt, hint, jitter, now);
    FailedModel(cfg, s, t, attempt, hint, jitter, now, c.model);
    hide Judge, NoteTransientFailure, KeyHasAlternatives, TransientCooldown, Sampled;
    ReadyExactly(cfg, s, c, at);
    ReadyExactly(cfg, s', c, at);
    assert RouteOf(s', CandidateId(cfg, c)) == RouteOf(s, CandidateId(cfg, c));
    assert GroupOf(s', c.group) == GroupOf(s, c.group);
    forall i: nat | i != t.key ensures KeyReady(s', i, at) <==> KeyReady(s, i, at) {}
    assert KeyReady(s', t.key, at) ==> !KeyHasAlternatives(cfg, t);
    assert !KeyHasAlternatives(cfg, t) ==> (KeyReady(s', t.key, at) <==> KeyReady(s, t.key, at));
  }

  /**
   * Once its own cooldown has passed, a transient failure still makes a difference to a candidate exactly when it cut a
   * longer cooldown short: the candidate samples the failed key, which is not rejected and would still be cooling, no
   * other key it samples is ready, and nothing but its keys keeps it from being dialed.
   */
  lemma TransientEndsExactly(cfg: Config, s: Table, t: RouteTarget, attempt: nat, hint: Option<nat>, jitter: real,
                             now: nat, c: Candidate, at: nat)
    requires t.key < |s.keys| && Deadline(now, TransientCooldown(cfg, t, attempt, hint, jitter)) <= at
    requires c.model != t.model || !OpensCircuit(FailTransition(cfg, s, t, now))
    ensures var s' := NoteTransientFailure(cfg, s, t, attempt, hint, jitter, now);
      Judge(cfg, s', c, at).dial.Ready? != Judge(cfg, s, c, at).dial.Ready? <==>
        && KeyHasAlternatives(cfg, t) && t.key in Sampled(c)
        && Live(s.keys[t.key].coolingUntil, at).Some? && !s.keys[t.key].unusable
        && (forall i :: i in Sampled(c) && i != t.key ==> !KeyReady(s, i, at))
        && PassesRouteGates(cfg, s, c, at)
  {
    var s' := NoteTransientFailure(cfg, s, t, attempt, hint, jitter, now);
    FailedKey(cfg, s, t, attempt, hint, jitter, now);
    FailedModel(cfg, s, t, attempt, hint, jitter, now, c.model);
    hide Judge, NoteTransientFailure, KeyHasAlternatives, TransientCooldown, Sampled;
    ReadyExactly(cfg, s, c, at);
    ReadyExactly(cfg, s', c, at);
    assert RouteOf(s', CandidateId(cfg, c)) == RouteOf(s, CandidateId(cfg, c));
    assert GroupOf(s', c.group) == GroupOf(s, c.group);
    assert PassesRouteGates(cfg, s', c, at) == PassesRouteGates(cfg, s, c, at);
    hide PassesRouteGates;
    forall i: nat | i != t.key ensures KeyReady(s', i, at) <==> KeyReady(s, i, at) {}
  }

  /**
   * A success makes its own route dialable through the key that served it, at every later instant, unless a 401
   * rejected that key.
   */
  lemma SuccessHeals(cfg: Config, s: Table, t: RouteTarget, cost: nat, c: Candidate, at: nat)
    requires c.model == t.model && c.group == t.group && t.key in Sampled(c) && t.key < |s.keys|
    ensures !s.keys[t.key].unusable ==> Judge(cfg, NoteSuccess(cfg, s, t, cost), c, at).dial.Ready?
  {
    var s' := NoteSuccess(cfg, s, t, cost);
    hide Judge;
    ReadyExactly(cfg, s', c, at);
    assert RouteOf(s', CandidateId(cfg, c)) == FRESH_ROUTE && GroupOf(s', c.group) == None;
    assert s'.keys[t.key].unusable == s.keys[t.key].unusable && s'.keys[t.key].coolingUntil == None;
  }
}

/** Exhausted quota groups and the cooldown ladder, over runs. */
module RunCooldowns {
  import opened Options
  import opened Backoff
  import opened ModelCircuit
  import opened Routing
  import opened Planner
  import opened Runs
  import opened RunInvariants

  // --- an exhausted group stays out -------------------------------------------------------

  /** Nobody succeeds on the group and nobody exhausts it again. */
  predicate Undisturbed(es: seq<Event>, group: Name) {
    forall e :: e in es ==> !((e.Served? || e.QuotaExhausted?) && e.target.group == group)
  }

  lemma StepKeepsGroupCooling(cfg: Config, w: World, e: Event, group: Name, until: nat)
    requires GroupOf(w.table, group) == Some(until) && EndOf(w, e) < until
    requires !((e.Served? || e.QuotaExhausted?) && e.target.group == group)
    ensures GroupOf(Runs.Step(cfg, w, e).table, group) == Some(until)
  {
    if LookingEvent(e) {
      hide TableAfter, EndOf;
      LookingStep(cfg, w, e);
      assert Live(GroupOf(w.table, group), EndOf(w, e)) == Live(GroupOf(TableAfter(cfg, w, e), group), EndOf(w, e));
    } else {
      hide Plan, Followup, AfterDial, BarrierDuration, RecordFailure, RecordMissing, EndOf;
    }
  }

  lemma ClockRuns(cfg: Config, w: World, e: Event)
    ensures w.clock <= Runs.Step(cfg, w, e).clock
  {
    hide TableAfter;
  }

  lemma {:induction false} RunKeepsGroupCooling(cfg: Config, w: World, es: seq<Event>, group: Name, until: nat)
    requires GroupOf(w.table, group) == Some(until) && Run(cfg, w, es).clock < until && Undisturbed(es, group)
    ensures GroupOf(Run(cfg, w, es).table, group) == Some(until)
  {
    hide TableAfter, OpensAfter, EndOf, GuardsAfter;
    if es != [] {
      var before := Run(cfg, w, es[..|es| - 1]);
      ClockRuns(cfg, before, es[|es| - 1]);
      RunKeepsGroupCooling(cfg, w, es[..|es| - 1], group, until);
      assert es[|es| - 1] in es;
      StepKeepsGroupCooling(cfg, before, es[|es| - 1], group, until);
    }
  }

  /**
   * After an explicit exhaustion no plan picks the group before its cooldown ends, for any profile, session,
   * rotation or skip set, as long as nobody succeeds on the group or exhausts it again.
   */
  lemma ExhaustedGroupIsNotPlanned(cfg: Config, w: World, dt: nat, t: RouteTarget, cooldown: nat, es: seq<Event>,
                                   spec: RouteSpec, tag: string, skipped: set<Identity>, now: nat, later: nat)
    requires Undisturbed(es, t.group)
    requires var end := Run(cfg, Runs.Step(cfg, w, QuotaExhausted(dt, t, cooldown)), es).clock;
             end <= now < Deadline(w.clock + dt, cooldown) && now <= later
    ensures var s := Run(cfg, Runs.Step(cfg, w, QuotaExhausted(dt, t, cooldown)), es).table;
            var r := Plan(cfg, s, spec, tag, skipped, now, later).1;
      r.Planned? ==> r.target.group != t.group
  {
    hide Run, Plan, Undisturbed;
    var w1 := Runs.Step(cfg, w, QuotaExhausted(dt, t, cooldown));
    var until := Deadline(w.clock + dt, cooldown);
    assert GroupOf(w1.table, t.group) == Some(until);
    RunKeepsGroupCooling(cfg, w1, es, t.group, until);
    var s := Run(cfg, w1, es).table;
    if Known(cfg, spec) {
      PlannedTargetIsHealthy(cfg, s, spec, tag, skipped, now, later);
    } else {
      UnknownIsRefused(cfg, s, spec, tag, skipped, now, later);
    }
  }

  // --- a missing route stays out --------------------------------------------------------------

  /** Nobody succeeds on the route. */
  predicate NoSuccessOn(cfg: Config, es: seq<Event>, id: RouteId) {
    forall e :: e in es ==> !(e.Served? && TargetId(cfg, e.target) == id)
  }

  lemma StepKeepsRouteDisabled(cfg: Config, w: World, e: Event, id: RouteId, at: nat)
    requires at <= w.clock && EndOf(w, e) < Deadline(at, cfg.thresholds.missingFor)
    requires var d := RouteOf(w.table, id).disabledUntil; d.Some? && Deadline(at, cfg.thresholds.missingFor) <= d.value
    requires !(e.Served? && TargetId(cfg, e.target) == id)
    ensures var d := RouteOf(Runs.Step(cfg, w, e).table, id).disabledUntil;
      d.Some? && Deadline(at, cfg.thresholds.missingFor) <= d.value
  {
    if LookingEvent(e) {
      hide TableAfter, EndOf;
      LookingStep(cfg, w, e);
      assert LiveRoute(RouteOf(w.table, id), EndOf(w, e)) == LiveRoute(RouteOf(TableAfter(cfg, w, e), id), EndOf(w, e));
    } else {
      hide Plan, Followup, AfterDial, BarrierDuration, RecordFailure, RecordMissing;
    }
  }

  lemma {:induction false} RunKeepsRouteDisabled(cfg: Config, w: World, es: seq<Event>, id: RouteId, at: nat)
    requires at <= w.clock && Run(cfg, w, es).clock < Deadline(at, cfg.thresholds.missingFor)
    requires var d := RouteOf(w.table, id).disabledUntil; d.Some? && Deadline(at, cfg.thresholds.missingFor) <= d.value
    requires NoSuccessOn(cfg, es, id)
    ensures var d := RouteOf(Run(cfg, w, es).table, id).disabledUntil;
      d.Some? && Deadline(at, cfg.thresholds.missingFor) <= d.value
    ensures at <= Run(cfg, w, es).clock
  {
    hide TableAfter, OpensAfter, EndOf, GuardsAfter, Deadline;
    if es != [] {
      var before := Run(cfg, w, es[..|es| - 1]);
      ClockRuns(cfg, before, es[|es| - 1]);
      RunKeepsRouteDisabled(cfg, w, es[..|es| - 1], id, at);
      assert es[|es| - 1] in es;
      StepKeepsRouteDisabled(cfg, before, es[|es| - 1], id, at);
    }
  }

  /** After a 404 no plan returns the route that answered it until it is due, unless somebody succeeds on it. */
  lemma MissingRouteIsNotPlanned(cfg: Config, w: World, dt: nat, t: RouteTarget, es: seq<Event>,
                                 spec: RouteSpec, tag: string, skipped: set<Identity>, now: nat, later: nat)
    requires NoSuccessOn(cfg, es, TargetId(cfg, t))
    requires var end := Run(cfg, Runs.Step(cfg, w, Event.Missing(dt, t)), es).clock;
             end <= now < Deadline(w.clock + dt, cfg.thresholds.missingFor) && now <= later
    ensures var s := Run(cfg, Runs.Step(cfg, w, Event.Missing(dt, t)), es).table;
            var r := Plan(cfg, s, spec, tag, skipped, now, later).1;
      r.Planned? ==> TargetId(cfg, r.target) != TargetId(cfg, t) && IdentityOf(cfg, r.target) != IdentityOf(cfg, t)
  {
    hide Run, Plan, NoSuccessOn, RecordMissing, Deadline;
    var w1 := Runs.Step(cfg, w, Event.Missing(dt, t));
    var until := Deadline(w.clock + dt, cfg.thresholds.missingFor);
    assert RouteOf(w1.table, TargetId(cfg, t)).disabledUntil == Some(until);
    RunKeepsRouteDisabled(cfg, w1, es, TargetId(cfg, t), w.clock + dt);
    var s := Run(cfg, w1, es).table;
    if Known(cfg, spec) {
      PlannedTargetIsHealthy(cfg, s, spec, tag, skipped, now, later);
    } else {
      UnknownIsRefused(cfg, s, spec, tag, skipped, now, later);
    }
  }

  lemma UnknownIsRefused(cfg: Config, s: Table, spec: RouteSpec, tag: string, skipped: set<Identity>, now: nat,
                         later: nat)
    requires !Known(cfg, spec)
    ensures Plan(cfg, s, spec, tag, skipped, now, later).1 == Unavailable(None)
  {
  }

  // --- the ladder climbs ---------------------------------------------------------------------

  predicate Hintless(e: Event, key: nat) {
    e.RateLimited? && e.target.key == key && e.hint.None?
  }

  /** A success, or a 429 with an authoritative hint, restarts the key's streak. */
  predicate Restarts(e: Event, key: nat) {
    (e.Served? && e.target.key == key) || (e.RateLimited? && e.target.key == key && e.hint.Some?)
  }

  function HintlessIn(es: seq<Event>, key: nat): nat {
    if es == [] then 0 else HintlessIn(es[..|es| - 1], key) + (if Hintless(es[|es| - 1], key) then 1 else 0)
  }

  /** Where a request last read a streak. */
  function LastRead(es: seq<Event>, reader: nat): (at: Option<nat>)
    ensures at.Some? ==> at.value < |es| && es[at.value].StreakRead? && es[at.value].reader == reader
  {
    if es == [] then None
    else
      var n := |es| - 1;
      if es[n].StreakRead? && es[n].reader == reader then Some(n) else LastRead(es[..n], reader)
  }

  /** As the code has it: each hintless report on the key first read its streak, and nothing restarts the streak. */
  predicate Reported(es: seq<Event>, key: nat) {
    forall j :: 0 <= j < |es| ==>
      !Restarts(es[j], key)
      && (Hintless(es[j], key) ==>
            LastRead(es[..j], es[j].reader).Some? && es[LastRead(es[..j], es[j].reader).value].target.key == key)
  }

  /** Report j read the streak before report i wrote it. */
  predicate Overlaps(es: seq<Event>, key: nat, i: nat, j: nat)
    requires i < j < |es|
  {
    && Hintless(es[i], key) && Hintless(es[j], key)
    && LastRead(es[..j], es[j].reader).Some? && LastRead(es[..j], es[j].reader).value < i
  }

  predicate NoOverlap(es: seq<Event>, key: nat) {
    forall i, j :: 0 <= i < j < |es| ==> !Overlaps(es, key, i, j)
  }

  /**
   * Steps other than a hintless report on the key leave its streak alone; a report writes what its request read, plus
   * one.
   */
  lemma RecordingStreak(cfg: Config, w: World, e: Event, key: nat)
    requires key < |w.table.keys| && !Restarts(e, key) && !LookingEvent(e)
    ensures var s := TableAfter(cfg, w, e);
      |s.keys| == |w.table.keys| && s.keys[key].streak ==
        if Hintless(e, key) then Min(StreakFor(w, e.reader, None) + 1, U32_MAX) else w.table.keys[key].streak
  {
    hide BarrierDuration, RecordFailure, RecordMissing, RecordSuccess, TakeProbe, ReleaseProbe, DropProbe;
    hide KeyHasAlternatives;
  }

  lemma StreakStep(cfg: Config, w: World, e: Event, key: nat)
    requires key < |w.table.keys| && !Restarts(e, key)
    ensures var s := TableAfter(cfg, w, e);
      |s.keys| == |w.table.keys| && s.keys[key].streak ==
        if Hintless(e, key) then Min(StreakFor(w, e.reader, None) + 1, U32_MAX) else w.table.keys[key].streak
  {
    hide TableAfter, EndOf;
    if LookingEvent(e) {
      LookingStep(cfg, w, e);
      assert LiveKey(w.table.keys[key], EndOf(w, e)) == LiveKey(TableAfter(cfg, w, e).keys[key], EndOf(w, e));
    } else {
      RecordingStreak(cfg, w, e, key);
    }
  }

  /** What a request holds is the streak as it was when it last read one. */
  lemma {:induction false} ReadingIsOld(cfg: Config, w: World, es: seq<Event>, reader: nat)
    requires LastRead(es, reader).Some?
    ensures var r := LastRead(es, reader).value;
      StreakFor(Run(cfg, w, es), reader, None) == KeyOf(Run(cfg, w, es[..r]).table, es[r].target.key).streak
  {
    hide TableAfter, OpensAfter, EndOf, GuardsAfter;
    var n := |es| - 1;
    var r := LastRead(es, reader).value;
    if r < n {
      assert es[..n][..r] == es[..r];
      ReadingIsOld(cfg, w, es[..n], reader);
    }
  }

  lemma KeysStay(cfg: Config, w: World, es: seq<Event>, key: nat)
    requires key < |w.table.keys| && forall e :: e in es ==> !Restarts(e, key)
    ensures |Run(cfg, w, es).table.keys| == |w.table.keys|
  {
    hide TableAfter, OpensAfter, EndOf, GuardsAfter;
    if es != [] {
      KeysStay(cfg, w, es[..|es| - 1], key);
      assert es[|es| - 1] in es;
      StreakStep(cfg, Run(cfg, w, es[..|es| - 1]), es[|es| - 1], key);
    }
  }

  lemma ReportedBefore(es: seq<Event>, key: nat, n: nat)
    requires Reported(es, key) && n <= |es|
    ensures Reported(es[..n], key) && forall e :: e in es[..n] ==> !Restarts(e, key)
    ensures NoOverlap(es, key) ==> NoOverlap(es[..n], key)
  {
    assert forall j :: 0 <= j < n ==> es[..n][j] == es[j] && es[..n][..j] == es[..j];
    if NoOverlap(es, key) {
      forall i, j | 0 <= i < j < n ensures !Overlaps(es[..n], key, i, j) { assert !Overlaps(es, key, i, j); }
    }
  }

  lemma {:induction false} HintlessGrows(es: seq<Event>, key: nat, n: nat)
    requires n <= |es|
    ensures HintlessIn(es[..n], key) <= HintlessIn(es, key)
    ensures HintlessIn(es[..n], key) == HintlessIn(es, key) <==> forall i :: n <= i < |es| ==> !Hintless(es[i], key)
  {
    if n < |es| {
      var last := |es| - 1;
      assert es[..last][..n] == es[..n];
      HintlessGrows(es[..last], key, n);
      assert forall i :: n <= i < last ==> es[..last][i] == es[i];
    } else {
      assert es[..n] == es;
    }
  }

  function StreakAfter(cfg: Config, w: World, es: seq<Event>, key: nat): nat {
    KeyOf(Run(cfg, w, es).table, key).streak
  }

  /** The last event, if it is a report: its value in terms of the streak its request read. */
  lemma LastReport(cfg: Config, w: World, es: seq<Event>, key: nat)
    requires key < |w.table.keys| && es != [] && Reported(es, key)
    ensures var n := |es| - 1;
      if Hintless(es[n], key) then
        && LastRead(es[..n], es[n].reader).Some?
        && StreakAfter(cfg, w, es, key) ==
             Min(StreakAfter(cfg, w, es[..LastRead(es[..n], es[n].reader).value], key) + 1, U32_MAX)
      else StreakAfter(cfg, w, es, key) == StreakAfter(cfg, w, es[..n], key)
  {
    hide TableAfter, OpensAfter, EndOf, GuardsAfter;
    var n := |es| - 1;
    var before := Run(cfg, w, es[..n]);
    ReportedBefore(es, key, n);
    KeysStay(cfg, w, es[..n], key);
    StreakStep(cfg, before, es[n], key);
    if Hintless(es[n], key) {
      var r := LastRead(es[..n], es[n].reader).value;
      assert es[..n][..r] == es[..r] && es[..n][r] == es[r];
      ReadingIsOld(cfg, w, es[..n], es[n].reader);
    }
  }

  /** Reports never raise the streak by more than their number, whatever the interleaving. */
  lemma {:induction false} StreakAtMost(cfg: Config, w: World, es: seq<Event>, key: nat)
    requires key < |w.table.keys| && Reported(es, key)
    ensures StreakAfter(cfg, w, es, key) <= w.table.keys[key].streak + HintlessIn(es, key)
    decreases |es|
  {
    hide Run, Reported;
    if es == [] {
      NoEvents(cfg, w);
    } else {
      var n := |es| - 1;
      LastReport(cfg, w, es, key);
      var m := if Hintless(es[n], key) then LastRead(es[..n], es[n].reader).value else n;
      ReportedBefore(es, key, m);
      StreakAtMost(cfg, w, es[..m], key);
      assert es[..n][..m] == es[..m];
      HintlessGrows(es[..n], key, m);
    }
  }

  lemma NoEvents(cfg: Config, w: World)
    ensures Run(cfg, w, []) == w
  {
  }

  /** If nothing is reported between m and a last event that, if it is a report, read at m, no overlap is added. */
  lemma NoNewOverlap(es: seq<Event>, key: nat, m: nat)
    requires es != [] && m < |es| && forall i :: m <= i < |es| - 1 ==> !Hintless(es[i], key)
    requires Hintless(es[|es| - 1], key) ==> LastRead(es[..|es| - 1], es[|es| - 1].reader) == Some(m)
    ensures NoOverlap(es[..m], key) ==> NoOverlap(es, key)
  {
    if NoOverlap(es[..m], key) {
      forall i, j | 0 <= i < j < |es| ensures !Overlaps(es, key, i, j) {
        if j < m {
          assert es[..m][i] == es[i] && es[..m][j] == es[j] && es[..m][..j] == es[..j];
          assert !Overlaps(es[..m], key, i, j);
        }
      }
    }
  }

  /** Without an overlap nothing was reported since the last report read the streak. */
  lemma NothingSinceRead(es: seq<Event>, key: nat, m: nat)
    requires es != [] && m < |es| && NoOverlap(es, key)
    requires if Hintless(es[|es| - 1], key) then LastRead(es[..|es| - 1], es[|es| - 1].reader) == Some(m)
             else m == |es| - 1
    ensures forall i :: m <= i < |es| - 1 ==> !Hintless(es[i], key)
  {
    forall i | m <= i < |es| - 1 ensures !Hintless(es[i], key) {
      assert !Overlaps(es, key, i, |es| - 1);
    }
  }

  /**
   * The streak counts the key's hintless 429s exactly when no two of them overlap, one reading the streak before the
   * other has written it.
   */
  lemma {:induction false} StreakCountsExactly(cfg: Config, w: World, es: seq<Event>, key: nat)
    requires key < |w.table.keys| && Reported(es, key)
    requires w.table.keys[key].streak + HintlessIn(es, key) <= U32_MAX
    ensures StreakAfter(cfg, w, es, key) == w.table.keys[key].streak + HintlessIn(es, key) <==> NoOverlap(es, key)
    decreases |es|
  {
    hide Run, Reported, StreakAfter, NoOverlap;
    if es == [] {
      StartingStreak(cfg, w, key);
    } else {
      var n := |es| - 1;
      LastReport(cfg, w, es, key);
      var m := if Hintless(es[n], key) then LastRead(es[..n], es[n].reader).value else n;
      ReportedBefore(es, key, m);
      assert es[..n][..m] == es[..m] && forall i :: 0 <= i < n ==> es[..n][i] == es[i];
      HintlessGrows(es[..n], key, m);
      StreakCountsExactly(cfg, w, es[..m], key);
      StreakAtMost(cfg, w, es[..m], key);
      if forall i :: m <= i < n ==> !Hintless(es[i], key) { NoNewOverlap(es, key, m); }
      if NoOverlap(es, key) { NothingSinceRead(es, key, m); }
    }
  }

  lemma StartingStreak(cfg: Config, w: World, key: nat)
    requires key < |w.table.keys|
    ensures StreakAfter(cfg, w, [], key) == w.table.keys[key].streak && NoOverlap([], key)
  {
  }

  /** Without overlaps the streak counts them for every number of reports, up to where the counter saturates. */
  lemma {:induction false} StreakCounts(cfg: Config, w: World, es: seq<Event>, key: nat)
    requires key < |w.table.keys| && w.table.keys[key].streak <= U32_MAX && Reported(es, key) && NoOverlap(es, key)
    ensures StreakAfter(cfg, w, es, key) == Min(w.table.keys[key].streak + HintlessIn(es, key), U32_MAX)
    decreases |es|
  {
    hide Run, Reported, StreakAfter, NoOverlap;
    if es == [] {
      StartingStreak(cfg, w, key);
    } else {
      var n := |es| - 1;
      LastReport(cfg, w, es, key);
      var m := if Hintless(es[n], key) then LastRead(es[..n], es[n].reader).value else n;
      ReportedBefore(es, key, m);
      assert es[..n][..m] == es[..m] && forall i :: 0 <= i < n ==> es[..n][i] == es[i];
      HintlessGrows(es[..n], key, m);
      NothingSinceRead(es, key, m);
      StreakCounts(cfg, w, es[..m], key);
    }
  }

  /** Whatever the overlaps, after a report the streak is at least one. */
  lemma {:induction false} StreakAtLeastOne(cfg: Config, w: World, es: seq<Event>, key: nat)
    requires key < |w.table.keys| && Reported(es, key)
    ensures HintlessIn(es, key) > 0 ==> StreakAfter(cfg, w, es, key) >= 1
    decreases |es|
  {
    hide Run, Reported, StreakAfter;
    if es != [] {
      LastReport(cfg, w, es, key);
      ReportedBefore(es, key, |es| - 1);
      StreakAtLeastOne(cfg, w, es[..|es| - 1], key);
    }
  }

  lemma LongStreakMeetsCeiling(attempt: nat, initial: nat, max: nat, hintCap: nat, streak: nat, n: nat, jitter: real)
    requires streak >= Min(n, U32_MAX)
    ensures BarrierDuration(attempt, initial, max, hintCap, streak, None, jitter)
         >= Min(Max(initial, 1) * Pow2(n), Ceiling(max))
  {
    hide BarrierDuration, Pow2, Jittered, Ceiling;
    var flat := if jitter < 0.0 then jitter else 0.0;
    var start := Max(initial, 1);
    LadderMonotone(attempt, attempt, initial, max, hintCap, streak, streak, flat, jitter);
    LadderClosedForm(attempt, initial, max, hintCap, streak, flat);
    var reached := Max(attempt - 1, streak);
    if n <= reached {
      Pow2Grows(n, reached);
      ScaledGrows(start, Pow2(n), Pow2(reached));
    } else {
      Pow2At32();
      Pow2Grows(32, reached);
      ScaledGrows(start, 0x1_0000_0000, Pow2(reached));
      CeilingBelow(max);
    }
  }

  lemma CeilingBelow(max: nat)
    ensures Ceiling(max) < 0x1_0000_0000
  {
  }

  /** The deadline the last event of the run puts on its route. */
  function CooledUntil(cfg: Config, w: World, es: seq<Event>): Option<nat>
    requires es != [] && es[|es| - 1].RateLimited?
  {
    RouteOf(Run(cfg, w, es).table, TargetId(cfg, es[|es| - 1].target)).coolingUntil
  }

  /** Without overlaps the last report read a streak that counts every report before it. */
  lemma LastReadingCounts(cfg: Config, w: World, es: seq<Event>, key: nat)
    requires es != [] && Hintless(es[|es| - 1], key)
    requires key < |w.table.keys| && w.table.keys[key].streak <= U32_MAX
    requires Reported(es, key) && NoOverlap(es, key)
    ensures var n := |es| - 1;
      StreakFor(Run(cfg, w, es[..n]), es[n].reader, None) >= Min(HintlessIn(es[..n], key), U32_MAX)
  {
    var n := |es| - 1;
    var m := LastRead(es[..n], es[n].reader).value;
    NothingSinceRead(es, key, m);
    ReportedBefore(es, key, m);
    assert es[..n][..m] == es[..m] && es[..n][m] == es[m] && forall i :: 0 <= i < n ==> es[..n][i] == es[i];
    HintlessGrows(es[..n], key, m);
    hide Run, HintlessIn, NoOverlap;
    StreakCounts(cfg, w, es[..m], key);
    ReadingIsOld(cfg, w, es[..n], es[n].reader);
  }

  /**
   * When no two reports overlap, a hintless 429 that follows n others on its key without a restart cools the route for
   * at least initial * 2^n, up to the ceiling.
   */
  lemma LadderClimbsAcrossRuns(cfg: Config, w: World, es: seq<Event>, key: nat)
    requires es != [] && Hintless(es[|es| - 1], key)
    requires key < |w.table.keys| && w.table.keys[key].streak <= U32_MAX
    requires Reported(es, key) && NoOverlap(es, key)
    ensures var n := |es| - 1;
      && CooledUntil(cfg, w, es).Some?
      && CooledUntil(cfg, w, es).value >= Run(cfg, w, es[..n]).clock + es[n].dt
           + Min(Max(cfg.cooldownInitial, 1) * Pow2(HintlessIn(es[..n], key)), Ceiling(cfg.cooldownMax))
  {
    hide BarrierDuration, Pow2, HintlessIn, NoOverlap, Reported, LastRead, TableAfter;
    var n := |es| - 1;
    var before := Run(cfg, w, es[..n]);
    LastReadingCounts(cfg, w, es, key);
    LongStreakMeetsCeiling(es[n].attempt, cfg.cooldownInitial, cfg.cooldownMax, cfg.maxModelCooldown,
                           StreakFor(before, es[n].reader, None), HintlessIn(es[..n], key), es[n].jitter);
    ReportCools(cfg, before, es[n]);
    RunEnds(cfg, w, es);
    hide Run;
  }

  lemma RunEnds(cfg: Config, w: World, es: seq<Event>)
    requires es != []
    ensures Run(cfg, w, es) == Runs.Step(cfg, Run(cfg, w, es[..|es| - 1]), es[|es| - 1])
  {
  }

  lemma ReportCools(cfg: Config, w: World, e: Event)
    requires e.RateLimited?
    ensures RouteOf(TableAfter(cfg, w, e), TargetId(cfg, e.target)).coolingUntil == Some(
      Deadline(w.clock + e.dt, RateLimitCooldown(cfg, e.attempt, StreakFor(w, e.reader, e.hint), e.hint, e.jitter)))
  {
    hide RateLimitCooldown, RecordFailure;
  }

  /** Two requests read the streak of one key before either writes it. */
  function Overlapping(t: RouteTarget): seq<Event> {
    var report := Event.RateLimited(0, 0, t, 1, None, 0.0);
    [StreakRead(0, t), StreakRead(1, t), report, report.(reader := 1)]
  }

  lemma OverlappingIsReported(t: RouteTarget)
    ensures var es := Overlapping(t);
      && Reported(es, t.key) && HintlessIn(es, t.key) == 2 && Overlaps(es, t.key, 2, 3)
      && LastRead(es[..3], 1) == Some(1)
  {
    var es := Overlapping(t);
    assert es[..4] == es && es[..4][..3] == es[..3] && es[..3][..2] == es[..2] && es[..2][..1] == es[..1];
    assert es[..1][..0] == [];
    assert HintlessIn(es[..1], t.key) == 0;
    assert HintlessIn(es[..2], t.key) == 0;
    assert HintlessIn(es[..3], t.key) == 1;
    assert LastRead(es[..1], 0) == Some(0);
    assert LastRead(es[..2], 0) == Some(0);
    assert LastRead(es[..2], 1) == Some(1);
    assert LastRead(es[..3], 1) == Some(1);
  }

  /** A lost update: after two hintless 429s that overlap the streak is one, and the ladder is a rung short. */
  lemma OverlapLosesAnUpdate(cfg: Config, t: RouteTarget)
    requires t.key < |cfg.groups|
    ensures StreakAfter(cfg, FreshWorld(cfg), Overlapping(t), t.key) == 1
  {
    var w, es := FreshWorld(cfg), Overlapping(t);
    assert w.table.keys[t.key].streak == 0;
    hide Run, Reported, HintlessIn, LastRead, StreakAfter, FreshWorld, Overlaps;
    OverlappingIsReported(t);
    assert Hintless(es[3], t.key) && es[3].reader == 1;
    LastReport(cfg, w, es, t.key);
    assert es[..1] == [StreakRead(0, t)];
    ReportedBefore(es, t.key, 1);
    LastReport(cfg, w, es[..1], t.key);
    assert es[..1][..0] == [];
    StartingStreak(cfg, w, t.key);
  }

  // --- a rejected key stays out -----------------------------------------------------------------

  predicate KeyRejected(s: Table, key: nat) {
    key < |s.keys| && s.keys[key].unusable
  }

  lemma RecordingKeepsRejected(cfg: Config, w: World, e: Event, key: nat)
    requires !LookingEvent(e) && KeyRejected(w.table, key)
    ensures KeyRejected(TableAfter(cfg, w, e), key)
  {
    hide BarrierDuration, RecordFailure, RecordMissing, RecordSuccess;
    hide TakeProbe, ReleaseProbe, DropProbe, KeyHasAlternatives;
  }

  lemma StepKeepsRejected(cfg: Config, w: World, e: Event, key: nat)
    requires KeyRejected(w.table, key)
    ensures KeyRejected(TableAfter(cfg, w, e), key)
  {
    hide TableAfter, EndOf;
    if LookingEvent(e) {
      LookingStep(cfg, w, e);
      assert LiveKey(w.table.keys[key], EndOf(w, e)) == LiveKey(TableAfter(cfg, w, e).keys[key], EndOf(w, e));
    } else {
      RecordingKeepsRejected(cfg, w, e, key);
    }
  }

  lemma {:induction false} RunKeepsRejected(cfg: Config, w: World, es: seq<Event>, key: nat)
    requires KeyRejected(w.table, key)
    ensures KeyRejected(Run(cfg, w, es).table, key)
  {
    hide TableAfter, OpensAfter, EndOf, GuardsAfter, KeyRejected;
    if es != [] {
      RunKeepsRejected(cfg, w, es[..|es| - 1], key);
      StepKeepsRejected(cfg, Run(cfg, w, es[..|es| - 1]), es[|es| - 1], key);
    }
  }

  /** Once a 401 rejected a key, nothing in any run brings it back, successes included: no later plan picks it. */
  lemma RejectedKeyIsNeverPlanned(cfg: Config, w: World, t: RouteTarget, es: seq<Event>,
                                  spec: RouteSpec, tag: string, skipped: set<Identity>, now: nat, later: nat)
    requires t.key < |w.table.keys| && now <= later
    ensures var s := Run(cfg, Runs.Step(cfg, w, Rejected(t)), es).table;
            var r := Plan(cfg, s, spec, tag, skipped, now, later).1;
      r.Planned? ==> r.target.key != t.key
  {
    hide Run, Plan, Winner, CandidatesOf, DialableIn;
    var w1 := Runs.Step(cfg, w, Rejected(t));
    assert KeyRejected(w1.table, t.key);
    RunKeepsRejected(cfg, w1, es, t.key);
    var s := Run(cfg, w1, es).table;
    if Known(cfg, spec) {
      PlanMeans(cfg, s, spec, tag, skipped, now, later);
    } else {
      UnknownIsRefused(cfg, s, spec, tag, skipped, now, later);
    }
  }
}
