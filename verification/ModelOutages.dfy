/** How long a model stays out once its circuit has opened or enough groups have reported it missing. */
module ModelOutages {
  import opened Options
  import opened Backoff
  import opened ModelCircuit
  import opened Routing
  import opened Planner
  import opened Runs
  import opened RunCooldowns

  /** Nobody succeeds on the model. */
  predicate NoSuccessWith(es: seq<Event>, m: Name) {
    forall e :: e in es ==> !(e.Served? && e.target.model == m)
  }

  predicate OpenUntil(e: ModelEntry, until: nat) {
    e.state.Open? && e.openUntil == Some(until)
  }

  predicate MissingUntil(e: ModelEntry, until: nat) {
    e.disabled && e.disabledUntil.Some? && until <= e.disabledUntil.value
  }

  /** No operation but a success ends an open period early, or a 404 period. */
  lemma OpKeepsOut(e: ModelEntry, op: ModelOp, th: Thresholds, until: nat, at: nat)
    requires !op.Succeeded? && (Timed(op) ==> op.now < until)
    ensures OpenUntil(e, until) ==> OpenUntil(Apply(e, op, th), until)
    ensures MissingUntil(e, until) && until == Deadline(at, th.missingFor) && (op.Missed? ==> at <= op.now) ==>
      MissingUntil(Apply(e, op, th), until)
  {
    hide Observe;
  }

  lemma OpsAreTimely(cfg: Config, w: World, e: Event, m: Name)
    requires !(e.Served? && e.target.model == m)
    ensures forall op :: op in OpsOf(cfg, w, e, m) ==>
      !op.Succeeded? && (Timed(op) ==> w.clock <= op.now <= EndOf(w, e))
  {
    hide TableAfter;
  }

  lemma StepKeepsOut(cfg: Config, w: World, e: Event, m: Name, until: nat, at: nat)
    requires !(e.Served? && e.target.model == m) && EndOf(w, e) < until
    ensures OpenUntil(ModelOf(w.table, m), until) ==> OpenUntil(ModelOf(Runs.Step(cfg, w, e).table, m), until)
    ensures MissingUntil(ModelOf(w.table, m), until) && until == Deadline(at, cfg.thresholds.missingFor)
            && at <= w.clock ==>
      MissingUntil(ModelOf(Runs.Step(cfg, w, e).table, m), until)
  {
    StepProjects(cfg, w, e, m);
    AtMostOne(cfg, w, e, m);
    OpsAreTimely(cfg, w, e, m);
    hide TableAfter, OpsOf, Apply, OpenUntil, MissingUntil, EndOf;
    var ops, before := OpsOf(cfg, w, e, m), ModelOf(w.table, m);
    assert ApplyAll(before, [], cfg.thresholds) == before;
    if ops != [] {
      assert ops == [ops[0]];
      ApplyOne(before, ops[0], cfg.thresholds);
      OpKeepsOut(before, ops[0], cfg.thresholds, until, at);
    }
  }

  lemma {:induction false} RunKeepsOut(cfg: Config, w: World, es: seq<Event>, m: Name, until: nat, at: nat)
    requires NoSuccessWith(es, m) && Run(cfg, w, es).clock < until && at <= w.clock
    ensures at <= Run(cfg, w, es).clock
    ensures OpenUntil(ModelOf(w.table, m), until) ==> OpenUntil(ModelOf(Run(cfg, w, es).table, m), until)
    ensures MissingUntil(ModelOf(w.table, m), until) && until == Deadline(at, cfg.thresholds.missingFor) ==>
      MissingUntil(ModelOf(Run(cfg, w, es).table, m), until)
  {
    hide TableAfter, OpensAfter, GuardsAfter, OpenUntil, MissingUntil;
    if es != [] {
      var before := Run(cfg, w, es[..|es| - 1]);
      ClockRuns(cfg, before, es[|es| - 1]);
      assert es[|es| - 1] in es;
      RunKeepsOut(cfg, w, es[..|es| - 1], m, until, at);
      StepKeepsOut(cfg, before, es[|es| - 1], m, until, at);
    }
  }

  lemma OutIsNotPlanned(cfg: Config, s: Table, m: Name, until: nat, spec: RouteSpec, tag: string,
                        skipped: set<Identity>, now: nat, later: nat)
    requires OpenUntil(ModelOf(s, m), until) || MissingUntil(ModelOf(s, m), until)
    requires now < until && now <= later
    ensures var r := Plan(cfg, s, spec, tag, skipped, now, later).1; r.Planned? ==> r.target.model != m
  {
    hide Plan, CandidatesOf;
    if Known(cfg, spec) {
      PlannedTargetIsHealthy(cfg, s, spec, tag, skipped, now, later);
    } else {
      UnknownIsRefused(cfg, s, spec, tag, skipped, now, later);
    }
  }

  /**
   * A recorded failure that opens a model's circuit keeps it out for the whole open period: in every run in which
   * nobody succeeds with the model, no plan of anybody returns it before that.
   */
  lemma OpenedModelIsNotPlanned(cfg: Config, w: World, e: Event, es: seq<Event>, spec: RouteSpec, tag: string,
                                skipped: set<Identity>, now: nat, later: nat)
    requires (e.RateLimited? || e.Transient?) && OpensCircuit(FailTransition(cfg, w.table, e.target, w.clock + e.dt))
    requires NoSuccessWith(es, e.target.model)
    requires var openFor := if cfg.thresholds.openFor < 86_400_000 then cfg.thresholds.openFor else 86_400_000;
      Run(cfg, Runs.Step(cfg, w, e), es).clock <= now < w.clock + e.dt + openFor && now <= later
    ensures var s := Run(cfg, Runs.Step(cfg, w, e), es).table;
            var r := Plan(cfg, s, spec, tag, skipped, now, later).1;
      r.Planned? ==> r.target.model != e.target.model
  {
    var w1, at, m := Runs.Step(cfg, w, e), w.clock + e.dt, e.target.model;
    var until := Deadline(at, cfg.thresholds.openFor);
    OpeningStep(cfg, w, e);
    hide Run, Runs.Step, Plan, OpenUntil, MissingUntil, NoSuccessWith;
    RunKeepsOut(cfg, w1, es, m, until, at);
    OutIsNotPlanned(cfg, Run(cfg, w1, es).table, m, until, spec, tag, skipped, now, later);
  }

  lemma OpeningStep(cfg: Config, w: World, e: Event)
    requires (e.RateLimited? || e.Transient?) && OpensCircuit(FailTransition(cfg, w.table, e.target, w.clock + e.dt))
    ensures var w1, at := Runs.Step(cfg, w, e), w.clock + e.dt;
      OpenUntil(ModelOf(w1.table, e.target.model), Deadline(at, cfg.thresholds.openFor)) && w1.clock == at
  {
    hide BarrierDuration, Observe, KeyHasAlternatives, Deadline;
  }

  /** Likewise a 404 that completes the evidence against a model keeps it out for the configured time. */
  lemma MissingModelIsNotPlanned(cfg: Config, w: World, e: Event, es: seq<Event>, spec: RouteSpec, tag: string,
                                 skipped: set<Identity>, now: nat, later: nat)
    requires e.Missing? && NoSuccessWith(es, e.target.model)
    requires var before, after := ModelOf(w.table, e.target.model), ModelOf(Runs.Step(cfg, w, e).table, e.target.model);
      !before.disabled && after.disabled
    requires var missingFor := if cfg.thresholds.missingFor < 86_400_000 then cfg.thresholds.missingFor else 86_400_000;
      Run(cfg, Runs.Step(cfg, w, e), es).clock <= now < w.clock + e.dt + missingFor && now <= later
    ensures var s := Run(cfg, Runs.Step(cfg, w, e), es).table;
            var r := Plan(cfg, s, spec, tag, skipped, now, later).1;
      r.Planned? ==> r.target.model != e.target.model
  {
    var w1, at, m := Runs.Step(cfg, w, e), w.clock + e.dt, e.target.model;
    var until := Deadline(at, cfg.thresholds.missingFor);
    VanishingStep(cfg, w, e);
    hide Run, Runs.Step, Plan, OpenUntil, MissingUntil, NoSuccessWith;
    RunKeepsOut(cfg, w1, es, m, until, at);
    OutIsNotPlanned(cfg, Run(cfg, w1, es).table, m, until, spec, tag, skipped, now, later);
  }

  lemma VanishingStep(cfg: Config, w: World, e: Event)
    requires e.Missing? && !ModelOf(w.table, e.target.model).disabled
    requires ModelOf(Runs.Step(cfg, w, e).table, e.target.model).disabled
    ensures var w1, at := Runs.Step(cfg, w, e), w.clock + e.dt;
      MissingUntil(ModelOf(w1.table, e.target.model), Deadline(at, cfg.thresholds.missingFor)) && w1.clock == at
  {
    hide Observe, Deadline;
  }
}
