/** Model circuits over whole runs of the table. */
module CircuitRuns {
  import opened Backoff
  import opened ModelCircuit
  import opened ReferenceCircuit
  import opened Routing
  import opened Runs

  lemma OpsWithinStep(cfg: Config, w: World, e: Event, m: Name)
    ensures var ops := OpsOf(cfg, w, e, m);
      |ops| <= 1 && (ops != [] && Timed(ops[0]) ==> w.clock <= ops[0].now <= EndOf(w, e))
    ensures w.clock <= EndOf(w, e)
  {
    hide TableAfter;
  }

  lemma Extends(ops: seq<ModelOp>, op: ModelOp, clock: nat)
    requires NeverBackwards(ops, 0) && ClockAfter(ops, 0) <= clock && (Timed(op) ==> clock <= op.now)
    ensures NeverBackwards(ops + [op], 0)
    ensures ClockAfter(ops + [op], 0) <= TimeOf(op, clock)
  {
  }

  /** The operations a model sees along a run are in time order. */
  lemma {:induction false} ProjectionIsChronological(cfg: Config, es: seq<Event>, m: Name)
    ensures NeverBackwards(Project(cfg, FreshWorld(cfg), es, m), 0)
    ensures ClockAfter(Project(cfg, FreshWorld(cfg), es, m), 0) <= Run(cfg, FreshWorld(cfg), es).clock
  {
    hide TableAfter, OpsOf, OpensAfter, EndOf;
    if es != [] {
      var before, w := es[..|es| - 1], Run(cfg, FreshWorld(cfg), es[..|es| - 1]);
      ProjectionIsChronological(cfg, before, m);
      var so_far, ops := Project(cfg, FreshWorld(cfg), before, m), OpsOf(cfg, w, es[|es| - 1], m);
      OpsWithinStep(cfg, w, es[|es| - 1], m);
      if ops == [] {
        assert so_far + ops == so_far;
      } else {
        assert ops == [ops[0]];
        Extends(so_far, ops[0], w.clock);
      }
    }
  }

  lemma FreshModel(cfg: Config, es: seq<Event>, m: Name)
    ensures ModelOf(Run(cfg, FreshWorld(cfg), es).table, m)
         == ApplyAll(FRESH_MODEL, Project(cfg, FreshWorld(cfg), es, m), cfg.thresholds)
  {
    RunProjects(cfg, FreshWorld(cfg), es, m);
  }

  /** The model's unpruned history along a run: what it logged, which leaves out the failures of half-open probes. */
  function HistoryOf(cfg: Config, es: seq<Event>, m: Name): Reference {
    RefApplyAll(FRESH_REFERENCE, Project(cfg, FreshWorld(cfg), es, m), cfg.thresholds)
  }

  predicate FailureEvent(e: Event) {
    e.RateLimited? || e.Transient?
  }

  function FailureLog(cfg: Config, es: seq<Event>, e: Event): seq<Evidence>
    requires FailureEvent(e)
  {
    HistoryOf(cfg, es, e.target.model).failures
    + [Evidence(cfg.hash(e.target.group), Run(cfg, FreshWorld(cfg), es).clock + e.dt)]
  }

  lemma FailureStep(cfg: Config, w: World, e: Event)
    requires FailureEvent(e)
    ensures ModelOf(TableAfter(cfg, w, e), e.target.model)
         == RecordFailure(ModelOf(w.table, e.target.model), cfg.hash(e.target.group), w.clock + e.dt, cfg.thresholds).0
  {
    hide BarrierDuration, RecordFailure;
  }

  /**
   * After any run, a failure opens a Closed model circuit exactly when the unpruned log since the last clear, which
   * leaves out the failures of half-open probes, names enough distinct quota groups inside the window.
   */
  lemma TripsExactlyInRuns(cfg: Config, es: seq<Event>, e: Event)
    requires FailureEvent(e)
    requires ModelOf(Run(cfg, FreshWorld(cfg), es).table, e.target.model).state.Closed?
    ensures var w := Run(cfg, FreshWorld(cfg), es);
            var log, now := FailureLog(cfg, es, e), w.clock + e.dt;
            ModelOf(Step(cfg, w, e).table, e.target.model).state.Open? <==>
              |GroupsInWindow(log, now, cfg.thresholds.tripWindow)| >= cfg.thresholds.tripGroups
  {
    hide Project, Run, RefApplyAll, ApplyAll, GroupsInWindow, TableAfter, OpensAfter, Observe;
    var w, m := Run(cfg, FreshWorld(cfg), es), e.target.model;
    FailureStep(cfg, w, e);
    FreshModel(cfg, es, m);
    ProjectionIsChronological(cfg, es, m);
    TripsExactly(Project(cfg, FreshWorld(cfg), es, m), cfg.hash(e.target.group), w.clock + e.dt, cfg.thresholds);
  }

  /** Likewise, if no half-open probe failed since the last clear, exactly when every failure since then does. */
  lemma TripsOnEveryFailureInRuns(cfg: Config, es: seq<Event>, e: Event)
    requires FailureEvent(e)
    requires ModelOf(Run(cfg, FreshWorld(cfg), es).table, e.target.model).state.Closed?
    requires !ProbeLost(Project(cfg, FreshWorld(cfg), es, e.target.model), cfg.thresholds)
    ensures var w := Run(cfg, FreshWorld(cfg), es);
            var every := EveryFailure(Project(cfg, FreshWorld(cfg), es, e.target.model), cfg.thresholds)
                         + [Evidence(cfg.hash(e.target.group), w.clock + e.dt)];
            ModelOf(Step(cfg, w, e).table, e.target.model).state.Open? <==>
              |GroupsInWindow(every, w.clock + e.dt, cfg.thresholds.tripWindow)| >= cfg.thresholds.tripGroups
  {
    hide Project, Run, RefApplyAll, GroupsInWindow, Step, ProbeLost, EveryFailure;
    TripsExactlyInRuns(cfg, es, e);
    LogsAgreeExactly(Project(cfg, FreshWorld(cfg), es, e.target.model), cfg.thresholds);
  }

  /** A 404 makes a served model missing exactly when the complete 404 log names enough distinct groups. */
  lemma GoesMissingExactlyInRuns(cfg: Config, es: seq<Event>, e: Event)
    requires e.Missing?
    requires !ModelOf(Run(cfg, FreshWorld(cfg), es).table, e.target.model).disabled
    ensures var w := Run(cfg, FreshWorld(cfg), es);
            var log := HistoryOf(cfg, es, e.target.model).misses + [Evidence(cfg.hash(e.target.group), w.clock + e.dt)];
            ModelOf(Step(cfg, w, e).table, e.target.model).disabled <==>
              |GroupsInWindow(log, w.clock + e.dt, cfg.thresholds.missingWindow)| >= cfg.thresholds.missingGroups
  {
    hide Project, Run, RefApplyAll, ApplyAll, GroupsInWindow;
    var w, m := Run(cfg, FreshWorld(cfg), es), e.target.model;
    FreshModel(cfg, es, m);
    ProjectionIsChronological(cfg, es, m);
    GoesMissingExactly(Project(cfg, FreshWorld(cfg), es, m), cfg.hash(e.target.group), w.clock + e.dt, cfg.thresholds);
  }

  // --- one account alone ------------------------------------------------------------

  /** Every failure and every 404 recorded against the model comes from one (hashed) quota group. */
  predicate OneAccount(cfg: Config, es: seq<Event>, m: Name, group: int) {
    forall e :: e in es && (FailureEvent(e) || e.Missing?) && e.target.model == m ==> cfg.hash(e.target.group) == group
  }

  lemma OneAccountOps(cfg: Config, w: World, e: Event, m: Name, group: int)
    requires (FailureEvent(e) || e.Missing?) && e.target.model == m ==> cfg.hash(e.target.group) == group
    ensures OnlyGroup(OpsOf(cfg, w, e, m), group)
  {
    hide TableAfter, EndOf;
  }

  lemma {:induction false} OneAccountProjects(cfg: Config, w: World, es: seq<Event>, m: Name, group: int)
    requires OneAccount(cfg, es, m, group)
    ensures OnlyGroup(Project(cfg, w, es, m), group)
  {
    hide OpsOf, Run;
    if es != [] {
      OneAccountProjects(cfg, w, es[..|es| - 1], m, group);
      assert es[|es| - 1] in es;
      OneAccountOps(cfg, Run(cfg, w, es[..|es| - 1]), es[|es| - 1], m, group);
    }
  }

  /** With thresholds of two or more, no run in which one account alone fails ever opens the model or takes it out. */
  lemma OneAccountNeverDisablesAModel(cfg: Config, es: seq<Event>, m: Name, group: int)
    requires OneAccount(cfg, es, m, group)
    ensures var e := ModelOf(Run(cfg, FreshWorld(cfg), es).table, m);
      && (cfg.thresholds.tripGroups >= 2 ==> e.state.Closed?)
      && (cfg.thresholds.missingGroups >= 2 ==> !e.disabled)
  {
    hide Project, Run, ApplyAll, OnlyGroup;
    FreshModel(cfg, es, m);
    OneAccountProjects(cfg, FreshWorld(cfg), es, m, group);
    OneAccountNeverTrips(Project(cfg, FreshWorld(cfg), es, m), group, cfg.thresholds);
  }

  // --- counting transitions into Open --------------------------------------------------

  /** The models whose circuit is Open after the step and was not before. */
  function JustOpened(s: Table, s': Table): set<Name> {
    set m | m in s'.models && s'.models[m].state.Open? && !ModelOf(s, m).state.Open? :: m
  }

  function Openings(cfg: Config, w: World, es: seq<Event>): nat {
    if es == [] then 0
    else
      var before := Run(cfg, w, es[..|es| - 1]);
      Openings(cfg, w, es[..|es| - 1]) + |JustOpened(before.table, Step(cfg, before, es[|es| - 1]).table)|
  }

  /** Only a recorded failure moves a circuit into Open. */
  lemma OnlyFailuresOpen(cfg: Config, w: World, e: Event, m: Name)
    requires ModelOf(Step(cfg, w, e).table, m).state.Open? && !ModelOf(w.table, m).state.Open?
    ensures FailureEvent(e) && m == e.target.model
    ensures OpensCircuit(FailTransition(cfg, w.table, e.target, w.clock + e.dt))
  {
    StepProjects(cfg, w, e, m);
    var ops := OpsOf(cfg, w, e, m);
    OpsWithinStep(cfg, w, e, m);
    hide TableAfter;
    assert ApplyAll(ModelOf(w.table, m), [], cfg.thresholds) == ModelOf(w.table, m);
    assert ops == [ops[0]];
    ApplyOne(ModelOf(w.table, m), ops[0], cfg.thresholds);
    assert ops[0].Failed?;
  }

  lemma OpeningShows(cfg: Config, w: World, e: Event)
    requires FailureEvent(e) && OpensCircuit(FailTransition(cfg, w.table, e.target, w.clock + e.dt))
    ensures e.target.model in JustOpened(w.table, TableAfter(cfg, w, e))
  {
    FailureStep(cfg, w, e);
    hide TableAfter, Observe;
  }

  lemma StepCounts(cfg: Config, w: World, e: Event)
    ensures OpensAfter(cfg, w, e) == w.opens + |JustOpened(w.table, Step(cfg, w, e).table)|
  {
    var newly := JustOpened(w.table, Step(cfg, w, e).table);
    forall m | m in newly ensures FailureEvent(e) && m == e.target.model
                                   && OpensCircuit(FailTransition(cfg, w.table, e.target, w.clock + e.dt)) {
      OnlyFailuresOpen(cfg, w, e, m);
    }
    hide TableAfter, EndOf, FailTransition;
    if FailureEvent(e) && OpensCircuit(FailTransition(cfg, w.table, e.target, w.clock + e.dt)) {
      OpeningShows(cfg, w, e);
      assert newly == {e.target.model};
    } else {
      assert newly == {};
    }
  }

  /** Over every run the open counter is the number of circuit transitions into Open, neither more nor less. */
  lemma {:induction false} CounterIsExact(cfg: Config, w: World, es: seq<Event>)
    ensures Run(cfg, w, es).opens == w.opens + Openings(cfg, w, es)
  {
    hide TableAfter, OpensAfter, JustOpened;
    if es != [] {
      CounterIsExact(cfg, w, es[..|es| - 1]);
      StepCounts(cfg, Run(cfg, w, es[..|es| - 1]), es[|es| - 1]);
    }
  }
}
