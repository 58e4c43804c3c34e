/** One model's circuit, missing state and evidence, and the transitions the router applies to it. */
module ModelCircuit {
  import opened Options
  import opened Backoff

  datatype CircuitState = Closed | Open | HalfOpen
  datatype OpenReason = NoReason | DistinctQuotaGroups | ProbeFailed
  datatype Transition = Unchanged | Opened | Reopened | BackToClosed

  predicate OpensCircuit(t: Transition) {
    t.Opened? || t.Reopened?
  }

  /** A hashed quota group and the instant it last failed. */
  datatype Evidence = Evidence(group: int, at: nat)

  datatype ModelEntry = ModelEntry(
    state: CircuitState,
    openUntil: Option<nat>,
    reason: OpenReason,
    disabled: bool,
    disabledUntil: Option<nat>,
    probeInFlight: bool,
    failingGroups: seq<Evidence>,
    missingGroups: seq<Evidence>)

  const FRESH_MODEL := ModelEntry(Closed, None, NoReason, false, None, false, [], [])

  datatype Thresholds = Thresholds(
    tripGroups: nat, tripWindow: nat, openFor: nat,
    missingGroups: nat, missingWindow: nat, missingFor: nat)

  /** What stays of an evidence list when `group` is observed again at `now`. */
  function Retain(evidence: seq<Evidence>, group: int, now: nat, window: nat): seq<Evidence> {
    if evidence == [] then []
    else
      var e := evidence[0];
      var rest := Retain(evidence[1..], group, now, window);
      if e.group != group && now <= e.at + window then [e] + rest else rest
  }

  function Observe(evidence: seq<Evidence>, group: int, now: nat, window: nat): seq<Evidence> {
    Retain(evidence, group, now, window) + [Evidence(group, now)]
  }

  function TransitionCircuit(e: ModelEntry, now: nat, openFor: nat): (ModelEntry, Transition) {
    match e.state
    case Closed =>
      (e.(state := Open, openUntil := Some(Deadline(now, openFor)), reason := DistinctQuotaGroups,
          probeInFlight := false, failingGroups := []), Opened)
    case HalfOpen =>
      (e.(state := Open, openUntil := Some(Deadline(now, openFor)), reason := ProbeFailed,
          probeInFlight := false), Reopened)
    case Open => (e, Unchanged)
  }

  function CloseCircuit(e: ModelEntry): (ModelEntry, Transition) {
    if e.state.Closed? then (e, Unchanged)
    else (e.(state := Closed, reason := NoReason, probeInFlight := false, failingGroups := []), BackToClosed)
  }

  function RecordFailure(e: ModelEntry, group: int, now: nat, th: Thresholds): (ModelEntry, Transition) {
    if e.state.HalfOpen? then TransitionCircuit(e, now, th.openFor)
    else
      var noted := e.(failingGroups := Observe(e.failingGroups, group, now, th.tripWindow));
      if |noted.failingGroups| >= th.tripGroups then TransitionCircuit(noted, now, th.openFor)
      else (noted, Unchanged)
  }

  function RecordMissing(e: ModelEntry, group: int, now: nat, th: Thresholds): ModelEntry {
    var noted := e.(missingGroups := Observe(e.missingGroups, group, now, th.missingWindow));
    if |noted.missingGroups| < th.missingGroups then noted
    else noted.(disabled := true, disabledUntil := Some(Deadline(now, th.missingFor)), missingGroups := [])
  }

  function RecordSuccess(e: ModelEntry): ModelEntry {
    CloseCircuit(e.(disabled := false, disabledUntil := None, missingGroups := [])).0
  }

  /** Lazy expiry, applied whenever the router looks at the model. */
  function View(e: ModelEntry, now: nat): ModelEntry {
    var probed :=
      if e.state.Open? && e.openUntil.Some? && e.openUntil.value <= now
      then e.(state := HalfOpen, openUntil := None, probeInFlight := false) else e;
    if probed.disabled && probed.disabledUntil.Some? && probed.disabledUntil.value <= now
    then probed.(disabled := false, disabledUntil := None, missingGroups := []) else probed
  }

  predicate OffersProbe(e: ModelEntry) {
    e.state.HalfOpen? && !e.probeInFlight
  }

  function TakeProbe(e: ModelEntry): ModelEntry {
    if OffersProbe(e) then e.(probeInFlight := true) else e
  }

  function ReleaseProbe(e: ModelEntry): ModelEntry {
    e.(probeInFlight := false)
  }

  /** A guard that still holds the probe is dropped: a half-open circuit closes. */
  function DropProbe(e: ModelEntry): ModelEntry {
    e.(probeInFlight := false, state := if e.state.HalfOpen? then Closed else e.state)
  }

  /** Every way the router touches a model entry. */
  datatype ModelOp =
    | Looked(now: nat) | Failed(group: int, now: nat) | Missed(group: int, now: nat)
    | Succeeded | TookProbe | ReleasedProbe | DroppedProbe

  function Apply(e: ModelEntry, op: ModelOp, th: Thresholds): ModelEntry {
    match op
    case Looked(now) => View(e, now)
    case Failed(g, now) => RecordFailure(e, g, now, th).0
    case Missed(g, now) => RecordMissing(e, g, now, th)
    case Succeeded => RecordSuccess(e)
    case TookProbe => TakeProbe(e)
    case ReleasedProbe => ReleaseProbe(e)
    case DroppedProbe => DropProbe(e)
  }

  /** Applied in order, oldest first. */
  function ApplyAll(e: ModelEntry, ops: seq<ModelOp>, th: Thresholds): ModelEntry {
    if ops == [] then e else Apply(ApplyAll(e, ops[..|ops| - 1], th), ops[|ops| - 1], th)
  }

  predicate Timed(op: ModelOp) {
    op.Looked? || op.Failed? || op.Missed?
  }
}

/** The same circuit with unpruned logs: it opens by counting distinct groups in the whole log. */
module ReferenceCircuit {
  import opened Options
  import opened Backoff
  import opened ModelCircuit

  datatype Reference = Reference(
    state: CircuitState,
    openUntil: Option<nat>,
    disabled: bool,
    disabledUntil: Option<nat>,
    probeInFlight: bool,
    failures: seq<Evidence>,
    misses: seq<Evidence>)

  const FRESH_REFERENCE := Reference(Closed, None, false, None, false, [], [])

  /** The distinct groups with an observation inside the window that ends now. */
  function GroupsInWindow(log: seq<Evidence>, now: nat, window: nat): set<int> {
    set e | e in log && now <= e.at + window :: e.group
  }

  function RefFailed(r: Reference, group: int, now: nat, th: Thresholds): Reference {
    var log := r.failures + [Evidence(group, now)];
    match r.state
    case HalfOpen => r.(state := Open, openUntil := Some(Deadline(now, th.openFor)), probeInFlight := false)
    case Open => r.(failures := log)
    case Closed =>
      if |GroupsInWindow(log, now, th.tripWindow)| >= th.tripGroups
      then r.(state := Open, openUntil := Some(Deadline(now, th.openFor)), probeInFlight := false, failures := [])
      else r.(failures := log)
  }

  function RefMissed(r: Reference, group: int, now: nat, th: Thresholds): Reference {
    var log := r.misses + [Evidence(group, now)];
    if |GroupsInWindow(log, now, th.missingWindow)| >= th.missingGroups
    then r.(disabled := true, disabledUntil := Some(Deadline(now, th.missingFor)), misses := [])
    else r.(misses := log)
  }

  function RefLooked(r: Reference, now: nat): Reference {
    var probed :=
      if r.state.Open? && r.openUntil.Some? && r.openUntil.value <= now
      then r.(state := HalfOpen, openUntil := None, probeInFlight := false) else r;
    if probed.disabled && probed.disabledUntil.Some? && probed.disabledUntil.value <= now
    then probed.(disabled := false, disabledUntil := None, misses := []) else probed
  }

  function RefSucceeded(r: Reference): Reference {
    var served := r.(disabled := false, disabledUntil := None, misses := []);
    if r.state.Closed? then served else served.(state := Closed, probeInFlight := false, failures := [])
  }

  function RefApply(r: Reference, op: ModelOp, th: Thresholds): Reference {
    match op
    case Looked(now) => RefLooked(r, now)
    case Failed(g, now) => RefFailed(r, g, now, th)
    case Missed(g, now) => RefMissed(r, g, now, th)
    case Succeeded => RefSucceeded(r)
    case TookProbe => if r.state.HalfOpen? then r.(probeInFlight := true) else r
    case ReleasedProbe => r.(probeInFlight := false)
    case DroppedProbe => r.(probeInFlight := false, state := if r.state.HalfOpen? then Closed else r.state)
  }

  function RefApplyAll(r: Reference, ops: seq<ModelOp>, th: Thresholds): Reference {
    if ops == [] then r else RefApply(RefApplyAll(r, ops[..|ops| - 1], th), ops[|ops| - 1], th)
  }

  // --- the pruned list stands for the log -----------------------------------

  predicate Distinct(evidence: seq<Evidence>) {
    forall i, j :: 0 <= i < j < |evidence| ==> evidence[i].group != evidence[j].group
  }

  predicate Sorted(evidence: seq<Evidence>) {
    forall i, j :: 0 <= i < j < |evidence| ==> evidence[i].at <= evidence[j].at
  }

  predicate NewestOf(e: Evidence, log: seq<Evidence>) {
    e in log && forall f :: f in log && f.group == e.group ==> f.at <= e.at
  }

  /** The list keeps the newest observation of each group; what it dropped was stale before `clock`. */
  predicate StandsFor(list: seq<Evidence>, log: seq<Evidence>, window: nat, clock: nat) {
    && Distinct(list) && Sorted(list)
    && (forall e :: e in list ==> NewestOf(e, log))
    && (forall f :: f in log ==>
          f.at <= clock && (f.at + window < clock || exists e :: e in list && e.group == f.group))
  }

  function Groups(list: seq<Evidence>): set<int> {
    set e | e in list :: e.group
  }

  lemma {:induction false} DistinctCount(list: seq<Evidence>)
    requires Distinct(list)
    ensures |Groups(list)| == |list|
  {
    if list != [] {
      var n := |list| - 1;
      DistinctCount(list[..n]);
      assert Groups(list) == Groups(list[..n]) + {list[n].group};
      assert list[n].group !in Groups(list[..n]);
    }
  }

  lemma {:induction false} RetainKeeps(list: seq<Evidence>, group: int, now: nat, window: nat)
    ensures forall e :: e in Retain(list, group, now, window) <==>
              e in list && e.group != group && now <= e.at + window
  {
    if list != [] {
      RetainKeeps(list[1..], group, now, window);
      assert forall e :: e in list <==> e == list[0] || e in list[1..];
    }
  }

  lemma {:induction false} RetainKeepsOrder(list: seq<Evidence>, group: int, now: nat, window: nat)
    requires Distinct(list) && Sorted(list)
    ensures Distinct(Retain(list, group, now, window)) && Sorted(Retain(list, group, now, window))
  {
    if list != [] {
      RetainKeepsOrder(list[1..], group, now, window);
      var rest := Retain(list[1..], group, now, window);
      forall k | 0 <= k < |rest| ensures rest[k].group != list[0].group && list[0].at <= rest[k].at {
        RetainKeeps(list[1..], group, now, window);
        assert rest[k] in list[1..];
      }
    }
  }

  lemma ObserveKeepsOrder(list: seq<Evidence>, group: int, now: nat, window: nat)
    requires Distinct(list) && Sorted(list) && forall e :: e in list ==> e.at <= now
    ensures Distinct(Observe(list, group, now, window)) && Sorted(Observe(list, group, now, window))
  {
    var kept := Retain(list, group, now, window);
    RetainKeepsOrder(list, group, now, window);
    forall k | 0 <= k < |kept| ensures kept[k].group != group && kept[k].at <= now {
      RetainKeeps(list, group, now, window);
      assert kept[k] in kept;
    }
  }

  /** The list's groups are exactly those with a logged observation inside the window. */
  lemma ObserveGroups(list: seq<Evidence>, log: seq<Evidence>, group: int, now: nat, window: nat, clock: nat)
    requires StandsFor(list, log, window, clock) && clock <= now
    ensures Groups(Observe(list, group, now, window)) == GroupsInWindow(log + [Evidence(group, now)], now, window)
  {
    var list', log' := Observe(list, group, now, window), log + [Evidence(group, now)];
    RetainKeeps(list, group, now, window);
    forall g | g in Groups(list') ensures g in GroupsInWindow(log', now, window) {
      var e :| e in list' && e.group == g;
      assert e == Evidence(group, now) || e in list;
      assert e in log';
    }
    forall g | g in GroupsInWindow(log', now, window) ensures g in Groups(list') {
      var f :| f in log' && now <= f.at + window && f.group == g;
      if g == group {
        assert Evidence(group, now) in list';
      } else {
        assert f in log;
        var e :| e in list && e.group == g;
        assert NewestOf(e, log);
        assert e in list';
      }
    }
  }

  lemma ObserveKeepsNewest(list: seq<Evidence>, log: seq<Evidence>, group: int, now: nat, window: nat, clock: nat)
    requires StandsFor(list, log, window, clock) && clock <= now
    ensures forall e :: e in Observe(list, group, now, window) ==> NewestOf(e, log + [Evidence(group, now)])
    ensures forall e :: e in list ==> e.at <= now
  {
    RetainKeeps(list, group, now, window);
    var list', log' := Observe(list, group, now, window), log + [Evidence(group, now)];
    forall e | e in list' ensures NewestOf(e, log') {
      if e != Evidence(group, now) { assert e in list && NewestOf(e, log); }
    }
    forall e | e in list ensures e.at <= now { assert NewestOf(e, log); }
  }

  /** One more observation keeps the list faithful, and its length counts the distinct groups in the window. */
  lemma ObserveStandsFor(list: seq<Evidence>, log: seq<Evidence>, group: int, now: nat, window: nat, clock: nat)
    requires StandsFor(list, log, window, clock) && clock <= now
    ensures StandsFor(Observe(list, group, now, window), log + [Evidence(group, now)], window, now)
    ensures |Observe(list, group, now, window)|
         == |GroupsInWindow(log + [Evidence(group, now)], now, window)|
  {
    var list', log' := Observe(list, group, now, window), log + [Evidence(group, now)];
    RetainKeeps(list, group, now, window);
    ObserveKeepsOrder(list, group, now, window);
    ObserveGroups(list, log, group, now, window, clock);
    DistinctCount(list');
    ObserveKeepsNewest(list, log, group, now, window, clock);
    hide Observe, Distinct, Sorted, NewestOf;
    forall f | f in log'
      ensures f.at <= now && (f.at + window < now || exists e :: e in list' && e.group == f.group)
    {
      if now <= f.at + window {
        assert f.group in GroupsInWindow(log', now, window);
        assert f.group in Groups(list');
      }
    }
  }

  // --- refinement over whole runs -------------------------------------------

  predicate Refines(e: ModelEntry, r: Reference, th: Thresholds, clock: nat) {
    && e.state == r.state && e.openUntil == r.openUntil
    && e.disabled == r.disabled && e.disabledUntil == r.disabledUntil
    && e.probeInFlight == r.probeInFlight
    && StandsFor(e.failingGroups, r.failures, th.tripWindow, clock)
    && StandsFor(e.missingGroups, r.misses, th.missingWindow, clock)
  }

  function TimeOf(op: ModelOp, clock: nat): nat {
    if Timed(op) then op.now else clock
  }

  lemma LaterStandsFor(list: seq<Evidence>, log: seq<Evidence>, window: nat, clock: nat, clock': nat)
    requires StandsFor(list, log, window, clock) && clock <= clock'
    ensures StandsFor(list, log, window, clock')
  {
  }

  lemma NothingStands(window: nat, clock: nat)
    ensures StandsFor([], [], window, clock)
  {
  }

  lemma FailureRefines(e: ModelEntry, r: Reference, group: int, now: nat, th: Thresholds, clock: nat)
    requires Refines(e, r, th, clock) && clock <= now
    ensures Refines(RecordFailure(e, group, now, th).0, RefFailed(r, group, now, th), th, now)
  {
    hide Observe, StandsFor;
    NothingStands(th.tripWindow, now);
    NothingStands(th.missingWindow, now);
    LaterStandsFor(e.failingGroups, r.failures, th.tripWindow, clock, now);
    LaterStandsFor(e.missingGroups, r.misses, th.missingWindow, clock, now);
    ObserveStandsFor(e.failingGroups, r.failures, group, now, th.tripWindow, clock);
  }

  lemma MissRefines(e: ModelEntry, r: Reference, group: int, now: nat, th: Thresholds, clock: nat)
    requires Refines(e, r, th, clock) && clock <= now
    ensures Refines(RecordMissing(e, group, now, th), RefMissed(r, group, now, th), th, now)
  {
    hide Observe, StandsFor;
    NothingStands(th.tripWindow, now);
    NothingStands(th.missingWindow, now);
    LaterStandsFor(e.failingGroups, r.failures, th.tripWindow, clock, now);
    LaterStandsFor(e.missingGroups, r.misses, th.missingWindow, clock, now);
    ObserveStandsFor(e.missingGroups, r.misses, group, now, th.missingWindow, clock);
  }

  lemma StepRefines(e: ModelEntry, r: Reference, op: ModelOp, th: Thresholds, clock: nat)
    requires Refines(e, r, th, clock) && clock <= TimeOf(op, clock)
    ensures Refines(Apply(e, op, th), RefApply(r, op, th), th, TimeOf(op, clock))
  {
    match op
    case Failed(g, now) => FailureRefines(e, r, g, now, th, clock);
    case Missed(g, now) => MissRefines(e, r, g, now, th, clock);
    case Looked(now) =>
      LaterStandsFor(e.failingGroups, r.failures, th.tripWindow, clock, now);
      LaterStandsFor(e.missingGroups, r.misses, th.missingWindow, clock, now);
    case _ =>
  }

  function ClockAfter(ops: seq<ModelOp>, clock: nat): nat {
    if ops == [] then clock else TimeOf(ops[|ops| - 1], ClockAfter(ops[..|ops| - 1], clock))
  }

  predicate NeverBackwards(ops: seq<ModelOp>, clock: nat) {
    ops == [] || (NeverBackwards(ops[..|ops| - 1], clock)
                  && ClockAfter(ops[..|ops| - 1], clock) <= ClockAfter(ops, clock))
  }

  /**
   * Over every chronological run the pruned circuit shows exactly the states of the unpruned one: it opens,
   * reopens, closes, goes missing and recovers at the same operations.
   */
  lemma {:induction false} PrunedRefinesLog(ops: seq<ModelOp>, th: Thresholds)
    requires NeverBackwards(ops, 0)
    ensures Refines(ApplyAll(FRESH_MODEL, ops, th), RefApplyAll(FRESH_REFERENCE, ops, th), th, ClockAfter(ops, 0))
  {
    if ops != [] {
      var before := ops[..|ops| - 1];
      PrunedRefinesLog(before, th);
      StepRefines(ApplyAll(FRESH_MODEL, before, th), RefApplyAll(FRESH_REFERENCE, before, th),
                  ops[|ops| - 1], th, ClockAfter(before, 0));
    }
  }

  /**
   * A failure opens a Closed circuit exactly when enough distinct groups are logged inside the window: the log holds
   * every failure since the last clear except those of half-open probes, which reopen the circuit without being logged.
   */
  lemma TripsExactly(ops: seq<ModelOp>, group: int, now: nat, th: Thresholds)
    requires NeverBackwards(ops, 0) && ClockAfter(ops, 0) <= now
    requires ApplyAll(FRESH_MODEL, ops, th).state.Closed?
    ensures var log := RefApplyAll(FRESH_REFERENCE, ops, th).failures + [Evidence(group, now)];
            RecordFailure(ApplyAll(FRESH_MODEL, ops, th), group, now, th).1 ==
              if |GroupsInWindow(log, now, th.tripWindow)| >= th.tripGroups then Opened else Unchanged
  {
    PrunedRefinesLog(ops, th);
    ObserveStandsFor(ApplyAll(FRESH_MODEL, ops, th).failingGroups, RefApplyAll(FRESH_REFERENCE, ops, th).failures,
                     group, now, th.tripWindow, ClockAfter(ops, 0));
  }

  /** Likewise a 404 takes the whole model out exactly when enough distinct groups reported it inside the window. */
  lemma GoesMissingExactly(ops: seq<ModelOp>, group: int, now: nat, th: Thresholds)
    requires NeverBackwards(ops, 0) && ClockAfter(ops, 0) <= now
    requires !ApplyAll(FRESH_MODEL, ops, th).disabled
    ensures var log := RefApplyAll(FRESH_REFERENCE, ops, th).misses + [Evidence(group, now)];
            RecordMissing(ApplyAll(FRESH_MODEL, ops, th), group, now, th).disabled <==>
              |GroupsInWindow(log, now, th.missingWindow)| >= th.missingGroups
  {
    PrunedRefinesLog(ops, th);
    ObserveStandsFor(ApplyAll(FRESH_MODEL, ops, th).missingGroups, RefApplyAll(FRESH_REFERENCE, ops, th).misses,
                     group, now, th.missingWindow, ClockAfter(ops, 0));
  }

  // --- failures of half-open probes ------------------------------------------------------

  predicate Trips(r: Reference, op: ModelOp, th: Thresholds) {
    op.Failed? && r.state.Closed? && RefApply(r, op, th).state.Open?
  }

  /** A trip clears the log, and so does a success that closes the circuit. */
  predicate Clears(r: Reference, op: ModelOp, th: Thresholds) {
    Trips(r, op, th) || (op.Succeeded? && !r.state.Closed?)
  }

  /** Every failure since the last clear, those of half-open probes included. */
  function EveryFailure(ops: seq<ModelOp>, th: Thresholds): seq<Evidence> {
    if ops == [] then []
    else
      var before, op := ops[..|ops| - 1], ops[|ops| - 1];
      if Clears(RefApplyAll(FRESH_REFERENCE, before, th), op, th) then []
      else if op.Failed? then EveryFailure(before, th) + [Evidence(op.group, op.now)]
      else EveryFailure(before, th)
  }

  /** Some half-open probe failed since the last clear. */
  predicate ProbeLost(ops: seq<ModelOp>, th: Thresholds) {
    ops != [] &&
    var before, op := ops[..|ops| - 1], ops[|ops| - 1];
    var r := RefApplyAll(FRESH_REFERENCE, before, th);
    !Clears(r, op, th) && ((op.Failed? && r.state.HalfOpen?) || ProbeLost(before, th))
  }

  lemma {:induction false} LogIsNoLonger(ops: seq<ModelOp>, th: Thresholds)
    ensures var log, every := RefApplyAll(FRESH_REFERENCE, ops, th).failures, EveryFailure(ops, th);
      if ProbeLost(ops, th) then |log| < |every| else log == every
  {
    hide GroupsInWindow;
    if ops != [] { LogIsNoLonger(ops[..|ops| - 1], th); }
  }

  /** The circuit's log is every failure since the last clear exactly when no half-open probe has failed since. */
  lemma LogsAgreeExactly(ops: seq<ModelOp>, th: Thresholds)
    ensures RefApplyAll(FRESH_REFERENCE, ops, th).failures == EveryFailure(ops, th) <==> !ProbeLost(ops, th)
  {
    LogIsNoLonger(ops, th);
  }

  /** With no probe failed since the last clear, the circuit opens exactly on every failure there was. */
  lemma TripsOnEveryFailure(ops: seq<ModelOp>, group: int, now: nat, th: Thresholds)
    requires NeverBackwards(ops, 0) && ClockAfter(ops, 0) <= now && !ProbeLost(ops, th)
    requires ApplyAll(FRESH_MODEL, ops, th).state.Closed?
    ensures RecordFailure(ApplyAll(FRESH_MODEL, ops, th), group, now, th).1 ==
      if |GroupsInWindow(EveryFailure(ops, th) + [Evidence(group, now)], now, th.tripWindow)| >= th.tripGroups
      then Opened else Unchanged
  {
    TripsExactly(ops, group, now, th);
    LogsAgreeExactly(ops, th);
  }

  /** The failures of half-open probes since the last clear, which the circuit does not log. */
  function LostProbes(ops: seq<ModelOp>, th: Thresholds): seq<Evidence> {
    if ops == [] then []
    else
      var before, op := ops[..|ops| - 1], ops[|ops| - 1];
      var r := RefApplyAll(FRESH_REFERENCE, before, th);
      if Clears(r, op, th) then []
      else if op.Failed? && r.state.HalfOpen? then LostProbes(before, th) + [Evidence(op.group, op.now)]
      else LostProbes(before, th)
  }

  lemma {:induction false} LoggedOrLost(ops: seq<ModelOp>, th: Thresholds)
    ensures forall e :: e in EveryFailure(ops, th) <==>
      e in RefApplyAll(FRESH_REFERENCE, ops, th).failures || e in LostProbes(ops, th)
  {
    hide GroupsInWindow;
    if ops != [] { LoggedOrLost(ops[..|ops| - 1], th); }
  }

  /**
   * The circuit never opens before enough groups have failed since the last clear; it opens as soon as they have,
   * except when those it logged are too few and the groups of lost probes would have made up the number.
   */
  lemma TripsAgreeExactly(ops: seq<ModelOp>, group: int, now: nat, th: Thresholds)
    requires NeverBackwards(ops, 0) && ClockAfter(ops, 0) <= now
    requires ApplyAll(FRESH_MODEL, ops, th).state.Closed?
    ensures var failed, log := [Evidence(group, now)], RefApplyAll(FRESH_REFERENCE, ops, th).failures;
            var opens := RecordFailure(ApplyAll(FRESH_MODEL, ops, th), group, now, th).1 == Opened;
            var enough := |GroupsInWindow(EveryFailure(ops, th) + failed, now, th.tripWindow)| >= th.tripGroups;
            var counted := GroupsInWindow(log + failed, now, th.tripWindow);
            var lost := GroupsInWindow(LostProbes(ops, th), now, th.tripWindow);
      && (opens ==> enough)
      && ((opens <==> enough) <==> !(|counted| < th.tripGroups <= |counted + lost|))
  {
    TripsExactly(ops, group, now, th);
    LoggedOrLost(ops, th);
    var failed, log := [Evidence(group, now)], RefApplyAll(FRESH_REFERENCE, ops, th).failures;
    var counted := GroupsInWindow(log + failed, now, th.tripWindow);
    var lost := GroupsInWindow(LostProbes(ops, th), now, th.tripWindow);
    assert forall e :: e in EveryFailure(ops, th) + failed <==> e in log + failed || e in LostProbes(ops, th);
    assert GroupsInWindow(EveryFailure(ops, th) + failed, now, th.tripWindow) == counted + lost;
    assert counted + lost == counted + (lost - counted);
  }

  const TWO_GROUPS := Thresholds(2, 20_000, 1_000, 2, 300_000, 3_600_000)

  /** Two groups trip the circuit, a probe of a third fails, and a second probe is cancelled, which closes it. */
  const FAILED_PROBE: seq<ModelOp> := [
    Failed(1, 0), Failed(2, 0), Looked(1_000), TookProbe, Failed(3, 1_000), Looked(2_000), TookProbe, DroppedProbe]

  /** The state after the first n of them, by hand. */
  function ReferenceThen(n: nat): Reference
    requires n <= 8
  {
    var open1 := Reference(Open, Some(1_000), false, None, false, [], []);
    var open2 := open1.(openUntil := Some(2_000));
    var half := Reference(HalfOpen, None, false, None, false, [], []);
    if n == 0 then FRESH_REFERENCE
    else if n == 1 then FRESH_REFERENCE.(failures := [Evidence(1, 0)])
    else if n == 2 then open1
    else if n == 5 then open2
    else if n == 8 then half.(state := Closed)
    else half.(probeInFlight := n == 4 || n == 7)
  }

  lemma FailedProbeStep(n: nat)
    requires n < 8
    ensures RefApply(ReferenceThen(n), FAILED_PROBE[n], TWO_GROUPS) == ReferenceThen(n + 1)
    ensures Clears(ReferenceThen(n), FAILED_PROBE[n], TWO_GROUPS) <==> n == 1
  {
    assert [] + [Evidence(1, 0)] == [Evidence(1, 0)];
    assert GroupsInWindow([Evidence(1, 0)], 0, 20_000) == {1};
    assert GroupsInWindow([Evidence(1, 0)] + [Evidence(2, 0)], 0, 20_000) == {1, 2};
    hide GroupsInWindow;
  }

  lemma {:induction false} FailedProbeRuns(n: nat)
    requires n <= 8
    ensures RefApplyAll(FRESH_REFERENCE, FAILED_PROBE[..n], TWO_GROUPS) == ReferenceThen(n)
    ensures EveryFailure(FAILED_PROBE[..n], TWO_GROUPS) ==
      if n == 1 then [Evidence(1, 0)] else if n >= 5 then [Evidence(3, 1_000)] else []
  {
    hide RefApply, Clears, GroupsInWindow;
    if n > 0 {
      FailedProbeRuns(n - 1);
      FailedProbeStep(n - 1);
      hide ReferenceThen;
      assert FAILED_PROBE[..n][..n - 1] == FAILED_PROBE[..n - 1];
      assert [] + [Evidence(1, 0)] == [Evidence(1, 0)] && [] + [Evidence(3, 1_000)] == [Evidence(3, 1_000)];
    } else {
      assert ReferenceThen(0) == FRESH_REFERENCE;
    }
  }

  /**
   * A failed probe goes uncounted: two groups have failed inside the window since the last clear, and yet the second
   * of them leaves the circuit closed.
   */
  lemma FailedProbeGoesUncounted()
    ensures var every := EveryFailure(FAILED_PROBE, TWO_GROUPS) + [Evidence(4, 2_000)];
      && |GroupsInWindow(every, 2_000, 20_000)| == 2
      && RecordFailure(ApplyAll(FRESH_MODEL, FAILED_PROBE, TWO_GROUPS), 4, 2_000, TWO_GROUPS).1 == Unchanged
  {
    FailedProbeRuns(8);
    FailedProbeInOrder(8);
    assert FAILED_PROBE[..8] == FAILED_PROBE;
    PrunedRefinesLog(FAILED_PROBE, TWO_GROUPS);
    TripsExactly(FAILED_PROBE, 4, 2_000, TWO_GROUPS);
    assert GroupsInWindow([] + [Evidence(4, 2_000)], 2_000, 20_000) == {4};
    assert GroupsInWindow([Evidence(3, 1_000)] + [Evidence(4, 2_000)], 2_000, 20_000) == {3, 4};
  }

  lemma {:induction false} FailedProbeInOrder(n: nat)
    requires n <= 8
    ensures NeverBackwards(FAILED_PROBE[..n], 0)
    ensures ClockAfter(FAILED_PROBE[..n], 0) == if n < 3 then 0 else if n < 6 then 1_000 else 2_000
  {
    if n > 0 {
      FailedProbeInOrder(n - 1);
      assert FAILED_PROBE[..n][..n - 1] == FAILED_PROBE[..n - 1];
    }
  }

  // --- one account alone ------------------------------------------------------

  predicate OnlyGroup(ops: seq<ModelOp>, group: int) {
    forall op :: op in ops ==> (op.Failed? || op.Missed? ==> op.group == group)
  }

  predicate AtMost(evidence: seq<Evidence>, group: int) {
    |evidence| <= 1 && forall e :: e in evidence ==> e.group == group
  }

  lemma OneGroupRetainsNothing(evidence: seq<Evidence>, group: int, now: nat, window: nat)
    requires AtMost(evidence, group)
    ensures Retain(evidence, group, now, window) == []
  {
  }

  /** However often one account fails, its failures alone never open the circuit or make the model missing. */
  lemma {:induction false} OneAccountNeverTrips(ops: seq<ModelOp>, group: int, th: Thresholds)
    requires OnlyGroup(ops, group)
    ensures th.tripGroups >= 2 ==> ApplyAll(FRESH_MODEL, ops, th).state.Closed?
    ensures th.missingGroups >= 2 ==> !ApplyAll(FRESH_MODEL, ops, th).disabled
    ensures AtMost(ApplyAll(FRESH_MODEL, ops, th).failingGroups, group)
    ensures AtMost(ApplyAll(FRESH_MODEL, ops, th).missingGroups, group)
  {
    if ops != [] {
      var before, op := ops[..|ops| - 1], ops[|ops| - 1];
      OneAccountNeverTrips(before, group, th);
      assert op in ops;
      var e := ApplyAll(FRESH_MODEL, before, th);
      if op.Failed? { OneGroupRetainsNothing(e.failingGroups, group, op.now, th.tripWindow); }
      if op.Missed? { OneGroupRetainsNothing(e.missingGroups, group, op.now, th.missingWindow); }
    }
  }
}
