/** Admission control under interleaving: every access to the semaphore and to the counter is a step of its own. */
module Admission {
  /** How many permits, how many may queue, and how many worker threads run tasks. */
  datatype Limits = Limits(permits: nat, capacity: nat, workers: nat)

  /** Where a task is inside acquire; Parked is the only place it awaits, and so the only place it can be cancelled. */
  datatype Phase =
    | Entered | Refused | Checked | Counted | Guarded | Parked | Granted | TimedOut | Holding

  datatype State = State(available: nat, waiting: nat, tasks: map<nat, Phase>)

  datatype Action =
    | Enter(id: nat) | TryAcquire(id: nat) | Check(id: nat) | Count(id: nat) | Guard(id: nat) | Park(id: nat)
    | Grant(id: nat) | Expire(id: nat) | Cancel(id: nat) | DropGuard(id: nat) | Release(id: nat)

  predicate Sane(l: Limits) {
    l.permits >= 1 && l.capacity >= 1 && l.workers >= 1
  }

  function Initial(l: Limits): State {
    State(l.permits, 0, map[])
  }

  function In(tasks: map<nat, Phase>, phases: set<Phase>): set<nat> {
    set id | id in tasks && tasks[id] in phases
  }

  /** Between two awaits a task occupies a worker. */
  const RUNNING: set<Phase> := {Entered, Refused, Checked, Counted, Guarded, Granted, TimedOut}
  const GUARDS: set<Phase> := {Guarded, Parked, Granted, TimedOut}
  const HOLDERS: set<Phase> := {Granted, Holding}

  predicate At(s: State, id: nat, phase: Phase) {
    id in s.tasks && s.tasks[id] == phase
  }

  predicate FreeWorker(l: Limits, s: State) {
    |In(s.tasks, RUNNING)| < l.workers
  }

  predicate Enabled(l: Limits, s: State, a: Action) {
    match a
    case Enter(id) => id !in s.tasks && FreeWorker(l, s)
    case TryAcquire(id) => At(s, id, Entered)
    case Check(id) => At(s, id, Refused)
    case Count(id) => At(s, id, Checked)
    case Guard(id) => At(s, id, Counted)
    case Park(id) => At(s, id, Guarded)
    case Grant(id) => s.available > 0 && (At(s, id, Guarded) || (At(s, id, Parked) && FreeWorker(l, s)))
    case Expire(id) => At(s, id, Parked) && FreeWorker(l, s)
    case Cancel(id) => At(s, id, Parked)
    case DropGuard(id) => At(s, id, Granted) || At(s, id, TimedOut)
    case Release(id) => At(s, id, Holding)
  }

  function Move(s: State, id: nat, phase: Phase): State {
    s.(tasks := s.tasks[id := phase])
  }

  function Leave(s: State, id: nat): State {
    s.(tasks := s.tasks - {id})
  }

  function Down(n: nat): nat {
    if n == 0 then 0 else n - 1
  }

  function Apply(l: Limits, s: State, a: Action): State {
    match a
    case Enter(id) => Move(s, id, Entered)
    case TryAcquire(id) =>
      if s.available > 0 then Move(s.(available := Down(s.available)), id, Holding) else Move(s, id, Refused)
    case Check(id) => if s.waiting >= l.capacity then Leave(s, id) else Move(s, id, Checked)
    case Count(id) => Move(s.(waiting := s.waiting + 1), id, Counted)
    case Guard(id) => Move(s, id, Guarded)
    case Park(id) => Move(s, id, Parked)
    case Grant(id) => Move(s.(available := Down(s.available)), id, Granted)
    case Expire(id) => Move(s, id, TimedOut)
    case Cancel(id) => Leave(s.(waiting := Down(s.waiting)), id)
    case DropGuard(id) =>
      var s' := s.(waiting := Down(s.waiting));
      if At(s, id, Granted) then Move(s', id, Holding) else Leave(s', id)
    case Release(id) => Leave(s.(available := s.available + 1), id)
  }

  predicate Allowed(l: Limits, s: State, run: seq<Action>)
    decreases |run|
  {
    run == [] || (Enabled(l, s, run[0]) && Allowed(l, Apply(l, s, run[0]), run[1..]))
  }

  function After(l: Limits, s: State, run: seq<Action>): State
    decreases |run|
  {
    if run == [] then s else After(l, Apply(l, s, run[0]), run[1..])
  }

  ghost predicate Reachable(l: Limits, s: State) {
    exists run :: Allowed(l, Initial(l), run) && After(l, Initial(l), run) == s
  }

  // --- the controller, one access at a time ---------------------------------------------------

  class AdmissionController {
    const limits: Limits
    var available: nat
    var waiting: nat
    var tasks: map<nat, Phase>

    constructor (limits: Limits)
      requires Sane(limits)
      ensures this.limits == limits && Now() == Initial(limits)
    {
      this.limits := limits;
      available, waiting, tasks := limits.permits, 0, map[];
    }

    function Now(): State
      reads this
    {
      State(available, waiting, tasks)
    }

    method Begin(id: nat)
      requires Enabled(limits, Now(), Enter(id))
      modifies this
      ensures Now() == Apply(limits, old(Now()), Enter(id))
    {
      tasks := tasks[id := Entered];
    }

    method TryAcquireOwned(id: nat) returns (got: bool)
      requires Enabled(limits, Now(), TryAcquire(id))
      modifies this
      ensures Now() == Apply(limits, old(Now()), TryAcquire(id)) && (got <==> old(available) > 0)
    {
      got := available > 0;
      if got {
        available := available - 1;
        tasks := tasks[id := Holding];
      } else {
        tasks := tasks[id := Refused];
      }
    }

    method LoadWaiting(id: nat) returns (queueFull: bool)
      requires Enabled(limits, Now(), Check(id))
      modifies this
      ensures Now() == Apply(limits, old(Now()), Check(id)) && (queueFull <==> old(waiting) >= limits.capacity)
    {
      queueFull := waiting >= limits.capacity;
      tasks := if queueFull then tasks - {id} else tasks[id := Checked];
    }

    method FetchAdd(id: nat)
      requires Enabled(limits, Now(), Count(id))
      modifies this
      ensures Now() == Apply(limits, old(Now()), Count(id))
    {
      waiting := waiting + 1;
      tasks := tasks[id := Counted];
    }

    method MakeGuard(id: nat)
      requires Enabled(limits, Now(), Guard(id))
      modifies this
      ensures Now() == Apply(limits, old(Now()), Guard(id))
    {
      tasks := tasks[id := Guarded];
    }

    /** The await, ended by a permit, the deadline, or its future being dropped. */
    method Poll(id: nat, a: Action)
      requires a in {Park(id), Grant(id), Expire(id), Cancel(id)} && Enabled(limits, Now(), a)
      modifies this
      ensures Now() == Apply(limits, old(Now()), a)
    {
      match a
      case Park(_) => tasks := tasks[id := Parked];
      case Grant(_) => available, tasks := available - 1, tasks[id := Granted];
      case Expire(_) => tasks := tasks[id := TimedOut];
      case Cancel(_) => FetchSub(); tasks := tasks - {id};
    }

    /** The counter going down when a waiting guard is dropped. */
    method FetchSub()
      modifies this`waiting
      ensures waiting == Down(old(waiting))
    {
      if waiting > 0 { waiting := waiting - 1; }
    }

    method LeaveQueue(id: nat) returns (admitted: bool)
      requires Enabled(limits, Now(), DropGuard(id))
      modifies this
      ensures Now() == Apply(limits, old(Now()), DropGuard(id)) && (admitted <==> At(old(Now()), id, Granted))
    {
      FetchSub();
      admitted := tasks[id] == Granted;
      tasks := if admitted then tasks[id := Holding] else tasks - {id};
    }

    method DropPermit(id: nat)
      requires Enabled(limits, Now(), Release(id))
      modifies this
      ensures Now() == Apply(limits, old(Now()), Release(id))
    {
      available := available + 1;
      tasks := tasks - {id};
    }
  }
}

/** What every interleaving keeps, and how far the waiting counter can go. */
module AdmissionTheorems {
  import opened Admission

  /** No permit is lost or invented, the counter is exact, and only so many tasks run at once. */
  predicate Inv(l: Limits, s: State) {
    && s.available + |In(s.tasks, HOLDERS)| == l.permits
    && s.waiting == |In(s.tasks, GUARDS)| + |In(s.tasks, {Counted})|
    && |In(s.tasks, RUNNING)| <= l.workers
    && s.waiting + |In(s.tasks, {Checked})| <= l.capacity + l.workers - 1
  }

  /** How one task's move or departure changes a count. */
  lemma Recount(tasks: map<nat, Phase>, tasks': map<nat, Phase>, id: nat, phases: set<Phase>)
    requires tasks' == (if id in tasks' then tasks[id := tasks'[id]] else tasks - {id})
    ensures |In(tasks', phases)| == |In(tasks, phases)|
              - (if id in tasks && tasks[id] in phases then 1 else 0)
              + (if id in tasks' && tasks'[id] in phases then 1 else 0)
  {
    var others := In(tasks, phases) - {id};
    assert In(tasks', phases) == if id in tasks' && tasks'[id] in phases then others + {id} else others;
    assert In(tasks, phases) == if id in tasks && tasks[id] in phases then others + {id} else others;
  }

  lemma CheckedRun(tasks: map<nat, Phase>)
    ensures |In(tasks, {Checked})| <= |In(tasks, RUNNING)|
  {
    var checked := In(tasks, {Checked});
    assert In(tasks, RUNNING) == checked + (In(tasks, RUNNING) - checked);
  }

  lemma StepKeepsInv(l: Limits, s: State, a: Action)
    requires Sane(l) && Inv(l, s) && Enabled(l, s, a)
    ensures Inv(l, Apply(l, s, a))
  {
    var t := Apply(l, s, a);
    CheckedRun(t.tasks);
    Recount(s.tasks, t.tasks, a.id, HOLDERS);
    Recount(s.tasks, t.tasks, a.id, GUARDS);
    Recount(s.tasks, t.tasks, a.id, RUNNING);
    Recount(s.tasks, t.tasks, a.id, {Counted});
    Recount(s.tasks, t.tasks, a.id, {Checked});
    hide In;
  }

  lemma {:induction false} RunKeepsInv(l: Limits, s: State, run: seq<Action>)
    requires Sane(l) && Inv(l, s) && Allowed(l, s, run)
    ensures Inv(l, After(l, s, run))
    decreases |run|
  {
    hide Inv;
    if run != [] {
      StepKeepsInv(l, s, run[0]);
      RunKeepsInv(l, Apply(l, s, run[0]), run[1..]);
    }
  }

  /**
   * Every interleaving: at most the configured number of permits is out, and the counter is the number of tasks
   * with a waiting guard plus those between the increment and the guard, so no decrement ever underflows.
   */
  lemma PermitsAndCounterAreExact(l: Limits, s: State)
    requires Sane(l) && Reachable(l, s)
    ensures |In(s.tasks, HOLDERS)| == l.permits - s.available
    ensures s.waiting == |In(s.tasks, GUARDS)| + |In(s.tasks, {Counted})|
    ensures forall id :: Enabled(l, s, DropGuard(id)) || Enabled(l, s, Cancel(id)) ==> s.waiting > 0
  {
    var run :| Allowed(l, Initial(l), run) && After(l, Initial(l), run) == s;
    assert forall phases :: In(map[], phases) == {};
    RunKeepsInv(l, Initial(l), run);
    forall id | Enabled(l, s, DropGuard(id)) || Enabled(l, s, Cancel(id)) ensures s.waiting > 0 {
      assert id in In(s.tasks, GUARDS);
    }
  }

  /** The queue bound that holds: the check and the increment are two steps, so each worker but one can slip through. */
  lemma WaitingIsBounded(l: Limits, s: State)
    requires Sane(l) && Reachable(l, s)
    ensures s.waiting + |In(s.tasks, {Checked})| <= l.capacity + l.workers - 1
  {
    var run :| Allowed(l, Initial(l), run) && After(l, Initial(l), run) == s;
    assert forall phases :: In(map[], phases) == {};
    RunKeepsInv(l, Initial(l), run);
  }

  // --- the bound is reached ----------------------------------------------------------------------

  lemma {:induction false} Extend(l: Limits, s: State, run: seq<Action>, a: Action)
    requires Allowed(l, s, run) && Enabled(l, After(l, s, run), a)
    ensures Allowed(l, s, run + [a]) && After(l, s, run + [a]) == Apply(l, After(l, s, run), a)
    decreases |run|
  {
    if run == [] {
      assert [a][1..] == [];
    } else {
      assert (run + [a])[0] == run[0] && (run + [a])[1..] == run[1..] + [a];
      Extend(l, Apply(l, s, run[0]), run[1..], a);
    }
  }

  lemma Reaches(l: Limits, s: State, a: Action)
    requires Reachable(l, s) && Enabled(l, s, a)
    ensures Reachable(l, Apply(l, s, a))
  {
    var run :| Allowed(l, Initial(l), run) && After(l, Initial(l), run) == s;
    Extend(l, Initial(l), run, a);
  }

  function Ids(n: nat): (ids: set<nat>)
    ensures forall id: nat :: id in ids <==> id < n
  {
    if n == 0 then {} else Ids(n - 1) + {n - 1}
  }

  /** Tasks 0, 1, ... in this order: holders of every permit, parked ones, counted ones, and ones past the check. */
  function Crowd(l: Limits, parked: nat, counted: nat, checked: nat): State {
    var ids := Ids(l.permits + parked + counted + checked);
    State(0, parked + counted, map id | id in ids :: Place(l, parked, counted, id))
  }

  function Place(l: Limits, parked: nat, counted: nat, id: nat): Phase {
    if id < l.permits then Holding else if id < l.permits + parked then Parked
    else if id < l.permits + parked + counted then Counted else Checked
  }

  function Held(l: Limits, k: nat): State
    requires k <= l.permits
  {
    var ids := Ids(k);
    State(l.permits - k, 0, map id | id in ids :: Holding)
  }

  lemma {:induction false} HoldersGetIn(l: Limits, k: nat)
    requires Sane(l) && k <= l.permits
    ensures Reachable(l, Held(l, k))
  {
    if k == 0 {
      assert Held(l, 0) == Initial(l);
      assert Allowed(l, Initial(l), []) && After(l, Initial(l), []) == Held(l, 0);
    } else {
      HoldersGetIn(l, k - 1);
      var s := Held(l, k - 1);
      assert In(s.tasks, RUNNING) == {};
      Reaches(l, s, Enter(k - 1));
      var entered := Apply(l, s, Enter(k - 1));
      Reaches(l, entered, TryAcquire(k - 1));
      assert Apply(l, entered, TryAcquire(k - 1)).tasks == Held(l, k).tasks;
    }
  }

  /** One more task arrives at a full house and gets past the check. */
  lemma OneSlipsThrough(l: Limits, parked: nat, checked: nat)
    requires Sane(l) && Reachable(l, Crowd(l, parked, 0, checked)) && parked < l.capacity && checked < l.workers
    ensures Reachable(l, Crowd(l, parked, 0, checked + 1))
  {
    var s, id := Crowd(l, parked, 0, checked), l.permits + parked + checked;
    RunningInCrowd(l, parked, checked);
    Reaches(l, s, Enter(id));
    var entered := Apply(l, s, Enter(id));
    Reaches(l, entered, TryAcquire(id));
    var refused := Apply(l, entered, TryAcquire(id));
    Reaches(l, refused, Check(id));
    assert Apply(l, refused, Check(id)).tasks == Crowd(l, parked, 0, checked + 1).tasks;
  }

  lemma NobodyRuns(l: Limits, parked: nat)
    ensures |In(Crowd(l, parked, 0, 0).tasks, RUNNING)| == 0
  {
  }

  lemma CrowdGrows(l: Limits, parked: nat, checked: nat)
    ensures var before, id := Crowd(l, parked, 0, checked).tasks, l.permits + parked + checked;
      id !in before && Crowd(l, parked, 0, checked + 1).tasks == before[id := Checked]
  {
  }

  lemma {:induction false} RunningInCrowd(l: Limits, parked: nat, checked: nat)
    ensures |In(Crowd(l, parked, 0, checked).tasks, RUNNING)| == checked
  {
    hide Crowd, In;
    if checked == 0 {
      NobodyRuns(l, parked);
    } else {
      RunningInCrowd(l, parked, checked - 1);
      CrowdGrows(l, parked, checked - 1);
      var before, now := Crowd(l, parked, 0, checked - 1).tasks, Crowd(l, parked, 0, checked).tasks;
      Recount(before, now, l.permits + parked + checked - 1, RUNNING);
    }
  }

  /** A task past the check joins the queue. */
  lemma OneParks(l: Limits, parked: nat)
    requires Sane(l) && Reachable(l, Crowd(l, parked, 0, 1))
    ensures Reachable(l, Crowd(l, parked + 1, 0, 0))
  {
    hide Reachable;
    var s, id := Crowd(l, parked, 0, 1), l.permits + parked;
    Reaches(l, s, Count(id));
    var counted := Apply(l, s, Count(id));
    Reaches(l, counted, Guard(id));
    var guarded := Apply(l, counted, Guard(id));
    Reaches(l, guarded, Park(id));
    assert Apply(l, guarded, Park(id)).tasks == Crowd(l, parked + 1, 0, 0).tasks;
  }

  lemma {:induction false} QueueFills(l: Limits, parked: nat)
    requires Sane(l) && parked < l.capacity
    ensures Reachable(l, Crowd(l, parked, 0, 0))
  {
    if parked == 0 {
      HoldersGetIn(l, l.permits);
      assert Crowd(l, 0, 0, 0) == Held(l, l.permits);
    } else {
      hide Crowd;
      QueueFills(l, parked - 1);
      OneSlipsThrough(l, parked - 1, 0);
      OneParks(l, parked - 1);
    }
  }

  lemma {:induction false} AllSlipThrough(l: Limits, checked: nat)
    requires Sane(l) && checked <= l.workers
    ensures Reachable(l, Crowd(l, l.capacity - 1, 0, checked))
  {
    if checked == 0 {
      QueueFills(l, l.capacity - 1);
    } else {
      AllSlipThrough(l, checked - 1);
      OneSlipsThrough(l, l.capacity - 1, checked - 1);
    }
  }

  lemma {:induction false} AllCountThemselves(l: Limits, counted: nat)
    requires Sane(l) && counted <= l.workers
    ensures Reachable(l, Crowd(l, l.capacity - 1, counted, l.workers - counted))
  {
    if counted == 0 {
      AllSlipThrough(l, l.workers);
    } else {
      AllCountThemselves(l, counted - 1);
      var id := l.permits + l.capacity - 1 + counted - 1;
      var s := Crowd(l, l.capacity - 1, counted - 1, l.workers - counted + 1);
      Reaches(l, s, Count(id));
      assert Apply(l, s, Count(id)).tasks == Crowd(l, l.capacity - 1, counted, l.workers - counted).tasks;
    }
  }

  /** Some interleaving takes the counter all the way to capacity + workers - 1. */
  lemma BoundIsReached(l: Limits)
    requires Sane(l)
    ensures exists s :: Reachable(l, s) && s.waiting == l.capacity + l.workers - 1
  {
    AllCountThemselves(l, l.workers);
    assert Crowd(l, l.capacity - 1, l.workers, 0).waiting == l.capacity + l.workers - 1;
  }

  /** The configured queue capacity is never exceeded exactly when a single worker runs everything. */
  lemma CapacityHoldsExactly(l: Limits)
    requires Sane(l)
    ensures (forall s :: Reachable(l, s) ==> s.waiting <= l.capacity) <==> l.workers == 1
  {
    hide Reachable;
    BoundIsReached(l);
    forall s | Reachable(l, s) ensures s.waiting <= l.capacity + l.workers - 1 { WaitingIsBounded(l, s); }
  }

  // --- who gets in ------------------------------------------------------------------------------

  lemma TwoSteps(l: Limits, s: State, a: Action, b: Action)
    ensures After(l, s, [a, b]) == Apply(l, Apply(l, s, a), b)
    ensures Allowed(l, s, [a, b]) <==> Enabled(l, s, a) && Enabled(l, Apply(l, s, a), b)
  {
    hide Apply, Enabled;
    var s' := Apply(l, s, a);
    assert [a, b][1..] == [b] && [b][1..] == [];
    assert After(l, s', [b]) == Apply(l, s', b) && (Allowed(l, s', [b]) <==> Enabled(l, s', b));
  }

  /** A task that finds a permit free holds it two accesses after it came, without ever being counted as waiting. */
  lemma FreePermitIsTaken(l: Limits, s: State, id: nat)
    requires s.available > 0 && id !in s.tasks && FreeWorker(l, s)
    ensures var run := [Enter(id), TryAcquire(id)];
            var s' := After(l, s, run);
      && Allowed(l, s, run) && At(s', id, Holding) && s'.available == s.available - 1 && s'.waiting == s.waiting
  {
    TwoSteps(l, s, Enter(id), TryAcquire(id));
  }

  /** A waiting task takes a permit that comes free, and its place in the queue is given up. */
  lemma WaiterIsServed(l: Limits, s: State, id: nat)
    requires At(s, id, Parked) && s.available > 0 && s.waiting > 0 && FreeWorker(l, s)
    ensures var run := [Grant(id), DropGuard(id)];
            var s' := After(l, s, run);
      && Allowed(l, s, run) && At(s', id, Holding) && s'.available == s.available - 1 && s'.waiting == s.waiting - 1
  {
    TwoSteps(l, s, Grant(id), DropGuard(id));
  }

  /**
   * A task is turned away only at a full queue, after its deadline, or because it was cancelled while it waited; and a
   * permit comes free only when its holder gives it back.
   */
  lemma TurnedAwayOnly(l: Limits, s: State, a: Action, id: nat)
    requires Enabled(l, s, a) && id in s.tasks && id !in Apply(l, s, a).tasks
    ensures || (At(s, id, Refused) && s.waiting >= l.capacity) || At(s, id, TimedOut)
            || (At(s, id, Parked) && a == Cancel(id)) || (At(s, id, Holding) && a == Release(id))
    ensures Apply(l, s, a).available == s.available + if At(s, id, Holding) then 1 else 0
  {
  }
}
