/**
 * Task queues of the event loop, as interleaved atomic steps.
 *
 * A `Step` is one critical section of the source, or one call of a user callback between two
 * critical sections. Client threads and the loop thread interleave step by step, in any order.
 * `Next` specifies the steps on values, the class `EventLoop` performs them in place, and the
 * lemmas prove what every schedule keeps.
 *
 * The event base is modelled by its contract: `event_base_once` registers the callback, a
 * registered callback fires at most once and only while the base is being run, and callbacks
 * run one at a time on the loop thread. All tasks have a finalizer.
 */
module EventLoop {
  import opened Prelude

  type TaskId = nat

  const TASK_QUEUE_BUDGET: nat := 64

  datatype LoopState = Stopped | Running | BaseExited

  // What a client can observe of its task.
  datatype Observation = Ran | Cancelled | Finalized

  // The position of the loop thread.
  datatype LoopThread =
    | Waiting
    | PassEntered
    | PassNext(lastId: int, count: nat)
    | PassAction(lastId: int, count: nat, task: TaskId)
    | PassFinalizer(lastId: int, count: nat, task: TaskId)
    | TimerEntered(task: TaskId)
    | TimerAction(task: TaskId)
    | TimerFinalizer(task: TaskId)
  {
    predicate InPass() {
      PassEntered? || PassNext? || PassAction? || PassFinalizer?
    }

    predicate Holds(t: TaskId) {
      (PassAction? || PassFinalizer? || TimerAction? || TimerFinalizer?) && task == t
    }
  }

  datatype Loop = Loop(
    state: LoopState,
    stoppingExternally: bool,
    scheduled: bool,             // task_queue_scheduled
    queue: seq<TaskId>,          // task_queue
    deferred: seq<TaskId>,       // deferred_task_queue
    nextId: TaskId,              // g_next_task_id
    // Progress of the threads between critical sections.
    thread: LoopThread,
    registered: nat,             // run callbacks waiting in the event base
    registering: nat,            // submitters that set the flag and have not yet called event_base_once
    taken: set<TaskId>,          // ids drawn by `schedule` before it locks
    orphans: set<TaskId>,        // removed by a cancel or refused after exit, finalizer not yet called
    // History.
    life: seq<seq<Observation>>, // per task id
    runOrder: seq<TaskId>,       // tasks of `task_queue`, in the order their actions ran
    passQueue: seq<TaskId>,      // task queue when the current pass read its last id
    passBase: nat)               // |runOrder| at that moment
  {
    predicate FinalizedTask(t: TaskId) {
      t < |life| && Finalized in life[t]
    }
  }

  predicate Initial(s: Loop) {
    s == Loop(Stopped, false, false, [], [], 0, Waiting, 0, 0, {}, {}, [], [], [], 0)
  }

  datatype Step =
    | Submit | RegisterRun
    | DrawId | Schedule(id: TaskId)
    | Cancel(id: TaskId) | FinalizeOrphan(id: TaskId)
    | Run | BaseReturned
    | AnnounceStop | FinalizeExit | HijackDone
    | EnterPass | ReadLastId | NextTask | PassRun | PassFinalize
    | EnterTimer(id: TaskId) | TakeDeferred | TimerRun | TimerFinalize

  function Without(s: seq<TaskId>, t: TaskId): (r: seq<TaskId>)
    ensures forall x :: x in r <==> x in s && x != t
  {
    if s == [] then []
    else if s[0] == t then Without(s[1..], t)
    else [s[0]] + Without(s[1..], t)
  }

  /** Appends an observation to the history of one task. */
  function Observe(life: seq<seq<Observation>>, t: TaskId, o: Observation): seq<seq<Observation>> {
    if t < |life| then life[t := life[t] + [o]] else life
  }

  function FinalizeAll(life: seq<seq<Observation>>, ids: seq<TaskId>): (r: seq<seq<Observation>>)
    ensures |r| == |life|
  {
    if ids == [] then life
    else Observe(FinalizeAll(life, ids[..|ids| - 1]), ids[|ids| - 1], Finalized)
  }

  /** When a step can happen: program order, the stop barrier, and the contract of the event base. */
  predicate Enabled(s: Loop, step: Step) {
    match step
    case Submit => true
    case RegisterRun => s.registering > 0
    case DrawId => true
    case Schedule(id) => id in s.taken
    case Cancel(_) => true
    case FinalizeOrphan(id) => id in s.orphans
    case Run => s.state == Stopped
    case BaseReturned => s.state == Running && s.thread == Waiting
    case AnnounceStop => true
    case FinalizeExit => s.state != Running
    case HijackDone => s.state != Running
    case EnterPass => s.state == Running && s.thread == Waiting && s.registered > 0
    case ReadLastId => s.thread.PassEntered?
    case NextTask => s.thread.PassNext?
    case PassRun => s.thread.PassAction?
    case PassFinalize => s.thread.PassFinalizer?
    case EnterTimer(_) => s.state == Running && s.thread == Waiting
    case TakeDeferred => s.thread.TimerEntered?
    case TimerRun => s.thread.TimerAction?
    case TimerFinalize => s.thread.TimerFinalizer?
  }

  /** A task is queued, and the first one asks for the queue to be run; after the exit it is only finalized. */
  function Submitted(s: Loop): Loop {
    var drawn := s.(nextId := s.nextId + 1, life := s.life + [[]]);
    if s.state == BaseExited then drawn.(orphans := s.orphans + {s.nextId})
    else drawn.(queue := s.queue + [s.nextId],
                registering := if s.scheduled then s.registering else s.registering + 1,
                scheduled := true)
  }

  function Exited(s: Loop): Loop {
    s.(queue := [], deferred := [], state := Stopped, stoppingExternally := false,
       life := FinalizeAll(FinalizeAll(s.life, s.queue), s.deferred))
  }

  function PassBegun(s: Loop): Loop {
    s.(thread := PassNext(if s.queue == [] then -1 else s.queue[|s.queue| - 1], 0),
       passQueue := s.queue, passBase := |s.runOrder|)
  }

  /** The pass ends with the queue, at a task newer than the pass or at the budget; otherwise it takes the first task. */
  function TaskTaken(s: Loop): Loop
    requires s.thread.PassNext?
  {
    if s.queue == [] then s.(scheduled := false, thread := Waiting)
    else if s.queue[0] > s.thread.lastId || s.thread.count == TASK_QUEUE_BUDGET then
      s.(registered := s.registered + 1, thread := Waiting)
    else s.(queue := s.queue[1..], thread := PassAction(s.thread.lastId, s.thread.count, s.queue[0]))
  }

  function ActionRun(s: Loop): Loop
    requires s.thread.PassAction?
  {
    s.(thread := PassFinalizer(s.thread.lastId, s.thread.count, s.thread.task),
       life := Observe(s.life, s.thread.task, Ran), runOrder := s.runOrder + [s.thread.task])
  }

  function ActionFinalized(s: Loop): Loop
    requires s.thread.PassFinalizer?
  {
    s.(thread := PassNext(s.thread.lastId, s.thread.count + 1), life := Observe(s.life, s.thread.task, Finalized))
  }

  function Next(s: Loop, step: Step): Loop
    requires Enabled(s, step)
  {
    match step
    case Submit => Submitted(s)
    case RegisterRun => s.(registering := s.registering - 1, registered := s.registered + 1)
    case DrawId => s.(nextId := s.nextId + 1, life := s.life + [[]], taken := s.taken + {s.nextId})
    case Schedule(id) =>
      var left := s.(taken := s.taken - {id});
      if s.state == BaseExited then left.(orphans := s.orphans + {id})
      else left.(deferred := s.deferred + [id])
    case Cancel(id) =>
      if id in s.queue || id in s.deferred then
        s.(queue := Without(s.queue, id),
           deferred := if id in s.queue then s.deferred else Without(s.deferred, id),
           orphans := s.orphans + {id}, life := Observe(s.life, id, Cancelled))
      else s
    case FinalizeOrphan(id) => s.(orphans := s.orphans - {id}, life := Observe(s.life, id, Finalized))
    case Run => s.(state := Running)
    case BaseReturned => s.(state := if s.stoppingExternally then BaseExited else Stopped)
    case AnnounceStop => s.(stoppingExternally := true)
    case FinalizeExit => Exited(s)
    case HijackDone => s.(state := Stopped, stoppingExternally := false)
    case EnterPass => s.(registered := s.registered - 1, thread := PassEntered)
    case ReadLastId => PassBegun(s)
    case NextTask => TaskTaken(s)
    case PassRun => ActionRun(s)
    case PassFinalize => ActionFinalized(s)
    case EnterTimer(id) => s.(thread := TimerEntered(id))
    case TakeDeferred =>
      s.(deferred := Without(s.deferred, s.thread.task),
         thread := if s.thread.task in s.deferred then TimerAction(s.thread.task) else Waiting)
    case TimerRun => s.(thread := TimerFinalizer(s.thread.task), life := Observe(s.life, s.thread.task, Ran))
    case TimerFinalize => s.(thread := Waiting, life := Observe(s.life, s.thread.task, Finalized))
  }

  // ---- The invariant ----

  /**
   * The lifecycle law: an action runs at most once, before the finalizer and never after a
   * successful cancel, and the finalizer is called at most once.
   */
  predicate Lawful(life: seq<Observation>) {
    || life == [] || life == [Ran] || life == [Ran, Finalized]
    || life == [Cancelled] || life == [Cancelled, Finalized] || life == [Finalized]
  }

  function One(b: bool): nat {
    if b then 1 else 0
  }

  /** The number of places task `t` is in. */
  function Places(s: Loop, t: TaskId): nat {
    One(t in s.taken) + One(t in s.queue) + One(t in s.deferred) + One(s.thread.Holds(t)) + One(t in s.orphans)
    + One(s.FinalizedTask(t))
  }

  predicate TaskOk(s: Loop, t: TaskId) {
    && Places(s, t) == One(t < s.nextId)
    && (t < |s.life| ==>
          && Lawful(s.life[t])
          && (t in s.taken || t in s.queue || t in s.deferred ==> s.life[t] == [])
          && (s.thread.Holds(t) ==> s.life[t] == if s.thread.PassAction? || s.thread.TimerAction? then [] else [Ran])
          && (t in s.orphans ==> s.life[t] == [] || s.life[t] == [Cancelled]))
  }

  /** Every issued task is in exactly one place, and its history obeys the lifecycle law. */
  ghost predicate Accounted(s: Loop) {
    (forall t: TaskId :: TaskOk(s, t)) && Queued(s)
  }

  ghost predicate Queued(s: Loop) {
    |s.life| == s.nextId && NoDuplicates(s.deferred) && StrictlyIncreasing(s.queue)
  }

  /** No lost wakeup: the flag stands for exactly one run callback, registered, about to be, or running. */
  predicate Awake(s: Loop) {
    && (s.queue != [] ==> s.scheduled)
    && s.registered + s.registering + One(s.thread.InPass()) == One(s.scheduled)
    && (s.thread != Waiting ==> s.state == Running)
  }

  /** Tasks of `task_queue` run in submission order. */
  predicate Ordered(s: Loop) {
    && StrictlyIncreasing(s.runOrder)
    && (forall r | r in s.runOrder :: r < s.nextId && (s.thread.PassAction? ==> r < s.thread.task))
    && (forall q | q in s.queue :: s.thread.PassAction? ==> s.thread.task < q)
    && (forall r, q | r in s.runOrder && q in s.queue :: r < q)
  }

  /** A pass runs at most the budget, and only tasks that were queued when it started. */
  predicate Budgeted(s: Loop) {
    s.thread.PassNext? || s.thread.PassAction? || s.thread.PassFinalizer? ==>
      && s.passBase <= |s.runOrder|
      && |s.runOrder| - s.passBase == s.thread.count + One(s.thread.PassFinalizer?)
      && s.thread.count + One(!s.thread.PassNext?) <= TASK_QUEUE_BUDGET
      && (!s.thread.PassNext? ==> s.thread.task in s.passQueue)
      && s.thread.lastId < s.nextId
      && (forall r | r in s.runOrder[s.passBase..] :: r in s.passQueue)
      && (forall q | q in s.queue && q <= s.thread.lastId :: q in s.passQueue)
  }

  ghost predicate Inv(s: Loop) {
    Accounted(s) && Awake(s) && Ordered(s) && Budgeted(s)
  }

  // ---- Sequences of ids ----

  lemma IncreasingParts(s: seq<TaskId>)
    requires StrictlyIncreasing(s) && s != []
    ensures StrictlyIncreasing(s[1..])
    ensures s == [s[0]] + s[1..]
    ensures forall x | x in s[1..] :: s[0] < x
  {
  }

  lemma IncreasingSnoc(s: seq<TaskId>, x: TaskId)
    requires StrictlyIncreasing(s)
    requires forall y | y in s :: y < x
    ensures StrictlyIncreasing(s + [x])
  {
    assert forall i | 0 <= i < |s| :: s[i] in s;
  }

  lemma {:induction false} WithoutIncreasing(s: seq<TaskId>, t: TaskId)
    requires StrictlyIncreasing(s)
    ensures StrictlyIncreasing(Without(s, t))
  {
    if s != [] {
      IncreasingParts(s);
      WithoutIncreasing(s[1..], t);
      var r := Without(s[1..], t);
      assert forall i | 0 <= i < |r| :: r[i] in r;
    }
  }

  lemma {:induction false} WithoutDistinct(s: seq<TaskId>, t: TaskId)
    requires NoDuplicates(s)
    ensures NoDuplicates(Without(s, t))
  {
    if s != [] {
      WithoutDistinct(s[1..], t);
      var r := Without(s[1..], t);
      assert forall i | 0 <= i < |r| :: r[i] in r;
      assert s[0] !in s[1..];
    }
  }

  lemma {:induction false} WithoutAbsent(s: seq<TaskId>, t: TaskId)
    requires t !in s
    ensures Without(s, t) == s
  {
    if s != [] {
      WithoutAbsent(s[1..], t);
    }
  }

  /** Erasing one position of a list without repetitions. */
  lemma {:induction false} EraseAt(s: seq<TaskId>, i: nat)
    requires NoDuplicates(s) && i < |s|
    ensures Without(s, s[i]) == s[..i] + s[i + 1..]
  {
    if i == 0 {
      WithoutAbsent(s[1..], s[0]);
    } else {
      EraseAt(s[1..], i - 1);
    }
  }

  lemma FinalizeAllNext(life: seq<seq<Observation>>, ids: seq<TaskId>, i: nat)
    requires i < |ids|
    ensures FinalizeAll(life, ids[..i + 1]) == Observe(FinalizeAll(life, ids[..i]), ids[i], Finalized)
  {
    assert ids[..i + 1][..i] == ids[..i];
  }

  lemma {:induction false} FinalizeAllAt(life: seq<seq<Observation>>, ids: seq<TaskId>, t: TaskId)
    requires NoDuplicates(ids) && t < |life|
    ensures FinalizeAll(life, ids)[t] == if t in ids then life[t] + [Finalized] else life[t]
  {
    if ids != [] {
      var front, last := ids[..|ids| - 1], ids[|ids| - 1];
      assert ids == front + [last] && last !in front;
      FinalizeAllAt(life, front, t);
    }
  }

  // ---- Preservation ----

  lemma AwakeKept(s: Loop, step: Step)
    requires Inv(s) && Enabled(s, step)
    ensures Awake(Next(s, step))
  {
  }

  lemma ExitTaskOk(s: Loop, t: TaskId)
    requires Inv(s) && s.state != Running
    ensures TaskOk(Next(s, FinalizeExit), t)
  {
    assert TaskOk(s, t);
    if t < |s.life| {
      FinalizeAllAt(s.life, s.queue, t);
      FinalizeAllAt(FinalizeAll(s.life, s.queue), s.deferred, t);
      assert [] + [Finalized] == [Finalized];
    }
  }

  lemma OrphanTaskOk(s: Loop, step: Step, t: TaskId)
    requires Inv(s) && Enabled(s, step) && (step.Cancel? || step.FinalizeOrphan?)
    ensures TaskOk(Next(s, step), t)
  {
    assert TaskOk(s, t);
    if t < |s.life| {
      HistoryMore(s.life[t]);
    }
  }

  lemma RunTaskOk(s: Loop, step: Step, t: TaskId)
    requires Inv(s) && Enabled(s, step) && (step.PassRun? || step.TimerRun?)
    ensures TaskOk(Next(s, step), t)
  {
    assert TaskOk(s, t);
    if t < |s.life| {
      HistoryMore(s.life[t]);
    }
  }

  lemma FinalizeTaskOk(s: Loop, step: Step, t: TaskId)
    requires Inv(s) && Enabled(s, step) && (step.PassFinalize? || step.TimerFinalize?)
    ensures TaskOk(Next(s, step), t)
  {
    assert TaskOk(s, t);
    if t < |s.life| {
      HistoryMore(s.life[t]);
    }
  }

  lemma HistoryMore(life: seq<Observation>)
    ensures life == [] ==> life + [Ran] == [Ran] && life + [Cancelled] == [Cancelled] && life + [Finalized] == [Finalized]
    ensures life == [Ran] ==> life + [Finalized] == [Ran, Finalized]
    ensures life == [Cancelled] ==> life + [Finalized] == [Cancelled, Finalized]
  {
  }

  lemma SubmitTaskOk(s: Loop, t: TaskId)
    requires TaskOk(s, t) && |s.life| == s.nextId
    ensures TaskOk(Submitted(s), t)
  {
  }

  lemma ScheduleTaskOk(s: Loop, step: Step, t: TaskId)
    requires TaskOk(s, t) && |s.life| == s.nextId && Enabled(s, step) && (step.DrawId? || step.Schedule?)
    ensures TaskOk(Next(s, step), t)
  {
    match step
    case DrawId =>
    case Schedule(_) =>
  }

  lemma ThreadTaskOk(s: Loop, step: Step, t: TaskId)
    requires Inv(s) && Enabled(s, step)
    requires step.EnterPass? || step.ReadLastId? || step.EnterTimer? || step.TakeDeferred?
    ensures TaskOk(Next(s, step), t)
  {
    assert TaskOk(s, t);
  }

  lemma NextTaskOk(s: Loop, t: TaskId)
    requires Inv(s) && Enabled(s, NextTask)
    ensures TaskOk(Next(s, NextTask), t)
  {
    assert TaskOk(s, t);
    if s.queue != [] {
      IncreasingParts(s.queue);
    }
  }

  lemma TaskOkKept(s: Loop, step: Step, t: TaskId)
    requires Inv(s) && Enabled(s, step)
    ensures TaskOk(Next(s, step), t)
  {
    if step.FinalizeExit? {
      ExitTaskOk(s, t);
    } else if step.Submit? {
      assert TaskOk(s, t);
      SubmitTaskOk(s, t);
    } else if step.DrawId? || step.Schedule? {
      assert TaskOk(s, t);
      ScheduleTaskOk(s, step, t);
    } else if step.NextTask? {
      NextTaskOk(s, t);
    } else if step.EnterPass? || step.ReadLastId? || step.EnterTimer? || step.TakeDeferred? {
      ThreadTaskOk(s, step, t);
    } else if step.RegisterRun? || step.Run? || step.BaseReturned? || step.AnnounceStop? || step.HijackDone? {
      assert TaskOk(s, t);
    } else if step.PassRun? || step.TimerRun? {
      RunTaskOk(s, step, t);
    } else if step.PassFinalize? || step.TimerFinalize? {
      FinalizeTaskOk(s, step, t);
    } else {
      OrphanTaskOk(s, step, t);
    }
  }

  lemma AccountedKept(s: Loop, step: Step)
    requires Inv(s) && Enabled(s, step)
    ensures Accounted(Next(s, step))
  {
    forall t: TaskId ensures TaskOk(Next(s, step), t) {
      TaskOkKept(s, step, t);
    }
    QueuedKept(s, step);
  }

  lemma QueuedKept(s: Loop, step: Step)
    requires Inv(s) && Enabled(s, step)
    ensures Queued(Next(s, step))
  {
    match step
    case Cancel(id) =>
      WithoutIncreasing(s.queue, id);
      WithoutDistinct(s.deferred, id);
    case TakeDeferred => WithoutDistinct(s.deferred, s.thread.task);
    case NextTask => if s.queue != [] { IncreasingParts(s.queue); }
    case Submit => QueuedSubmit(s);
    case Schedule(id) => QueuedSchedule(s, id);
    case _ =>
  }

  lemma QueuedSubmit(s: Loop)
    requires Inv(s)
    ensures Queued(Submitted(s))
  {
    forall q | q in s.queue ensures q < s.nextId {
      assert TaskOk(s, q);
    }
    IncreasingSnoc(s.queue, s.nextId);
  }

  lemma QueuedSchedule(s: Loop, id: TaskId)
    requires Inv(s) && Enabled(s, Schedule(id))
    ensures NoDuplicates(s.deferred + [id])
  {
    assert TaskOk(s, id);
  }

  lemma OrderedKept(s: Loop, step: Step)
    requires Inv(s) && Enabled(s, step)
    ensures Ordered(Next(s, step))
  {
    match step
    case Submit => OrderedSubmit(s);
    case NextTask => OrderedNextTask(s);
    case PassRun => OrderedPassRun(s);
    case _ =>
  }

  lemma OrderedSubmit(s: Loop)
    requires Inv(s) && Enabled(s, Submit)
    ensures Ordered(Next(s, Submit))
  {
    if s.thread.PassAction? {
      assert TaskOk(s, s.thread.task) && s.thread.Holds(s.thread.task);
    }
  }

  lemma OrderedNextTask(s: Loop)
    requires Inv(s) && Enabled(s, NextTask)
    ensures Ordered(Next(s, NextTask))
  {
    if s.queue != [] {
      IncreasingParts(s.queue);
      assert s.queue[0] in s.queue && TaskOk(s, s.queue[0]);
    }
  }

  lemma OrderedPassRun(s: Loop)
    requires Inv(s) && Enabled(s, PassRun)
    ensures Ordered(Next(s, PassRun))
  {
    assert TaskOk(s, s.thread.task) && s.thread.Holds(s.thread.task);
    IncreasingSnoc(s.runOrder, s.thread.task);
  }

  lemma BudgetedKept(s: Loop, step: Step)
    requires Inv(s) && Enabled(s, step)
    ensures Budgeted(Next(s, step))
  {
    match step
    case ReadLastId => BudgetedReadLastId(s);
    case NextTask => BudgetedNextTask(s);
    case PassRun => BudgetedPassRun(s);
    case _ =>
  }

  lemma BudgetedReadLastId(s: Loop)
    requires Inv(s) && Enabled(s, ReadLastId)
    ensures Budgeted(Next(s, ReadLastId))
  {
    if s.queue != [] {
      assert TaskOk(s, s.queue[|s.queue| - 1]);
    }
  }

  lemma BudgetedNextTask(s: Loop)
    requires Inv(s) && Enabled(s, NextTask)
    ensures Budgeted(Next(s, NextTask))
  {
    if s.queue != [] {
      assert s.queue[0] in s.queue;
    }
  }

  lemma BudgetedPassRun(s: Loop)
    requires Inv(s) && Enabled(s, PassRun)
    ensures Budgeted(Next(s, PassRun))
  {
    assert (s.runOrder + [s.thread.task])[s.passBase..] == s.runOrder[s.passBase..] + [s.thread.task];
  }

  lemma InvKept(s: Loop, step: Step)
    requires Inv(s) && Enabled(s, step)
    ensures Inv(Next(s, step))
  {
    AccountedKept(s, step);
    AwakeKept(s, step);
    OrderedKept(s, step);
    BudgetedKept(s, step);
  }

  // ---- What every schedule guarantees ----

  ghost predicate Possible(s: Loop, schedule: seq<Step>)
    decreases |schedule|
  {
    schedule == [] || (Enabled(s, schedule[0]) && Possible(Next(s, schedule[0]), schedule[1..]))
  }

  ghost function After(s: Loop, schedule: seq<Step>): Loop
    requires Possible(s, schedule)
    decreases |schedule|
  {
    if schedule == [] then s else After(Next(s, schedule[0]), schedule[1..])
  }

  lemma {:induction false} InvAlways(s: Loop, schedule: seq<Step>)
    requires Inv(s) && Possible(s, schedule)
    ensures Inv(After(s, schedule))
    decreases |schedule|
  {
    if schedule != [] {
      InvKept(s, schedule[0]);
      InvAlways(Next(s, schedule[0]), schedule[1..]);
    }
  }

  lemma Reached(s0: Loop, schedule: seq<Step>)
    requires Initial(s0) && Possible(s0, schedule)
    ensures Inv(After(s0, schedule))
  {
    assert Inv(s0) by {
      forall t: TaskId ensures TaskOk(s0, t) {}
    }
    InvAlways(s0, schedule);
  }

  /**
   * Each issued task is in exactly one queue, in flight, awaiting its finalizer, or finalized, and
   * its history obeys the lifecycle law; tasks run in submission order; a non-empty queue has
   * exactly one run callback pending or running.
   */
  ghost predicate Safe(s: Loop) {
    && |s.life| == s.nextId
    && (forall t: TaskId | t < s.nextId :: Places(s, t) == 1 && Lawful(s.life[t]))
    && StrictlyIncreasing(s.queue) && StrictlyIncreasing(s.runOrder)
    && (s.queue != [] ==> s.registered + s.registering + One(s.thread.InPass()) == 1)
  }

  lemma InvIsSafe(s: Loop)
    requires Inv(s)
    ensures Safe(s)
  {
    forall t: TaskId | t < s.nextId ensures Places(s, t) == 1 && Lawful(s.life[t]) { assert TaskOk(s, t); }
  }

  /** Every interleaving is safe. */
  lemma EverySchedule(s0: Loop, schedule: seq<Step>)
    requires Initial(s0) && Possible(s0, schedule)
    ensures Safe(After(s0, schedule))
  {
    Reached(s0, schedule);
    InvIsSafe(After(s0, schedule));
  }

  /** Within a pass, the tasks run so far are at most the budget and were all queued at its start. */
  lemma PassIsBounded(s0: Loop, schedule: seq<Step>)
    requires Initial(s0) && Possible(s0, schedule) && After(s0, schedule).thread.PassNext?
    ensures var s := After(s0, schedule);
            && s.passBase <= |s.runOrder| <= s.passBase + TASK_QUEUE_BUDGET
            && (forall r | r in s.runOrder[s.passBase..] :: r in s.passQueue)
  {
    Reached(s0, schedule);
  }

  /** After an exit only tasks whose client call is still under way are not finalized. */
  lemma ExitFinalizesEverything(s0: Loop, schedule: seq<Step>, t: TaskId)
    requires Initial(s0) && Possible(s0, schedule)
    requires var s := After(s0, schedule);
             s.state != Running && t < s.nextId && t !in s.taken && t !in s.orphans
    ensures Next(After(s0, schedule), FinalizeExit).FinalizedTask(t)
  {
    Reached(s0, schedule);
    ExitFinalizes(After(s0, schedule), t);
  }

  lemma ExitFinalizes(s: Loop, t: TaskId)
    requires Inv(s) && s.state != Running && t < s.nextId && t !in s.taken && t !in s.orphans
    ensures Next(s, FinalizeExit).FinalizedTask(t)
  {
    ExitTaskOk(s, t);
  }

  lemma HistoryGrows(s: Loop, step: Step, t: TaskId)
    requires Inv(s) && Enabled(s, step) && t < |s.life|
    ensures t < |Next(s, step).life| && s.life[t] <= Next(s, step).life[t]
  {
    match step
    case FinalizeExit =>
      FinalizeAllAt(s.life, s.queue, t);
      FinalizeAllAt(FinalizeAll(s.life, s.queue), s.deferred, t);
    case Cancel(id) => ObserveGrows(s.life, id, Cancelled, t);
    case FinalizeOrphan(id) => ObserveGrows(s.life, id, Finalized, t);
    case PassRun => ObserveGrows(s.life, s.thread.task, Ran, t);
    case TimerRun => ObserveGrows(s.life, s.thread.task, Ran, t);
    case PassFinalize => ObserveGrows(s.life, s.thread.task, Finalized, t);
    case TimerFinalize => ObserveGrows(s.life, s.thread.task, Finalized, t);
    case _ =>
  }

  lemma ObserveGrows(life: seq<seq<Observation>>, id: TaskId, o: Observation, t: TaskId)
    requires t < |life|
    ensures t < |Observe(life, id, o)| && life[t] <= Observe(life, id, o)[t]
  {
  }

  /** A successful cancel is final: whatever happens later, the action of that task never runs. */
  lemma {:induction false} CancelIsFinal(s: Loop, id: TaskId, later: seq<Step>)
    requires Inv(s) && Possible(s, later)
    requires id < s.nextId && Cancelled in s.life[id]
    ensures id < |After(s, later).life| && Ran !in After(s, later).life[id]
    decreases |later|
  {
    assert TaskOk(s, id);
    if later != [] {
      InvKept(s, later[0]);
      HistoryGrows(s, later[0], id);
      CancelIsFinal(Next(s, later[0]), id, later[1..]);
    }
  }

  // ---- The loop object ----

  /**
   * The preconditions on the queues are parts of `Inv`, so they hold in every reachable state;
   * `InvKept` carries `Inv` across each method, since each performs a `Next` step.
   */
  class EventLoop {
    var state: LoopState
    var stoppingExternally: bool
    var taskQueueScheduled: bool
    var taskQueue: seq<TaskId>
    var deferredTaskQueue: seq<TaskId>
    var nextTaskId: TaskId
    var thread: LoopThread
    var registered: nat
    var registering: nat
    var taken: set<TaskId>
    var orphans: set<TaskId>
    ghost var life: seq<seq<Observation>>
    ghost var runOrder: seq<TaskId>
    ghost var passQueue: seq<TaskId>
    ghost var passBase: nat

    ghost function View(): Loop
      reads this
    {
      Loop(state, stoppingExternally, taskQueueScheduled, taskQueue, deferredTaskQueue, nextTaskId, thread,
           registered, registering, taken, orphans, life, runOrder, passQueue, passBase)
    }

    constructor ()
      ensures Initial(View())
    {
      state, stoppingExternally, taskQueueScheduled := Stopped, false, false;
      taskQueue, deferredTaskQueue, nextTaskId := [], [], 0;
      thread, registered, registering, taken, orphans := Waiting, 0, 0, {}, {};
      life, runOrder, passQueue, passBase := [], [], [], 0;
    }

    /** `vpn_event_loop_submit` up to the unlock. `None` stands for the returned -1. */
    method Submit() returns (id: Option<TaskId>)
      modifies this
      ensures View() == Submitted(old(View()))
      ensures id == if state == BaseExited then None else Some(old(nextTaskId))
    {
      var taskId := nextTaskId;
      nextTaskId, life := nextTaskId + 1, life + [[]];
      if state == BaseExited {
        orphans := orphans + {taskId};
        return None;
      }
      taskQueue := taskQueue + [taskId];
      if !taskQueueScheduled {
        taskQueueScheduled := true;
        registering := registering + 1;
      }
      return Some(taskId);
    }

    /** The critical section of `vpn_event_loop_schedule`. */
    method Schedule(id: TaskId) returns (accepted: bool)
      requires id in taken
      modifies this`taken, this`deferredTaskQueue, this`orphans
      ensures View() == Next(old(View()), Step.Schedule(id))
      ensures accepted <==> state != BaseExited
    {
      taken := taken - {id};
      accepted := state != BaseExited;
      if accepted {
        deferredTaskQueue := deferredTaskQueue + [id];
      } else {
        orphans := orphans + {id};
      }
    }

    /** The critical section of `vpn_event_loop_cancel`: first `task_queue`, then the deferred one. */
    method Cancel(id: TaskId) returns (found: bool)
      requires NoDuplicates(taskQueue) && NoDuplicates(deferredTaskQueue)
      modifies this`taskQueue, this`deferredTaskQueue, this`orphans, this`life
      ensures View() == Next(old(View()), Step.Cancel(id))
      ensures found <==> id in old(taskQueue) || id in old(deferredTaskQueue)
    {
      found := false;
      var i := 0;
      while i < |taskQueue| && taskQueue[i] != id
        invariant i <= |taskQueue| && id !in taskQueue[..i]
      {
        i := i + 1;
      }
      if i < |taskQueue| {
        EraseAt(taskQueue, i);
        taskQueue := taskQueue[..i] + taskQueue[i + 1..];
        found := true;
      } else {
        WithoutAbsent(taskQueue, id);
        i := 0;
        while i < |deferredTaskQueue| && deferredTaskQueue[i] != id
          invariant i <= |deferredTaskQueue| && id !in deferredTaskQueue[..i]
        {
          i := i + 1;
        }
        if i < |deferredTaskQueue| {
          EraseAt(deferredTaskQueue, i);
          deferredTaskQueue := deferredTaskQueue[..i] + deferredTaskQueue[i + 1..];
          found := true;
        }
      }
      if found {
        orphans := orphans + {id};
        life := Observe(life, id, Cancelled);
      }
    }

    method FinalizeTasks(ids: seq<TaskId>)
      modifies this`life
      ensures life == FinalizeAll(old(life), ids)
    {
      var i := 0;
      while i < |ids|
        invariant i <= |ids| && life == FinalizeAll(old(life), ids[..i])
      {
        FinalizeAllNext(old(life), ids, i);
        life := Observe(life, ids[i], Finalized);
        i := i + 1;
      }
      assert ids[..i] == ids;
    }

    /** `vpn_event_loop_finalize_exit` once the barrier opened; the lock is held throughout. */
    method FinalizeExit()
      requires state != Running
      modifies this`taskQueue, this`deferredTaskQueue, this`state, this`stoppingExternally, this`life
      ensures View() == Exited(old(View()))
    {
      FinalizeTasks(taskQueue);
      taskQueue := [];
      FinalizeTasks(deferredTaskQueue);
      deferredTaskQueue := [];
      state, stoppingExternally := Stopped, false;
    }

    /** First critical section of `run_task_queue`; its branch for a misordered queue is dead. */
    method ReadLastId()
      requires thread == PassEntered && StrictlyIncreasing(taskQueue)
      modifies this`thread, this`passQueue, this`passBase
      ensures View() == PassBegun(old(View()))
    {
      var lastId: int := -1;
      if taskQueue != [] {
        assert taskQueue[0] <= taskQueue[|taskQueue| - 1];
        lastId := taskQueue[|taskQueue| - 1];
      }
      passQueue, passBase := taskQueue, |runOrder|;
      thread := PassNext(lastId, 0);
    }

    /** The critical section of one iteration of `run_task_queue`: stop, re-register, or take a task. */
    method NextTask() returns (task: Option<TaskId>)
      requires thread.PassNext?
      modifies this`thread, this`taskQueueScheduled, this`registered, this`taskQueue
      ensures View() == TaskTaken(old(View()))
      ensures task.Some? <==> thread.PassAction?
      ensures task.Some? ==> thread.task == task.value
    {
      if taskQueue == [] {
        taskQueueScheduled := false;
        thread := Waiting;
        return None;
      }
      if taskQueue[0] > thread.lastId || thread.count == TASK_QUEUE_BUDGET {
        registered := registered + 1;
        thread := Waiting;
        return None;
      }
      task := Some(taskQueue[0]);
      taskQueue := taskQueue[1..];
      thread := PassAction(thread.lastId, thread.count, task.value);
    }

    /** The critical section of `run_deferred_task`; its task may have been cancelled in the meantime. */
    method TakeDeferred() returns (found: bool)
      requires thread.TimerEntered? && NoDuplicates(deferredTaskQueue)
      modifies this`thread, this`deferredTaskQueue
      ensures View() == Next(old(View()), Step.TakeDeferred)
      ensures found <==> old(thread).task in old(deferredTaskQueue)
    {
      var t := thread.task;
      var i := 0;
      while i < |deferredTaskQueue| && deferredTaskQueue[i] != t
        invariant i <= |deferredTaskQueue| && t !in deferredTaskQueue[..i]
      {
        i := i + 1;
      }
      found := i < |deferredTaskQueue|;
      if found {
        EraseAt(deferredTaskQueue, i);
        deferredTaskQueue := deferredTaskQueue[..i] + deferredTaskQueue[i + 1..];
        thread := TimerAction(t);
      } else {
        WithoutAbsent(deferredTaskQueue, t);
        thread := Waiting;
      }
    }

    /** The action of a task, called between two critical sections. */
    method PassRun()
      requires thread.PassAction?
      modifies this`thread, this`life, this`runOrder
      ensures View() == ActionRun(old(View()))
    {
      life, runOrder := Observe(life, thread.task, Ran), runOrder + [thread.task];
      thread := PassFinalizer(thread.lastId, thread.count, thread.task);
    }

    method PassFinalize()
      requires thread.PassFinalizer?
      modifies this`thread, this`life
      ensures View() == ActionFinalized(old(View()))
    {
      life := Observe(life, thread.task, Finalized);
      thread := PassNext(thread.lastId, thread.count + 1);
    }

    /** One iteration of `run_task_queue`, after `done`: a task is taken, run and finalized, or the pass ends. */
    method Iterate(ghost start: Loop, ghost done: seq<Step>) returns (more: bool, ghost schedule: seq<Step>)
      requires thread.PassNext? && Possible(start, done) && View() == After(start, done)
      modifies this`thread, this`taskQueueScheduled, this`registered, this`taskQueue, this`life, this`runOrder
      ensures Possible(start, schedule) && View() == After(start, schedule)
      ensures more <==> old(taskQueue) != [] && old(taskQueue)[0] <= old(thread).lastId && old(thread).count != TASK_QUEUE_BUDGET
      ensures more ==>
                && thread == PassNext(old(thread).lastId, old(thread).count + 1)
                && taskQueue == old(taskQueue)[1..] && runOrder == old(runOrder) + [old(taskQueue)[0]]
                && registered == old(registered) && taskQueueScheduled == old(taskQueueScheduled)
      ensures !more ==>
                && thread == Waiting && taskQueue == old(taskQueue) && runOrder == old(runOrder)
                && registered == old(registered) + One(taskQueue != [])
                && taskQueueScheduled == (taskQueue != [] && old(taskQueueScheduled))
    {
      ghost var before := View();
      var task := NextTask();
      more := task.Some?;
      if more {
        PassRun();
        PassFinalize();
        WholeIteration(before);
        schedule := done + [Step.NextTask, Step.PassRun, Step.PassFinalize];
        StepsJoin(start, done, [Step.NextTask, Step.PassRun, Step.PassFinalize]);
      } else {
        OneStep(before, Step.NextTask);
        schedule := done + [Step.NextTask];
        StepsJoin(start, done, [Step.NextTask]);
      }
    }

    /**
     * A whole call of `run_task_queue`, with nothing else happening meanwhile: it runs and
     * finalizes the first tasks of the queue, in order, up to the budget, then re-registers
     * itself exactly when tasks are left. It is a schedule of the steps above.
     */
    method RunTaskQueue() returns (ghost schedule: seq<Step>)
      requires thread == PassEntered && StrictlyIncreasing(taskQueue) && taskQueueScheduled
      modifies this
      ensures Possible(old(View()), schedule) && View() == After(old(View()), schedule) && thread == Waiting
      ensures var n := Min(|old(taskQueue)|, TASK_QUEUE_BUDGET);
              && taskQueue == old(taskQueue)[n..]
              && runOrder == old(runOrder) + old(taskQueue)[..n]
              && registered == old(registered) + One(taskQueue != [])
              && taskQueueScheduled == (taskQueue != [])
    {
      ghost var queue, start := taskQueue, View();
      OneStep(start, Step.ReadLastId);
      ReadLastId();
      schedule := [Step.ReadLastId];
      var i, more := 0, true;
      while more
        invariant i <= |queue| && i <= TASK_QUEUE_BUDGET
        invariant Possible(start, schedule) && View() == After(start, schedule)
        invariant taskQueue == queue[i..] && runOrder == old(runOrder) + queue[..i]
        invariant more ==> thread == PassNext(if queue == [] then -1 else queue[|queue| - 1], i)
        invariant more ==> registered == old(registered) && taskQueueScheduled
        invariant !more ==>
                    && thread == Waiting && (i == |queue| || i == TASK_QUEUE_BUDGET)
                    && registered == old(registered) + One(taskQueue != []) && taskQueueScheduled == (taskQueue != [])
        decreases more, |queue| - i
      {
        if i < |queue| {
          NextInQueue(old(runOrder), queue, i);
        }
        more, schedule := Iterate(start, schedule);
        i := if more then i + 1 else i;
      }
    }
  }

  lemma NextInQueue(ran: seq<TaskId>, queue: seq<TaskId>, i: nat)
    requires StrictlyIncreasing(queue) && i < |queue|
    ensures queue[i..][0] == queue[i] <= queue[|queue| - 1] && queue[i..][1..] == queue[i + 1..]
    ensures (ran + queue[..i]) + [queue[i]] == ran + queue[..i + 1]
  {
    assert queue[..i + 1] == queue[..i] + [queue[i]];
  }

  lemma OneStep(s: Loop, step: Step)
    requires Enabled(s, step)
    ensures Possible(s, [step]) && After(s, [step]) == Next(s, step)
  {
    assert [step][1..] == [];
    assert After(Next(s, step), []) == Next(s, step);
  }

  lemma {:induction false} StepsJoin(s: Loop, a: seq<Step>, b: seq<Step>)
    requires Possible(s, a) && Possible(After(s, a), b)
    ensures Possible(s, a + b) && After(s, a + b) == After(After(s, a), b)
    decreases |a|
  {
    if a == [] {
      assert a + b == b;
    } else {
      assert (a + b)[0] == a[0] && (a + b)[1..] == a[1..] + b;
      StepsJoin(Next(s, a[0]), a[1..], b);
    }
  }

  lemma WholeIteration(s: Loop)
    requires s.thread.PassNext? && TaskTaken(s).thread.PassAction?
    ensures var steps := [Step.NextTask, Step.PassRun, Step.PassFinalize];
      Possible(s, steps) && After(s, steps) == ActionFinalized(ActionRun(TaskTaken(s)))
  {
    OneStep(s, NextTask);
    OneStep(TaskTaken(s), PassRun);
    OneStep(ActionRun(TaskTaken(s)), PassFinalize);
    StepsJoin(TaskTaken(s), [Step.PassRun], [Step.PassFinalize]);
    StepsJoin(s, [Step.NextTask], [Step.PassRun] + [Step.PassFinalize]);
    assert [Step.NextTask] + ([Step.PassRun] + [Step.PassFinalize]) == [Step.NextTask, Step.PassRun, Step.PassFinalize];
  }
}
