/**
 Waitqueues and runqueues as a state machine. Each step is one section under a spinlock
 of src/lib/wait.c or src/generic/scheduler.c, or one unlocked write; wakers of any number
 interleave freely. In particular the two writes of a resume, state first and runqueue
 second, are two steps.

 A waitqueue entry is identified by its task.
 */
module Waiting {
  import opened Basics

  type Tid = nat
  type Wqh = nat
  type Cpu = nat

  /** Who runs wake-up code: a task, or an interrupt handler on a cpu. */
  datatype Waker = TaskCtx(tid: Tid) | IrqCtx(cpu: Cpu)

  datatype RunState = Runnable | Sleeping | Inactive

  /** A ktcb: its state, the waitqueue head it waits on, its cpu, and its flags. */
  datatype Task = Task(state: RunState, on: Option<Wqh>, cpu: Cpu, idle: bool, interrupted: bool, ticks: nat)

  /** A waitqueue_head (list and sleepers) or a runqueue (list and total). */
  datatype Queue = Queue(list: seq<Tid>, count: int)

  /** Where a cpu is: outside schedule(), on its way there with a task that gave up its
      runqueue, between taking current off its queue and putting it back, or about to
      select the next task. */
  datatype Phase = Outside | Leaving | Requeuing | Choosing

  datatype Sched = Sched(current: Tid, idle: Tid, runnable: Queue, expired: Queue, phase: Phase)

  /** A waker in the middle of wake_up_task's two lock sections, with a task that it took
      off a queue and has yet to resume, or with a task that it made runnable and has yet
      to put on a runqueue. */
  datatype Hold = Free | Peeked(task: Tid, head: Wqh) | Holding(task: Tid) | Resuming(task: Tid)

  datatype Kernel = Kernel(tasks: map<Tid, Task>, heads: map<Wqh, Queue>, cpus: map<Cpu, Sched>, wakers: map<Waker, Hold>)

  // ---------------------------------------------------------------------------
  // Queues
  // ---------------------------------------------------------------------------

  function Pushed(q: Queue, t: Tid, front: bool): Queue {
    Queue(if front then [t] + q.list else q.list + [t], q.count + 1)
  }

  function Taken(q: Queue, t: Tid): Queue {
    Queue(Remove(q.list, t), q.count - 1)
  }

  predicate QueueOk(q: Queue) {
    NoDup(q.list) && q.count == |q.list|
  }

  lemma PushedOk(q: Queue, t: Tid, front: bool)
    requires QueueOk(q) && t !in q.list
    ensures QueueOk(Pushed(q, t, front)) && forall x :: x in Pushed(q, t, front).list <==> x in q.list || x == t
  {
  }

  lemma TakenOk(q: Queue, t: Tid)
    requires QueueOk(q) && t in q.list
    ensures QueueOk(Taken(q, t)) && forall x :: x in Taken(q, t).list <==> x in q.list && x != t
  {
  }

  // ---------------------------------------------------------------------------
  // Runqueues
  // ---------------------------------------------------------------------------

  predicate Queued(s: Sched, t: Tid) {
    t in s.runnable.list || t in s.expired.list
  }

  /** sched_rq_remove_task: from whichever runqueue the task is on. */
  function RqRemove(s: Sched, t: Tid): Sched {
    if t in s.runnable.list then s.(runnable := Taken(s.runnable, t)) else s.(expired := Taken(s.expired, t))
  }

  /** sched_select_next with sched_prepare_next's queueing of the idle task. */
  function Select(s: Sched, runIdle: bool, irq: bool): Sched {
    if runIdle then s.(current := s.idle)
    else if s.runnable.count > 0 && s.runnable.list != [] then s.(current := s.runnable.list[0])
    else if s.expired.count > 0 && s.expired.list != [] then s.(current := s.expired.list[0], runnable := s.expired, expired := s.runnable)
    else if !irq then s.(current := s.idle)
    else s
  }

  function WithIdle(s: Sched): Sched {
    if s.current == s.idle then s.(runnable := Pushed(s.runnable, s.idle, true)) else s
  }

  /** Back outside schedule(). An interrupt that finds nobody runnable returns to a task
      that was on its way to schedule() and still is. */
  function Chosen(s: Sched): Sched {
    WithIdle(s).(phase := if Queued(WithIdle(s), s.current) then Outside else Leaving)
  }

  // ---------------------------------------------------------------------------
  // Steps
  // ---------------------------------------------------------------------------

  datatype Step =
    | WaitOn(c: Cpu, h: Wqh)
    | TakeHead(w: Waker, h: Wqh, interrupt: bool)
    | Peek(w: Waker, t: Tid)
    | TakePeeked(w: Waker, interrupt: bool)
    | MarkRunnable(w: Waker, sync: bool)
    | Start(w: Waker, t: Tid)
    | Enqueue(w: Waker, late: bool)
    | Suspend(c: Cpu)
    | Tick(c: Cpu, ticks: nat)
    | Unqueue(c: Cpu)
    | Requeue(c: Cpu)
    | Choose(c: Cpu, runIdle: bool, irq: bool, ticks: nat)

  function Current(k: Kernel, c: Cpu): Tid
    requires c in k.cpus
  {
    k.cpus[c].current
  }

  ghost predicate Enabled(k: Kernel, st: Step) {
    match st
    case WaitOn(c, h) =>
      && c in k.cpus && k.cpus[c].phase == Outside && h in k.heads
      && Current(k, c) in k.tasks && k.tasks[Current(k, c)].state == Runnable && !k.tasks[Current(k, c)].idle
    case TakeHead(w, h, _) => w in k.wakers && k.wakers[w] == Free && h in k.heads
    case Peek(w, t) => w in k.wakers && k.wakers[w] == Free && t in k.tasks
    case TakePeeked(w, _) => w in k.wakers && k.wakers[w].Peeked?
    case MarkRunnable(w, _) => w in k.wakers && k.wakers[w].Holding?
    case Start(w, t) => w in k.wakers && k.wakers[w] == Free && t in k.tasks && k.tasks[t].state == Inactive
    case Enqueue(w, _) => w in k.wakers && k.wakers[w].Resuming?
    case Suspend(c) =>
      && c in k.cpus && k.cpus[c].phase in {Outside, Choosing}
      && Current(k, c) in k.tasks && k.tasks[Current(k, c)].state == Runnable && !k.tasks[Current(k, c)].idle
    case Tick(c, _) => c in k.cpus && k.cpus[c].phase in {Outside, Leaving} && Current(k, c) in k.tasks
    case Unqueue(c) => c in k.cpus && k.cpus[c].phase in {Outside, Leaving} && Current(k, c) in k.tasks
    case Requeue(c) => c in k.cpus && k.cpus[c].phase == Requeuing && Current(k, c) in k.tasks
    case Choose(c, _, _, _) => c in k.cpus && k.cpus[c].phase == Choosing
  }

  /** The first write of a resume: waker w makes t runnable, which is on no runqueue yet. */
  function Marked(k: Kernel, w: Waker, t: Tid): Kernel {
    if t in k.tasks then k.(tasks := k.tasks[t := k.tasks[t].(state := Runnable)], wakers := k.wakers[w := Resuming(t)]) else k
  }

  /** Front of the runnable queue or, `late`, of the expired one. */
  function Added(s: Sched, t: Tid, late: bool): Sched {
    if late then s.(expired := Pushed(s.expired, t, true)) else s.(runnable := Pushed(s.runnable, t, true))
  }

  /** The second: t goes to the front of the queue that was its cpu's runnable queue when the
      waker read the pointer, before it took the lock. After a swap in between that is the
      expired queue; the model allows either queue at any time. */
  function Enqueued(k: Kernel, w: Waker, t: Tid, late: bool): Kernel {
    if t in k.tasks && k.tasks[t].cpu in k.cpus then
      var s := k.cpus[k.tasks[t].cpu];
      k.(cpus := k.cpus[k.tasks[t].cpu := Added(s, t, late)], wakers := k.wakers[w := Free])
    else k
  }

  /** Takes t off the queue of h for waker w. */
  function TakenBy(k: Kernel, w: Waker, h: Wqh, t: Tid, interrupt: bool): Kernel
    requires h in k.heads && t in k.tasks
  {
    k.(tasks := k.tasks[t := k.tasks[t].(on := None, interrupted := k.tasks[t].interrupted || interrupt)],
       heads := k.heads[h := Taken(k.heads[h], t)],
       wakers := k.wakers[w := Holding(t)])
  }

  ghost function Do(k: Kernel, st: Step): Kernel
    requires Enabled(k, st)
  {
    match st
    case WaitOn(c, h) =>
      var t := Current(k, c);
      k.(tasks := k.tasks[t := k.tasks[t].(state := Sleeping, on := Some(h))],
         heads := k.heads[h := Pushed(k.heads[h], t, false)],
         cpus := k.cpus[c := RqRemove(k.cpus[c], t).(phase := Leaving)])
    case TakeHead(w, h, interrupt) =>
      if k.heads[h].count > 0 && k.heads[h].list != [] && k.heads[h].list[0] in k.tasks
      then TakenBy(k, w, h, k.heads[h].list[0], interrupt) else k
    case Peek(w, t) =>
      if k.tasks[t].on.Some? then k.(wakers := k.wakers[w := Peeked(t, k.tasks[t].on.value)]) else k
    case TakePeeked(w, interrupt) =>
      var p := k.wakers[w];
      if p.task in k.tasks && p.head in k.heads && k.tasks[p.task].on == Some(p.head)
      then TakenBy(k, w, p.head, p.task, interrupt) else k.(wakers := k.wakers[w := Free])
    case MarkRunnable(w, _) => Marked(k, w, k.wakers[w].task)
    case Start(w, t) => Marked(k, w, t)
    case Enqueue(w, late) => Enqueued(k, w, k.wakers[w].task, late)
    case Suspend(c) =>
      var t := Current(k, c);
      k.(tasks := k.tasks[t := k.tasks[t].(state := Inactive)],
         cpus := k.cpus[c := RqRemove(k.cpus[c], t).(phase := if k.cpus[c].phase == Outside then Leaving else k.cpus[c].phase)])
    case Tick(c, ticks) => k.(tasks := k.tasks[Current(k, c) := k.tasks[Current(k, c)].(ticks := ticks)])
    case Unqueue(c) =>
      var s, t := k.cpus[c], Current(k, c);
      k.(cpus := k.cpus[c := if k.tasks[t].state != Runnable then s.(phase := Choosing)
                             else RqRemove(s, t).(phase := if k.tasks[t].idle then Choosing else Requeuing)])
    case Requeue(c) =>
      var s, t := k.cpus[c], Current(k, c);
      k.(cpus := k.cpus[c := (if k.tasks[t].ticks > 0 then s.(runnable := Pushed(s.runnable, t, false))
                              else s.(expired := Pushed(s.expired, t, false))).(phase := Choosing)])
    case Choose(c, runIdle, irq, ticks) =>
      var s := Select(k.cpus[c], runIdle, irq);
      k.(tasks := if s.current in k.tasks && k.tasks[s.current].ticks == 0 then k.tasks[s.current := k.tasks[s.current].(ticks := ticks)] else k.tasks,
         cpus := k.cpus[c := Chosen(s)])
  }

  // ---------------------------------------------------------------------------
  // The invariant
  // ---------------------------------------------------------------------------

  ghost predicate SomeHold(k: Kernel, h: Hold) {
    exists w :: w in k.wakers && k.wakers[w] == h
  }

  /** Taken off a waitqueue and still asleep. */
  ghost predicate Held(k: Kernel, t: Tid) {
    SomeHold(k, Holding(t))
  }

  /** Runnable and not on a runqueue yet. */
  ghost predicate HalfResumed(k: Kernel, t: Tid) {
    SomeHold(k, Resuming(t))
  }

  /** A runnable task is on a runqueue of its cpu, except where schedule() or a waker has it
      in hand; the idle task is queued only while it runs. */
  ghost predicate RightlyQueued(s: Sched, t: Tid, idle: bool, half: bool) {
    Queued(s, t) <==>
      if idle then s.current == t && s.phase == Outside
      else !half && !(s.current == t && s.phase == Requeuing)
  }

  /** A task is where its state says, and its queue knows it. */
  ghost predicate TaskOk(k: Kernel, t: Tid)
    requires t in k.tasks
  {
    var a := k.tasks[t];
    && a.cpu in k.cpus && (a.idle <==> k.cpus[a.cpu].idle == t) && (a.idle ==> a.state == Runnable && !HalfResumed(k, t))
    && match a.state
       case Runnable =>
         && a.on == None && !Held(k, t)
         && RightlyQueued(k.cpus[a.cpu], t, a.idle, HalfResumed(k, t))
         && (HalfResumed(k, t) ==> !(k.cpus[a.cpu].current == t && k.cpus[a.cpu].phase == Requeuing))
       case Sleeping =>
         && !Queued(k.cpus[a.cpu], t) && !HalfResumed(k, t)
         && (if a.on.Some? then a.on.value in k.heads && t in k.heads[a.on.value].list && !Held(k, t) else Held(k, t))
       case Inactive => a.on == None && !Held(k, t) && !HalfResumed(k, t) && !Queued(k.cpus[a.cpu], t)
  }

  ghost predicate HeadOk(k: Kernel, h: Wqh)
    requires h in k.heads
  {
    QueueOk(k.heads[h]) && forall t :: t in k.heads[h].list ==> t in k.tasks && k.tasks[t].on == Some(h) && k.tasks[t].state == Sleeping
  }

  ghost predicate CpuOk(k: Kernel, c: Cpu)
    requires c in k.cpus
  {
    var s := k.cpus[c];
    && QueueOk(s.runnable) && QueueOk(s.expired) && (forall t :: t in s.runnable.list ==> t !in s.expired.list)
    && (forall t :: Queued(s, t) ==> t in k.tasks && k.tasks[t].cpu == c && k.tasks[t].state == Runnable)
    && s.idle in k.tasks && k.tasks[s.idle].cpu == c
    && s.current in k.tasks && k.tasks[s.current].cpu == c
    && (s.phase == Requeuing ==> k.tasks[s.current].state == Runnable && !k.tasks[s.current].idle)
    && (s.phase == Outside ==> Queued(s, s.current))
    && (s.phase == Leaving ==> s.current != s.idle)
  }

  ghost predicate WakerOk(k: Kernel, w: Waker)
    requires w in k.wakers
  {
    match k.wakers[w]
    case Free => true
    case Peeked(t, h) => t in k.tasks && h in k.heads
    case Holding(t) =>
      && t in k.tasks && k.tasks[t].state == Sleeping && k.tasks[t].on == None
      && forall x :: x in k.wakers && k.wakers[x] == Holding(t) ==> x == w
    case Resuming(t) =>
      && t in k.tasks && k.tasks[t].state == Runnable
      && forall x :: x in k.wakers && k.wakers[x] == Resuming(t) ==> x == w
  }

  ghost predicate TasksOk(k: Kernel) {
    forall t {:trigger TaskOk(k, t)} :: t in k.tasks ==> TaskOk(k, t)
  }

  ghost predicate HeadsOk(k: Kernel) {
    forall h {:trigger HeadOk(k, h)} :: h in k.heads ==> HeadOk(k, h)
  }

  ghost predicate CpusOk(k: Kernel) {
    forall c {:trigger CpuOk(k, c)} :: c in k.cpus ==> CpuOk(k, c)
  }

  ghost predicate WakersOk(k: Kernel) {
    forall w {:trigger WakerOk(k, w)} :: w in k.wakers ==> WakerOk(k, w)
  }

  ghost predicate Inv(k: Kernel) {
    TasksOk(k) && HeadsOk(k) && CpusOk(k) && WakersOk(k)
  }
}
