/**
 wait.c and scheduler.c as they run: methods that update tasks, waitqueues and
 runqueues field by field. Each has the effect of the steps it stands for.
 */
module WaitqueueOps {
  import opened Basics
  import opened Waiting
  import opened WaitingRuns

  /** Both writes of a resume, one after the other. */
  ghost function Resumed(k: Kernel, w: Waker): Kernel
    requires w in k.wakers && k.wakers[w].Holding?
  {
    var k1 := Do(k, MarkRunnable(w, false));
    if Enabled(k1, Enqueue(w, false)) then Do(k1, Enqueue(w, false)) else k1
  }

  lemma ResumedFacts(k: Kernel, w: Waker) returns (k': Kernel)
    requires Inv(k) && w in k.wakers && k.wakers[w].Holding?
    ensures k' == Resumed(k, w) && Inv(k') && k'.wakers == k.wakers[w := Free] && k'.heads == k.heads
    ensures var t := k.wakers[w].task;
            && t in k.tasks && k'.tasks == k.tasks[t := k.tasks[t].(state := Runnable)] && k.tasks[t].cpu in k.cpus
            && var s := k.cpus[k.tasks[t].cpu];
               k'.cpus == k.cpus[k.tasks[t].cpu := s.(runnable := Pushed(s.runnable, t, true))] && Addable(k, t)
  {
    hide Inv, Addable;
    var t := k.wakers[w].task;
    MarkRunnableInv(k, w, false);
    var k1 := Do(k, MarkRunnable(w, false));
    HoldingTask(k, w);
    ChecksPassIff(k1, Enqueue(w, false));
    EnqueueInv(k1, w, false);
    k' := Do(k1, Enqueue(w, false));
    assert k'.wakers == k.wakers[w := Free];
    assert Addable(k, t) by { assert Addable(k1, t) && k1.cpus == k.cpus; SameAddable(k, k1, t); }
  }

  lemma SameAddable(k: Kernel, k1: Kernel, t: Tid)
    requires Addable(k1, t) && k1.cpus == k.cpus
    ensures Addable(k, t)
  {
  }

  lemma HoldingTask(k: Kernel, w: Waker)
    requires Inv(k) && w in k.wakers && k.wakers[w].Holding?
    ensures k.wakers[w].task in k.tasks && k.tasks[k.wakers[w].task].cpu in k.cpus
  {
    assert WakerOk(k, w);
    assert TaskOk(k, k.wakers[w].task);
  }

  /** One round of wake_up_all: take the head of the queue and resume it. */
  ghost function WakeOne(k: Kernel, w: Waker, h: Wqh, interrupt: bool): Kernel {
    if h in k.heads && k.heads[h].list != [] && Enabled(k, TakeHead(w, h, interrupt)) then
      var k1 := Do(k, TakeHead(w, h, interrupt));
      if w in k1.wakers && k1.wakers[w].Holding? then Resumed(k1, w) else k1
    else k
  }

  ghost function WakeMany(k: Kernel, w: Waker, h: Wqh, interrupt: bool, n: nat): Kernel {
    if n == 0 then k else WakeOne(WakeMany(k, w, h, interrupt, n - 1), w, h, interrupt)
  }

  /** Between two wake-ups the waker is free again and one sleeper fewer is queued. */
  lemma WakeOneFacts(k: Kernel, w: Waker, h: Wqh, interrupt: bool) returns (k': Kernel)
    requires Inv(k) && w in k.wakers && k.wakers[w] == Free && h in k.heads && k.heads[h].list != []
    ensures k' == WakeOne(k, w, h, interrupt) && Inv(k') && k'.wakers == k.wakers && k'.heads.Keys == k.heads.Keys
    ensures k'.heads[h].list == k.heads[h].list[1..] && k'.tasks.Keys == k.tasks.Keys
    ensures var t := k.heads[h].list[0];
            && t in k'.tasks && k'.tasks[t].state == Runnable && (interrupt ==> k'.tasks[t].interrupted)
            && forall x :: x in k.tasks && x != t ==> k'.tasks[x] == k.tasks[x]
  {
    hide Inv, Resumed;
    var t := k.heads[h].list[0];
    TakeHeadInv(k, w, h, interrupt);
    var k1 := HeadTaken(k, w, h, interrupt);
    k' := ResumedFacts(k1, w);
    assert Remove(k.heads[h].list, t) == k.heads[h].list[1..];
    assert k'.wakers == k.wakers;
  }

  /** A wake-up only pushes on a runnable queue. */
  lemma WakeOneCpus(k: Kernel, w: Waker, h: Wqh, c: Cpu)
    requires Inv(k) && w in k.wakers && k.wakers[w] == Free && h in k.heads && c in k.cpus
    ensures var k' := WakeOne(k, w, h, false); c in k'.cpus && k'.cpus[c] == k.cpus[c].(runnable := k'.cpus[c].runnable)
  {
    hide Inv, Resumed;
    if k.heads[h].list != [] {
      TakeHeadInv(k, w, h, false);
      var k1 := HeadTaken(k, w, h, false);
      var k' := ResumedFacts(k1, w);
    }
  }

  /** wake_up_all leaves the queue empty and every former sleeper runnable. */
  lemma {:induction false} WakeManyFacts(k: Kernel, w: Waker, h: Wqh, interrupt: bool, n: nat) returns (k': Kernel)
    requires Inv(k) && w in k.wakers && k.wakers[w] == Free && h in k.heads && n <= |k.heads[h].list|
    ensures k' == WakeMany(k, w, h, interrupt, n) && Inv(k') && k'.wakers == k.wakers && k'.heads.Keys == k.heads.Keys
    ensures k'.heads[h].list == k.heads[h].list[n..] && k'.tasks.Keys == k.tasks.Keys
    ensures forall t :: t in k.heads[h].list[..n] ==> t in k'.tasks && k'.tasks[t].state == Runnable && (interrupt ==> k'.tasks[t].interrupted)
    ensures forall x :: x in k.tasks && x !in k.heads[h].list[..n] ==> k'.tasks[x] == k.tasks[x]
    decreases n
  {
    hide WakeOne, Inv;
    if n == 0 {
      k' := k;
    } else {
      var l := k.heads[h].list;
      var k1 := WakeManyFacts(k, w, h, interrupt, n - 1);
      k' := WakeOneFacts(k1, w, h, interrupt);
      assert k1.heads[h].list[0] == l[n - 1];
      assert l[n - 1..][1..] == l[n..] && l[..n] == l[..n - 1] + [l[n - 1]];
    }
  }

  class Core {
    var tasks: map<Tid, Task>
    var heads: map<Wqh, Queue>
    var cpus: map<Cpu, Sched>
    ghost var wakers: map<Waker, Hold>

    ghost function Now(): Kernel
      reads this
    {
      Kernel(tasks, heads, cpus, wakers)
    }

    /** sched_rq_add_task at the front of a runnable queue. */
    method RqAddFront(t: Tid)
      requires t in tasks && tasks[t].cpu in cpus && Addable(Now(), t)
      modifies `cpus
      ensures cpus == old(cpus)[tasks[t].cpu := old(cpus)[tasks[t].cpu].(runnable := Pushed(old(cpus)[tasks[t].cpu].runnable, t, true))]
    {
      var c := tasks[t].cpu;
      var s := cpus[c];
      assert !Queued(s, t);
      s := s.(runnable := Queue([t] + s.runnable.list, s.runnable.count));
      s := s.(runnable := s.runnable.(count := s.runnable.count + 1));
      cpus := cpus[c := s];
    }

    /** sched_rq_remove_task. */
    method RqRemoveTask(c: Cpu, t: Tid)
      requires c in cpus && Removable(cpus[c], t)
      modifies `cpus
      ensures cpus == old(cpus)[c := RqRemove(old(cpus)[c], t)]
    {
      var s := cpus[c];
      if t in s.runnable.list {
        s := s.(runnable := Queue(Remove(s.runnable.list, t), s.runnable.count - 1));
        assert s.runnable.count >= 0;
      } else {
        s := s.(expired := Queue(Remove(s.expired.list, t), s.expired.count - 1));
        assert s.expired.count >= 0;
      }
      cpus := cpus[c := s];
    }

    /** wait_on up to the call of schedule(). */
    method Wait(c: Cpu, h: Wqh)
      requires Inv(Now()) && Enabled(Now(), WaitOn(c, h))
      modifies `tasks, `heads, `cpus
      ensures Now() == Do(old(Now()), WaitOn(c, h))
    {
      ChecksPassIff(Now(), WaitOn(c, h));
      var t := cpus[c].current;
      heads := heads[h := heads[h].(count := heads[h].count + 1)];
      heads := heads[h := heads[h].(list := heads[h].list + [t])];
      tasks := tasks[t := tasks[t].(on := Some(h))];
      RqRemoveTask(c, t);
      tasks := tasks[t := tasks[t].(state := Sleeping)];
      cpus := cpus[c := cpus[c].(phase := Leaving)];
    }

    /** sched_resume_async of a task that waker w took off a queue. */
    method ResumeAsync(t: Tid, ghost w: Waker)
      requires Inv(Now()) && w in wakers && wakers[w] == Holding(t)
      modifies `tasks, `cpus, `wakers
      ensures Now() == Resumed(old(Now()), w)
    {
      hide Inv, Addable, Resumed, Do;
      ghost var k' := ResumedFacts(Now(), w);
      tasks := tasks[t := tasks[t].(state := Runnable)];
      wakers := wakers[w := Resuming(t)];
      SameAddable(Now(), old(Now()), t);
      RqAddFront(t);
      wakers := wakers[w := Free];
      assert wakers == old(wakers)[w := Free];
    }

    /** The locked section that wake_up and each round of wake_up_all begin with. */
    method TakeFirst(h: Wqh, interrupt: bool, ghost w: Waker) returns (t: Tid)
      requires Inv(Now()) && Enabled(Now(), TakeHead(w, h, interrupt)) && heads[h].count > 0
      modifies `tasks, `heads, `wakers
      ensures Now() == Do(old(Now()), TakeHead(w, h, interrupt))
      ensures old(heads)[h].list != [] && t == old(heads)[h].list[0] && w in wakers && wakers[w] == Holding(t)
    {
      ChecksPassIff(Now(), TakeHead(w, h, interrupt));
      assert HeadOk(Now(), h);
      assert heads[h].list != [];
      t := heads[h].list[0];
      heads := heads[h := Queue(Remove(heads[h].list, t), heads[h].count - 1)];
      tasks := tasks[t := tasks[t].(on := None)];
      if interrupt { tasks := tasks[t := tasks[t].(interrupted := true)]; }
      wakers := wakers[w := Holding(t)];
    }

    /** wake_up, when nobody interferes between its two sections. */
    method WakeUp(h: Wqh, interrupt: bool, ghost w: Waker)
      requires Inv(Now()) && Enabled(Now(), TakeHead(w, h, interrupt))
      modifies this
      ensures Now() == WakeOne(old(Now()), w, h, interrupt)
    {
      hide Do, Resumed;
      assert HeadOk(Now(), h);
      if heads[h].count > 0 {
        TakeHeadInv(Now(), w, h, interrupt);
        var t := TakeFirst(h, interrupt, w);
        ResumeAsync(t, w);
      }
    }

    /** wake_up_all. */
    method WakeUpAll(h: Wqh, interrupt: bool, ghost w: Waker)
      requires Inv(Now()) && Enabled(Now(), TakeHead(w, h, interrupt))
      modifies this
      ensures Inv(Now()) && heads.Keys == old(heads.Keys) && heads[h].list == [] && wakers == old(wakers)
      ensures forall t :: t in old(heads)[h].list ==> t in tasks && tasks[t].state == Runnable && (interrupt ==> tasks[t].interrupted)
      ensures forall t :: t in old(tasks) && t !in old(heads)[h].list ==> t in tasks && tasks[t] == old(tasks)[t]
      ensures Now() == WakeMany(old(Now()), w, h, interrupt, |old(heads)[h].list|)
    {
      hide WakeOne;
      ghost var k := Now();
      ghost var n := 0;
      assert HeadOk(k, h);
      while heads[h].count > 0
        invariant n <= |k.heads[h].list| && Now() == WakeMany(k, w, h, interrupt, n)
        invariant Inv(Now()) && wakers == k.wakers && h in heads && heads[h].list == k.heads[h].list[n..]
        decreases |k.heads[h].list| - n
      {
        ghost var next := WakeManyFacts(k, w, h, interrupt, n + 1);
        assert HeadOk(Now(), h);
        WakeUp(h, interrupt, w);
        n := n + 1;
      }
      assert HeadOk(Now(), h);
      ghost var end := WakeManyFacts(k, w, h, interrupt, n);
      assert n == |k.heads[h].list|;
      assert k.heads[h].list[..n] == k.heads[h].list;
    }

    /** wake_up_task, when nobody interferes: -1 for a task that waits nowhere. */
    method WakeUpTask(t: Tid, interrupt: bool, ghost w: Waker) returns (r: int)
      requires Inv(Now()) && Enabled(Now(), Peek(w, t))
      modifies this
      ensures r == if old(tasks)[t].on.Some? then 0 else -1
      ensures Now() == Woken(old(Now()), w, t, interrupt) && Inv(Now())
    {
      hide Inv, Resumed;
      ghost var k := Now();
      ghost var k' := WokenFacts(k, w, t, interrupt);
      if tasks[t].on.None? { return -1; }
      var h := tasks[t].on.value;
      WaitsOn(k, t);
      TakenByInv(k, w, h, t, interrupt);
      heads := heads[h := Queue(Remove(heads[h].list, t), heads[h].count - 1)];
      tasks := tasks[t := tasks[t].(on := None)];
      if interrupt { tasks := tasks[t := tasks[t].(interrupted := true)]; }
      wakers := wakers[w := Holding(t)];
      assert Now() == TakenBy(k, w, h, t, interrupt);
      ResumeAsync(t, w);
      return 0;
    }

    /** schedule() of a cpu, when nobody interferes. */
    method Schedule(c: Cpu, p: Pending, runIdle: bool, irq: bool, ticks: nat)
      requires Inv(Now()) && Enabled(Now(), Unqueue(c)) && ChecksPass(Now(), Unqueue(c)) && PendingOk(Now(), c, p)
      modifies this
      ensures Now() == Scheduled(old(Now()), c, p, runIdle, irq, ticks) && Inv(Now())
    {
      hide Do, Inv, ChecksPass, Requeued, Attended, HalfResumed;
      ghost var k1, k2 := ScheduledInv(Now(), c, p, runIdle, irq, ticks);
      RequeueCurrent(c);
      Attend(c, p);
      SwitchNext(c, runIdle || p.exited, irq, ticks);
    }

    /** What schedule() does about pending events before it selects the next task. */
    method Attend(c: Cpu, p: Pending)
      requires Inv(Now()) && c in cpus && cpus[c].phase == Choosing && PendingOk(Now(), c, p)
      modifies this
      ensures Now() == Attended(old(Now()), c, p)
    {
      hide Do, Inv, Woken, ChecksPass, HalfResumed, SuspendedWith;
      var t := cpus[c].current;
      ghost var k := Now();
      ghost var k1 := AwakeFacts(k, c, p);
      if p.signal && tasks[t].state == Sleeping {
        var _ := WakeUpTask(t, true, TaskCtx(t));
      }
      if p.signal && tasks[t].state == Runnable && p.inUser && p.suspending {
        SuspendAsync(c, p.pagerQueue);
      }
    }

    /** sched_suspend_async. */
    method SuspendAsync(c: Cpu, pagerQueue: Option<Wqh>)
      requires Inv(Now()) && Enabled(Now(), Suspend(c)) && ChecksPass(Now(), Suspend(c))
      requires pagerQueue.Some? ==> pagerQueue.value in heads && TaskCtx(cpus[c].current) in wakers && wakers[TaskCtx(cpus[c].current)] == Free
      modifies this
      ensures Now() == SuspendedWith(old(Now()), c, pagerQueue)
    {
      hide Inv, WakeOne;
      ghost var k := Now();
      SuspendInv(k, c);
      var t := cpus[c].current;
      RqRemoveTask(c, t);
      tasks := tasks[t := tasks[t].(state := Inactive)];
      if cpus[c].phase == Outside { cpus := cpus[c := cpus[c].(phase := Leaving)]; }
      assert Now() == Do(k, Suspend(c));
      if pagerQueue.Some? { WakeUp(pagerQueue.value, false, TaskCtx(t)); }
    }

    /** The current task goes to the back of the queue that its ticks choose. */
    method RequeueCurrent(c: Cpu)
      requires Inv(Now()) && Enabled(Now(), Unqueue(c)) && ChecksPass(Now(), Unqueue(c))
      modifies `cpus
      ensures Now() == Requeued(old(Now()), c)
    {
      hide Inv, Remove, Removable;
      var t := cpus[c].current;
      if tasks[t].state == Runnable {
        RqRemoveTask(c, t);
        if !tasks[t].idle {
          var s := cpus[c];
          if tasks[t].ticks > 0 {
            s := s.(runnable := Queue(s.runnable.list + [t], s.runnable.count + 1));
          } else {
            s := s.(expired := Queue(s.expired.list + [t], s.expired.count + 1));
          }
          cpus := cpus[c := s];
        }
      }
      cpus := cpus[c := cpus[c].(phase := Choosing)];
    }

    /** sched_select_next and sched_prepare_next. */
    method SwitchNext(c: Cpu, runIdle: bool, irq: bool, ticks: nat)
      requires Inv(Now()) && Enabled(Now(), Choose(c, runIdle, irq, ticks))
      modifies `tasks, `cpus
      ensures Now() == Do(old(Now()), Choose(c, runIdle, irq, ticks))
    {
      ChecksPassIff(Now(), Choose(c, runIdle, irq, ticks));
      assert CpuOk(Now(), c);
      var s := cpus[c];
      if runIdle {
        s := s.(current := s.idle);
      } else if s.runnable.count > 0 {
        s := s.(current := s.runnable.list[0]);
      } else if s.expired.count > 0 {
        s := s.(runnable := s.expired, expired := s.runnable);
        s := s.(current := s.runnable.list[0]);
      } else if !irq {
        s := s.(current := s.idle);
      }
      if tasks[s.current].ticks == 0 {
        tasks := tasks[s.current := tasks[s.current].(ticks := ticks)];
      }
      if s.current == s.idle {
        s := s.(runnable := Queue([s.idle] + s.runnable.list, s.runnable.count + 1));
      }
      cpus := cpus[c := s.(phase := if Queued(s, s.current) then Outside else Leaving)];
    }
  }

  // ---------------------------------------------------------------------------
  // One wake-up of a task, and one schedule(), as functions
  // ---------------------------------------------------------------------------

  /** wake_up_task from start to end. */
  ghost function Woken(k: Kernel, w: Waker, t: Tid, interrupt: bool): Kernel
    requires w in k.wakers && t in k.tasks
  {
    if k.tasks[t].on.Some? && k.tasks[t].on.value in k.heads then Resumed(TakenBy(k, w, k.tasks[t].on.value, t, interrupt), w) else k
  }

  /** A task that waits anywhere ends runnable, on the front of its runqueue and on no
      waitqueue; no other task is touched. */
  lemma WokenFacts(k: Kernel, w: Waker, t: Tid, interrupt: bool) returns (k': Kernel)
    requires Inv(k) && w in k.wakers && k.wakers[w] == Free && t in k.tasks
    ensures k' == Woken(k, w, t, interrupt) && Inv(k') && k'.wakers == k.wakers && k'.tasks.Keys == k.tasks.Keys && k'.cpus.Keys == k.cpus.Keys
    ensures k.tasks[t].on.None? ==> k' == k
    ensures k.tasks[t].on.Some? ==>
              && k.tasks[t].on.value in k.heads && k.tasks[t].cpu in k.cpus
              && k'.tasks == k.tasks[t := k.tasks[t].(state := Runnable, on := None, interrupted := k.tasks[t].interrupted || interrupt)]
              && k'.cpus[k.tasks[t].cpu].runnable.list == [t] + k.cpus[k.tasks[t].cpu].runnable.list
              && k'.cpus == k.cpus[k.tasks[t].cpu := k.cpus[k.tasks[t].cpu].(runnable := k'.cpus[k.tasks[t].cpu].runnable)]
  {
    hide Resumed;
    assert TaskOk(k, t);
    if k.tasks[t].on.None? { return k; }
    var h := k.tasks[t].on.value;
    TakenByInv(k, w, h, t, interrupt);
    hide Inv;
    k' := ResumedFacts(TakenBy(k, w, h, t, interrupt), w);
    assert k'.wakers == k.wakers;
  }

  /** What schedule() finds pending for the current task: TASK_PENDING_SIGNAL, TASK_SUSPENDING,
      TASK_IN_USER, TASK_EXITED, and the queue its pager waits on unless it is its own pager. */
  datatype Pending = Pending(signal: bool, suspending: bool, inUser: bool, exited: bool, pagerQueue: Option<Wqh>)

  /** The idle task has no events; the task is not busy waking others when it gets here. */
  ghost predicate PendingOk(k: Kernel, c: Cpu, p: Pending)
    requires c in k.cpus
  {
    p.signal ==>
      && Current(k, c) in k.tasks && !k.tasks[Current(k, c)].idle
      && TaskCtx(Current(k, c)) in k.wakers && k.wakers[TaskCtx(Current(k, c))] == Free
      && !HalfResumed(k, Current(k, c))
      && (p.pagerQueue.Some? ==> p.pagerQueue.value in k.heads)
  }

  /** A cpu that took its current task off its queue and put it back. */
  ghost function Requeued(k: Kernel, c: Cpu): Kernel
    requires Enabled(k, Unqueue(c))
  {
    var k1 := Do(k, Unqueue(c));
    if Enabled(k1, Requeue(c)) then Do(k1, Requeue(c)) else k1
  }

  ghost function SuspendedWith(k: Kernel, c: Cpu, pagerQueue: Option<Wqh>): Kernel
    requires Enabled(k, Suspend(c))
  {
    var k1 := Do(k, Suspend(c));
    if pagerQueue.Some? then WakeOne(k1, TaskCtx(Current(k, c)), pagerQueue.value, false) else k1
  }

  /** A signal wakes a current task that is about to sleep. */
  ghost function Awake(k: Kernel, c: Cpu, p: Pending): Kernel
    requires c in k.cpus && PendingOk(k, c, p)
  {
    if p.signal && k.tasks[Current(k, c)].state == Sleeping then Woken(k, TaskCtx(Current(k, c)), Current(k, c), true) else k
  }

  /** And suspends one that may be suspended. */
  ghost function Attended(k: Kernel, c: Cpu, p: Pending): Kernel
    requires c in k.cpus && PendingOk(k, c, p)
  {
    var k1 := Awake(k, c, p);
    if p.signal && p.inUser && p.suspending && Enabled(k1, Suspend(c)) then SuspendedWith(k1, c, p.pagerQueue) else k1
  }

  ghost function Scheduled(k: Kernel, c: Cpu, p: Pending, runIdle: bool, irq: bool, ticks: nat): Kernel
    requires Enabled(k, Unqueue(c))
  {
    var k1 := Requeued(k, c);
    if c in k1.cpus && PendingOk(k1, c, p) then
      var k2 := Attended(k1, c, p);
      if Enabled(k2, Choose(c, runIdle || p.exited, irq, ticks)) then Do(k2, Choose(c, runIdle || p.exited, irq, ticks)) else k2
    else k1
  }

  lemma RequeuedFacts(k: Kernel, c: Cpu) returns (k': Kernel)
    requires Inv(k) && Enabled(k, Unqueue(c)) && ChecksPass(k, Unqueue(c))
    ensures k' == Requeued(k, c) && Inv(k') && c in k'.cpus && k'.cpus[c].phase == Choosing
    ensures k' == k.(cpus := k.cpus[c := k'.cpus[c]]) && Current(k', c) == Current(k, c)
  {
    hide Inv;
    UnqueueInv(k, c);
    k' := Do(k, Unqueue(c));
    if Enabled(k', Requeue(c)) {
      RequeueInv(k', c);
      k' := Do(k', Requeue(c));
    }
  }

  /** A current task that was about to sleep on a queue is runnable, interrupted and queued. */
  lemma AwakeFacts(k: Kernel, c: Cpu, p: Pending) returns (k': Kernel)
    requires Inv(k) && c in k.cpus && k.cpus[c].phase == Choosing && PendingOk(k, c, p)
    ensures k' == Awake(k, c, p) && Inv(k') && c in k'.cpus && k'.cpus[c].phase == Choosing && Current(k', c) == Current(k, c)
    ensures k'.wakers == k.wakers && k'.heads.Keys == k.heads.Keys && k'.tasks.Keys == k.tasks.Keys && PendingOk(k', c, p)
    ensures p.signal ==> k'.tasks[Current(k, c)].idle == k.tasks[Current(k, c)].idle
    ensures p.signal && k.tasks[Current(k, c)].state == Sleeping && k.tasks[Current(k, c)].on.Some? ==>
              k'.tasks[Current(k, c)].state == Runnable && k'.tasks[Current(k, c)].interrupted && Queued(k'.cpus[c], Current(k, c))
    ensures p.signal && Enabled(k', Suspend(c)) ==> ChecksPass(k', Suspend(c))
  {
    hide Inv, Woken, HalfResumed, ChecksPass;
    k' := Awake(k, c, p);
    if p.signal {
      var t := Current(k, c);
      CurrentsCpu(k, c);
      if k.tasks[t].state == Sleeping {
        var k1 := WokenFacts(k, TaskCtx(t), t, true);
        WokenHeads(k, TaskCtx(t), t, true);
        SameHolds(k, k');
      }
      if Enabled(k', Suspend(c)) { ChecksPassIff(k', Suspend(c)); }
    }
  }

  lemma CurrentsCpu(k: Kernel, c: Cpu)
    requires Inv(k) && c in k.cpus
    ensures Current(k, c) in k.tasks && k.tasks[Current(k, c)].cpu == c
  {
    assert CpuOk(k, c);
  }

  lemma WokenHeads(k: Kernel, w: Waker, t: Tid, interrupt: bool)
    requires Inv(k) && w in k.wakers && k.wakers[w] == Free && t in k.tasks
    ensures Woken(k, w, t, interrupt).heads.Keys == k.heads.Keys
  {
    hide Inv, Resumed;
    if k.tasks[t].on.Some? && k.tasks[t].on.value in k.heads {
      WaitsOn(k, t);
      TakenByInv(k, w, k.tasks[t].on.value, t, interrupt);
      var k' := ResumedFacts(TakenBy(k, w, k.tasks[t].on.value, t, interrupt), w);
    }
  }

  lemma WaitsOn(k: Kernel, t: Tid)
    requires Inv(k) && t in k.tasks && k.tasks[t].on.Some?
    ensures k.tasks[t].on.value in k.heads && t in k.heads[k.tasks[t].on.value].list
  {
    assert TaskOk(k, t);
  }

  lemma SuspendedFacts(k: Kernel, c: Cpu, pagerQueue: Option<Wqh>) returns (k': Kernel)
    requires Inv(k) && Enabled(k, Suspend(c)) && ChecksPass(k, Suspend(c)) && k.cpus[c].phase == Choosing
    requires pagerQueue.Some? ==> pagerQueue.value in k.heads && TaskCtx(Current(k, c)) in k.wakers && k.wakers[TaskCtx(Current(k, c))] == Free
    ensures k' == SuspendedWith(k, c, pagerQueue) && Inv(k') && c in k'.cpus && k'.cpus[c].phase == Choosing && Current(k', c) == Current(k, c)
    ensures Current(k, c) in k'.tasks && k'.tasks[Current(k, c)].state == Inactive
  {
    hide Inv, WakeOne, ChecksPass;
    SuspendInv(k, c);
    k' := Do(k, Suspend(c));
    var t := Current(k, c);
    if pagerQueue.Some? && k'.heads[pagerQueue.value].list != [] {
      OffWaitqueues(k', t, pagerQueue.value);
      WakeOneCpus(k', TaskCtx(t), pagerQueue.value, c);
      k' := WakeOneFacts(k', TaskCtx(t), pagerQueue.value, false);
    } else if pagerQueue.Some? {
      NothingToWake(k', TaskCtx(t), pagerQueue.value);
    }
  }

  lemma NothingToWake(k: Kernel, w: Waker, h: Wqh)
    requires h in k.heads && k.heads[h].list == []
    ensures WakeOne(k, w, h, false) == k
  {
  }

  lemma OffWaitqueues(k: Kernel, t: Tid, h: Wqh)
    requires Inv(k) && t in k.tasks && k.tasks[t].state == Inactive && h in k.heads
    ensures t !in k.heads[h].list
  {
    assert HeadOk(k, h);
  }

  /** Pending events leave the cpu ready to select: a task with a suspension pending in user
      mode ends inactive, one that was about to sleep ends runnable. */
  lemma AttendedFacts(k: Kernel, c: Cpu, p: Pending) returns (k': Kernel)
    requires Inv(k) && c in k.cpus && k.cpus[c].phase == Choosing && PendingOk(k, c, p)
    ensures k' == Attended(k, c, p) && Inv(k') && c in k'.cpus && k'.cpus[c].phase == Choosing && Current(k', c) == Current(k, c)
    ensures var t := Current(k, c);
            && t in k.tasks && t in k'.tasks
            && (p.signal && k.tasks[t].state == Sleeping && k.tasks[t].on.Some? ==>
                  k'.tasks[t].state == if p.inUser && p.suspending then Inactive else Runnable)
            && (p.signal && k.tasks[t].state == Runnable && p.inUser && p.suspending ==> k'.tasks[t].state == Inactive)
            && (!p.signal ==> k' == k)
  {
    hide Inv, Woken, ChecksPass, SuspendedWith, HalfResumed;
    CurrentsCpu(k, c);
    k' := AwakeFacts(k, c, p);
    if p.signal && p.inUser && p.suspending && Enabled(k', Suspend(c)) { k' := SuspendedFacts(k', c, p.pagerQueue); }
  }

  /** One schedule() from outside keeps the invariant. */
  lemma ScheduledInv(k: Kernel, c: Cpu, p: Pending, runIdle: bool, irq: bool, ticks: nat) returns (k1: Kernel, k2: Kernel)
    requires Inv(k) && Enabled(k, Unqueue(c)) && ChecksPass(k, Unqueue(c)) && PendingOk(k, c, p)
    ensures k1 == Requeued(k, c) && Inv(k1) && c in k1.cpus && k1.cpus[c].phase == Choosing && PendingOk(k1, c, p)
    ensures k2 == Attended(k1, c, p) && Inv(k2) && Enabled(k2, Choose(c, runIdle || p.exited, irq, ticks))
    ensures Scheduled(k, c, p, runIdle, irq, ticks) == Do(k2, Choose(c, runIdle || p.exited, irq, ticks))
    ensures Inv(Scheduled(k, c, p, runIdle, irq, ticks))
  {
    hide Inv, Do, Requeued, Attended, ChecksPass, HalfResumed;
    k1 := RequeuedFacts(k, c);
    SameHolds(k, k1);
    k2 := AttendedFacts(k1, c, p);
    ChooseInv(k2, c, runIdle || p.exited, irq, ticks);
  }
}
