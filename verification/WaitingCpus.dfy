/**
 Which cpu runs what. A cpu executes one thing at a time: an interrupt handler runs to its
 end before the code it interrupted goes on, and a task wakes others only while it is
 current. In such runs a check fails in one way only: another cpu is between the two
 writes of resuming a task that is still current here.
 */
module WaitingCpus {
  import opened Basics
  import opened Waiting
  import opened WaitingRuns

  ghost predicate Quiet(k: Kernel, w: Waker) {
    w in k.wakers ==> k.wakers[w] == Free
  }

  /** The code of w is what its cpu executes. */
  ghost predicate Executes(k: Kernel, w: Waker) {
    match w
    case TaskCtx(u) => u in k.tasks && k.tasks[u].cpu in k.cpus && k.cpus[k.tasks[u].cpu].current == u && Quiet(k, IrqCtx(k.tasks[u].cpu))
    case IrqCtx(c) => c in k.cpus
  }

  /** What the code around a step grants: a task never wakes the queue it is on itself, and
      wakes itself only from within schedule(), asynchronously and before the next task is
      selected; interrupt handlers wake asynchronously; a task on its way to schedule() is
      not preempted while it wakes another. */
  ghost predicate Sequential(k: Kernel, st: Step)
    requires Enabled(k, st)
  {
    match st
    case TakeHead(w, h, _) => Executes(k, w) && (w.TaskCtx? ==> k.tasks[w.tid].on != Some(h))
    case Peek(w, t) => Executes(k, w) && (w == TaskCtx(t) ==> k.cpus[k.tasks[t].cpu].phase == Choosing)
    case TakePeeked(w, _) => Executes(k, w)
    case MarkRunnable(w, sync) => Executes(k, w) && (sync ==> w.TaskCtx? && k.cpus[k.tasks[w.tid].cpu].phase != Choosing)
    case Start(w, t) => Executes(k, w) && w.TaskCtx? && w.tid != t
    case Enqueue(w, _) => Executes(k, w)
    case WaitOn(c, _) => Quiet(k, IrqCtx(c)) && Quiet(k, TaskCtx(Current(k, c)))
    case Suspend(c) => Quiet(k, IrqCtx(c)) && Quiet(k, TaskCtx(Current(k, c)))
    case Unqueue(c) => Quiet(k, IrqCtx(c)) && (k.cpus[c].phase == Leaving ==> Quiet(k, TaskCtx(Current(k, c))))
    case Requeue(c) => Quiet(k, IrqCtx(c))
    case Choose(c, _, _, _) => Quiet(k, IrqCtx(c)) && !WakesItself(k, Current(k, c))
    case Tick(_, _) => true
  }

  ghost predicate WakesItself(k: Kernel, t: Tid) {
    TaskCtx(t) in k.wakers && !k.wakers[TaskCtx(t)].Free? && k.wakers[TaskCtx(t)].task == t
  }

  ghost predicate OnCpu(k: Kernel, w: Waker, c: Cpu) {
    match w
    case TaskCtx(u) => u in k.tasks && k.tasks[u].cpu == c
    case IrqCtx(d) => d == c
  }

  /** A task that is busy waking runs or ran where its sleeper does not: the sleeper is not
      current there, unless the task wakes itself inside schedule(). */
  ghost predicate ContextOk(k: Kernel, w: Waker)
    requires w in k.wakers
  {
    k.wakers[w].Free? ||
    match w
    case IrqCtx(c) => c in k.cpus
    case TaskCtx(u) =>
      && u in k.tasks && k.tasks[u].cpu in k.cpus
      && var s, t := k.cpus[k.tasks[u].cpu], k.wakers[w].task;
         if t == u then s.current == u && s.phase == Choosing
         else k.wakers[w].Peeked? || s.current != t
  }

  ghost predicate ContextsOk(k: Kernel) {
    forall w {:trigger ContextOk(k, w)} :: w in k.wakers ==> ContextOk(k, w)
  }

  /** Current changes only in Choose, and never to a task that a waker has in hand. */
  lemma CurrentAfter(k: Kernel, st: Step, c: Cpu)
    requires Inv(k) && Enabled(k, st) && c in k.cpus
    ensures c in Do(k, st).cpus
    ensures !(st.Choose? && st.c == c) ==> Do(k, st).cpus[c].current == k.cpus[c].current
    ensures forall t :: t in k.tasks && k.tasks[t].cpu == c && (Held(k, t) || HalfResumed(k, t)) && Do(k, st).cpus[c].current == t ==> k.cpus[c].current == t
  {
    hide Held, HalfResumed, QueueOk, Pushed, Select;
    if st.Choose? && st.c == c {
      assert CpuOk(k, c);
      SelectOk(k.cpus[c], st.runIdle, st.irq);
      forall t | t in k.tasks ensures TaskOk(k, t) {}
    }
  }

  /** A cpu keeps its phase unless the step is its own. */
  lemma PhaseAfter(k: Kernel, st: Step, c: Cpu)
    requires Enabled(k, st) && c in k.cpus && k.cpus[c].phase == Choosing && !(st.Choose? && st.c == c)
    ensures c in Do(k, st).cpus && Do(k, st).cpus[c].phase == Choosing
  {
  }

  lemma TasksAfter(k: Kernel, st: Step, t: Tid)
    requires Enabled(k, st) && t in k.tasks
    ensures t in Do(k, st).tasks && Do(k, st).tasks[t].cpu == k.tasks[t].cpu
  {
  }

  lemma WakersAfter(k: Kernel, st: Step, w: Waker)
    requires Inv(k) && Enabled(k, st) && w in Do(k, st).wakers
    ensures w in k.wakers
    ensures Do(k, st).wakers[w] != k.wakers[w] ==> (st.TakeHead? || st.Peek? || st.TakePeeked? || st.MarkRunnable? || st.Start? || st.Enqueue?) && st.w == w
    ensures Do(k, st).wakers[w] != k.wakers[w] && st.MarkRunnable? ==> Do(k, st).wakers[w].task == k.wakers[w].task
    ensures Do(k, st).wakers[w] != k.wakers[w] && st.TakePeeked? && !Do(k, st).wakers[w].Free? ==> Do(k, st).wakers[w].task == k.wakers[w].task
    ensures Do(k, st).wakers[w] != k.wakers[w] && st.Peek? ==> Do(k, st).wakers[w].Peeked? && Do(k, st).wakers[w].task == st.t
    ensures Do(k, st).wakers[w] != k.wakers[w] && st.Start? ==> Do(k, st).wakers[w].task == st.t
    ensures Do(k, st).wakers[w] != k.wakers[w] && st.Enqueue? ==> Do(k, st).wakers[w].Free?
    ensures Do(k, st).wakers[w] != k.wakers[w] && st.TakeHead? ==> Do(k, st).wakers[w].Holding? && k.heads[st.h].list != [] && Do(k, st).wakers[w].task == k.heads[st.h].list[0]
  {
    if st.MarkRunnable? || st.Enqueue? {
      assert WakerOk(k, st.w);
      assert TaskOk(k, k.wakers[st.w].task);
    }
  }

  lemma ContextStep(k: Kernel, st: Step, w: Waker)
    requires Inv(k) && ContextsOk(k) && Enabled(k, st) && Sequential(k, st) && w in Do(k, st).wakers
    ensures ContextOk(Do(k, st), w)
  {
    hide Do, Held, HalfResumed, Inv;
    var k' := Do(k, st);
    WakersAfter(k, st, w);
    assert ContextOk(k, w);
    if !k'.wakers[w].Free? && w.IrqCtx? {
      CurrentAfter(k, st, w.cpu);
    } else if !k'.wakers[w].Free? {
      var u := w.tid;
      TasksAfter(k, st, u);
      CurrentAfter(k, st, k.tasks[u].cpu);
      if k'.wakers[w] == k.wakers[w] {
        KeptContext(k, st, u);
      } else {
        NewContext(k, st, u);
      }
    }
  }

  /** A context whose hold did not change. */
  lemma KeptContext(k: Kernel, st: Step, u: Tid)
    requires Inv(k) && ContextsOk(k) && Enabled(k, st) && Sequential(k, st)
    requires TaskCtx(u) in k.wakers && !k.wakers[TaskCtx(u)].Free? && TaskCtx(u) in Do(k, st).wakers && Do(k, st).wakers[TaskCtx(u)] == k.wakers[TaskCtx(u)]
    ensures ContextOk(Do(k, st), TaskCtx(u))
  {
    hide Do, Held, HalfResumed;
    var w := TaskCtx(u);
    var t := k.wakers[w].task;
    assert ContextOk(k, w) && WakerOk(k, w);
    var c := k.tasks[u].cpu;
    TasksAfter(k, st, u);
    CurrentAfter(k, st, c);
    assert TaskOk(k, t);
    InHand(k, w, t);
    if t == u {
      PhaseAfter(k, st, c);
    } else if !k.wakers[w].Peeked? && k.tasks[t].cpu != c {
      CurrentOfCpu(k, st, c, t);
    }
  }

  lemma InHand(k: Kernel, w: Waker, t: Tid)
    requires w in k.wakers
    ensures k.wakers[w] == Holding(t) ==> Held(k, t)
    ensures k.wakers[w] == Resuming(t) ==> HalfResumed(k, t)
  {
  }

  /** A cpu runs tasks of its own only. */
  lemma CurrentOfCpu(k: Kernel, st: Step, c: Cpu, t: Tid)
    requires Inv(k) && Enabled(k, st) && c in k.cpus && t in k.tasks && k.tasks[t].cpu != c
    ensures c in Do(k, st).cpus && Do(k, st).cpus[c].current != t
  {
    hide Held, HalfResumed, QueueOk, Pushed, Select;
    assert CpuOk(k, c);
    if st.Choose? && st.c == c { SelectOk(k.cpus[c], st.runIdle, st.irq); }
  }

  /** A context that just took, peeked at, marked or started a task is current on its cpu. */
  lemma NewContext(k: Kernel, st: Step, u: Tid)
    requires Inv(k) && ContextsOk(k) && Enabled(k, st) && Sequential(k, st)
    requires TaskCtx(u) in k.wakers && TaskCtx(u) in Do(k, st).wakers
    requires Do(k, st).wakers[TaskCtx(u)] != k.wakers[TaskCtx(u)] && !Do(k, st).wakers[TaskCtx(u)].Free?
    ensures ContextOk(Do(k, st), TaskCtx(u))
  {
    hide Do, Held, HalfResumed;
    var w := TaskCtx(u);
    WakersAfter(k, st, w);
    assert Executes(k, w) && ContextOk(k, w) && WakerOk(k, w);
    var c := k.tasks[u].cpu;
    TasksAfter(k, st, u);
    CurrentAfter(k, st, c);
    if k.cpus[c].phase == Choosing { PhaseAfter(k, st, c); }
    if st.TakeHead? { assert HeadOk(k, st.h); }
  }

  // ---------------------------------------------------------------------------
  // Runs
  // ---------------------------------------------------------------------------

  ghost predicate SequentialAt(ks: seq<Kernel>, sts: seq<Step>, i: nat)
    requires i < |sts| && |ks| == |sts| + 1
  {
    Enabled(ks[i], sts[i]) && Sequential(ks[i], sts[i])
  }

  ghost predicate SequentialRun(ks: seq<Kernel>, sts: seq<Step>) {
    Run(ks, sts) && forall i {:trigger SequentialAt(ks, sts, i)} :: 0 <= i < |sts| ==> SequentialAt(ks, sts, i)
  }

  lemma {:induction false} RunContexts(ks: seq<Kernel>, sts: seq<Step>, n: nat)
    requires SequentialRun(ks, sts) && n < |ks|
    ensures Inv(ks[n]) && ContextsOk(ks[n])
  {
    hide Inv, Do, Sequential, ChecksPass, ContextOk;
    if n == 0 {
      InitContexts(ks[0]);
    } else {
      RunContexts(ks, sts, n - 1);
      RunInv(ks, sts, n);
      assert StepAt(ks, sts, n - 1) && SequentialAt(ks, sts, n - 1);
      forall w | w in ks[n].wakers ensures ContextOk(ks[n], w) { ContextStep(ks[n - 1], sts[n - 1], w); }
    }
  }

  lemma InitContexts(k: Kernel)
    requires Init(k)
    ensures Inv(k) && ContextsOk(k)
  {
    InitInv(k);
    forall w | w in k.wakers ensures ContextOk(k, w) {}
  }

  /** Another cpu has made the current task of c runnable and not queued it yet. */
  ghost predicate ResumedElsewhere(k: Kernel, c: Cpu)
    requires c in k.cpus
  {
    exists w :: w in k.wakers && k.wakers[w] == Resuming(Current(k, c)) && !OnCpu(k, w, c)
  }

  lemma SequentialChecks(k: Kernel, st: Step)
    requires Inv(k) && ContextsOk(k) && Enabled(k, st) && Sequential(k, st)
    ensures ChecksPass(k, st) <==> !((st.Unqueue? || st.Suspend?) && ResumedElsewhere(k, st.c))
  {
    hide ChecksPass;
    ChecksPassIff(k, st);
    if st.MarkRunnable? {
      assert ContextOk(k, st.w);
    } else if st.Unqueue? || st.Suspend? {
      var t := Current(k, st.c);
      if HalfResumed(k, t) {
        var w :| w in k.wakers && k.wakers[w] == Resuming(t);
        assert ContextOk(k, w);
      }
    }
  }

  /** In every run a check fails exactly if a cpu takes its current task off a runqueue while
      another cpu is half way through resuming it. */
  lemma RunChecks(ks: seq<Kernel>, sts: seq<Step>, n: nat, st: Step)
    requires SequentialRun(ks, sts) && n < |ks| && Enabled(ks[n], st) && Sequential(ks[n], st)
    ensures ChecksPass(ks[n], st) <==> !((st.Unqueue? || st.Suspend?) && ResumedElsewhere(ks[n], st.c))
  {
    RunContexts(ks, sts, n);
    SequentialChecks(ks[n], st);
  }

  /** So on one cpu no check ever fails. */
  lemma OneCpuChecks(ks: seq<Kernel>, sts: seq<Step>, n: nat, st: Step, c: Cpu)
    requires SequentialRun(ks, sts) && n < |ks| && Enabled(ks[n], st) && Sequential(ks[n], st)
    requires ks[0].cpus.Keys == {c}
    ensures ChecksPass(ks[n], st)
  {
    hide Inv, ChecksPass, Sequential;
    RunChecks(ks, sts, n, st);
    RunContexts(ks, sts, n);
    SameCpus(ks, sts, n);
    NobodyElsewhere(ks[n], c);
    assert st.Unqueue? || st.Suspend? ==> st.c in ks[n].cpus.Keys;
  }

  lemma NobodyElsewhere(k: Kernel, c: Cpu)
    requires ContextsOk(k) && k.cpus.Keys == {c}
    ensures !ResumedElsewhere(k, c)
  {
    forall w | w in k.wakers && k.wakers[w] == Resuming(Current(k, c)) ensures OnCpu(k, w, c) {
      assert ContextOk(k, w);
      assert forall d :: d in k.cpus ==> d in k.cpus.Keys;
    }
  }

  lemma {:induction false} SameCpus(ks: seq<Kernel>, sts: seq<Step>, n: nat)
    requires Run(ks, sts) && n < |ks|
    ensures ks[n].cpus.Keys == ks[0].cpus.Keys
  {
    if n > 0 {
      SameCpus(ks, sts, n - 1);
      assert StepAt(ks, sts, n - 1);
      StepCpus(ks[n - 1], sts[n - 1]);
    }
  }

  lemma StepCpus(k: Kernel, st: Step)
    requires Enabled(k, st)
    ensures Do(k, st).cpus.Keys == k.cpus.Keys
  {
  }

  // ---------------------------------------------------------------------------
  // On two cpus a check does fail
  // ---------------------------------------------------------------------------

  function Named(state: RunState, on: Option<Wqh>, cpu: Cpu, idle: bool, ticks: nat): Task {
    Task(state, on, cpu, idle, false, ticks)
  }

  /** Cpus 0 and 1 with idle tasks 0 and 1, task 2 on cpu 0, and one waitqueue. */
  function Gap(two: Task, queue: Queue, cpu0: Sched, byIdle: Hold, byIrq: Hold): Kernel {
    Kernel(map[0 := Named(Runnable, None, 0, true, 1), 1 := Named(Runnable, None, 1, true, 1), 2 := two],
           map[0 := queue],
           map[0 := cpu0, 1 := Sched(1, 1, Queue([1], 1), Queue([], 0), Outside)],
           map[TaskCtx(0) := byIdle, IrqCtx(1) := byIrq])
  }

  function Runs(t: Tid, runnable: seq<Tid>, phase: Phase): Sched {
    Sched(t, 0, Queue(runnable, |runnable|), Queue([], 0), phase)
  }

  const NONE := Queue([], 0)

  function Two(state: RunState, on: Option<Wqh>): Task {
    Named(state, on, 0, false, 5)
  }

  ghost predicate Moves(k: Kernel, st: Step, k': Kernel) {
    Enabled(k, st) && ChecksPass(k, st) && Sequential(k, st) && k' == Do(k, st)
  }

  lemma GapStart()
    ensures Moves(Gap(Two(Inactive, None), NONE, Runs(0, [0], Outside), Free, Free), Start(TaskCtx(0), 2),
                  Gap(Two(Runnable, None), NONE, Runs(0, [0], Outside), Resuming(2), Free))
  {
  }

  lemma GapEnqueue()
    ensures Moves(Gap(Two(Runnable, None), NONE, Runs(0, [0], Outside), Resuming(2), Free), Enqueue(TaskCtx(0), false),
                  Gap(Two(Runnable, None), NONE, Runs(0, [2, 0], Outside), Free, Free))
  {
    assert [2] + [0] == [2, 0];
  }

  lemma GapUnqueue()
    ensures Moves(Gap(Two(Runnable, None), NONE, Runs(0, [2, 0], Outside), Free, Free), Unqueue(0),
                  Gap(Two(Runnable, None), NONE, Runs(0, [2], Choosing), Free, Free))
  {
    assert [2, 0][1..] == [0] && [0][1..] == [];
    assert Remove([0], 0) == [];
    assert Remove([2, 0], 0) == [2];
  }

  lemma GapChoose()
    ensures Moves(Gap(Two(Runnable, None), NONE, Runs(0, [2], Choosing), Free, Free), Choose(0, false, false, 5),
                  Gap(Two(Runnable, None), NONE, Runs(2, [2], Outside), Free, Free))
  {
  }

  lemma GapSleep()
    ensures Moves(Gap(Two(Runnable, None), NONE, Runs(2, [2], Outside), Free, Free), WaitOn(0, 0),
                  Gap(Two(Sleeping, Some(0)), Queue([2], 1), Runs(2, [], Leaving), Free, Free))
  {
    assert Remove([2], 2) == [] && [] + [2] == [2];
  }

  lemma GapTake()
    ensures Moves(Gap(Two(Sleeping, Some(0)), Queue([2], 1), Runs(2, [], Leaving), Free, Free), TakeHead(IrqCtx(1), 0, false),
                  Gap(Two(Sleeping, None), NONE, Runs(2, [], Leaving), Free, Holding(2)))
  {
    assert Remove([2], 2) == [];
  }

  lemma GapMark()
    ensures Moves(Gap(Two(Sleeping, None), NONE, Runs(2, [], Leaving), Free, Holding(2)), MarkRunnable(IrqCtx(1), false),
                  Gap(Two(Runnable, None), NONE, Runs(2, [], Leaving), Free, Resuming(2)))
  {
  }

  lemma GapBegins()
    ensures Init(Gap(Two(Inactive, None), NONE, Runs(0, [0], Outside), Free, Free))
  {
  }

  lemma GapBug()
    ensures var k := Gap(Two(Runnable, None), NONE, Runs(2, [], Leaving), Free, Resuming(2));
            Enabled(k, Unqueue(0)) && Sequential(k, Unqueue(0)) && !ChecksPass(k, Unqueue(0))
  {
  }

  /** Task 2 is started and selected, goes to sleep on cpu 0 and has yet to call schedule()
      there when an interrupt on cpu 1 wakes it. Between the two writes of that wake-up cpu 0
      finds task 2 runnable and on no runqueue: BUG_ON in sched_rq_remove_task fires. */
  lemma ResumeGapHitsBug() returns (ks: seq<Kernel>, sts: seq<Step>)
    ensures SequentialRun(ks, sts) && Enabled(ks[|sts|], Unqueue(0)) && Sequential(ks[|sts|], Unqueue(0))
    ensures !ChecksPass(ks[|sts|], Unqueue(0))
  {
    hide Enabled, Do, ChecksPass, Sequential, Init, Gap, Two, Runs, NONE;
    GapBegins();
    GapStart();
    GapEnqueue();
    GapUnqueue();
    GapChoose();
    GapSleep();
    GapTake();
    GapMark();
    GapBug();
    ks := [Gap(Two(Inactive, None), NONE, Runs(0, [0], Outside), Free, Free),
           Gap(Two(Runnable, None), NONE, Runs(0, [0], Outside), Resuming(2), Free),
           Gap(Two(Runnable, None), NONE, Runs(0, [2, 0], Outside), Free, Free),
           Gap(Two(Runnable, None), NONE, Runs(0, [2], Choosing), Free, Free),
           Gap(Two(Runnable, None), NONE, Runs(2, [2], Outside), Free, Free),
           Gap(Two(Sleeping, Some(0)), Queue([2], 1), Runs(2, [], Leaving), Free, Free),
           Gap(Two(Sleeping, None), NONE, Runs(2, [], Leaving), Free, Holding(2)),
           Gap(Two(Runnable, None), NONE, Runs(2, [], Leaving), Free, Resuming(2))];
    sts := [Start(TaskCtx(0), 2), Enqueue(TaskCtx(0), false), Unqueue(0), Choose(0, false, false, 5),
            WaitOn(0, 0), TakeHead(IrqCtx(1), 0, false), MarkRunnable(IrqCtx(1), false)];
    forall i: nat | i < |sts| ensures StepAt(ks, sts, i) && SequentialAt(ks, sts, i) {
      assert Moves(ks[i], sts[i], ks[i + 1]);
    }
  }
}
