/**
 The waitqueue and runqueue invariant holds in every run, whatever the interleaving. With
 it every BUG check of the two files passes but in two kinds of step; which of them can
 occur depends on what runs on which cpu.
 */
module WaitingRuns {
  import opened Basics
  import opened Waiting

  // ---------------------------------------------------------------------------
  // Queues and holders
  // ---------------------------------------------------------------------------

  /** Both queues of a cpu are sound and disjoint. */
  ghost predicate SchedOk(s: Sched) {
    QueueOk(s.runnable) && QueueOk(s.expired) && forall t :: t in s.runnable.list ==> t !in s.expired.list
  }

  lemma RqRemoveOk(s: Sched, t: Tid)
    requires SchedOk(s) && Queued(s, t)
    ensures var s' := RqRemove(s, t);
            && SchedOk(s') && s' == s.(runnable := s'.runnable, expired := s'.expired)
            && (forall x :: Queued(s', x) <==> Queued(s, x) && x != t)
  {
    if t in s.runnable.list { TakenOk(s.runnable, t); } else { TakenOk(s.expired, t); }
  }

  lemma RqAddOk(s: Sched, t: Tid, expired: bool, front: bool)
    requires SchedOk(s) && !Queued(s, t)
    ensures var s' := if expired then s.(expired := Pushed(s.expired, t, front)) else s.(runnable := Pushed(s.runnable, t, front));
            SchedOk(s') && forall x :: Queued(s', x) <==> Queued(s, x) || x == t
  {
    PushedOk(if expired then s.expired else s.runnable, t, front);
  }

  lemma SelectOk(s: Sched, runIdle: bool, irq: bool)
    requires SchedOk(s)
    ensures var s' := Select(s, runIdle, irq);
            && SchedOk(s') && s'.idle == s.idle && s'.phase == s.phase && (forall x :: Queued(s', x) <==> Queued(s, x))
            && (s'.current == s.idle || s'.current == s.current || Queued(s, s'.current))
  {
  }

  /** Which tasks are in hand, and how, after waker w changes what it does. */
  lemma HoldAfter(k: Kernel, k': Kernel, w: Waker, hold: Hold, h: Hold)
    requires w in k.wakers && k'.wakers == k.wakers[w := hold] && (h.Holding? || h.Resuming?)
    requires k.wakers[w].Holding? || k.wakers[w].Resuming? ==> forall x :: x in k.wakers && k.wakers[x] == k.wakers[w] ==> x == w
    ensures SomeHold(k', h) <==> (hold == h || (SomeHold(k, h) && k.wakers[w] != h))
  {
    if hold == h { assert k'.wakers[w] == h; }
    if SomeHold(k, h) && k.wakers[w] != h {
      var y :| y in k.wakers && k.wakers[y] == h;
      assert k'.wakers[y] == h;
    }
  }

  lemma HoldsAfter(k: Kernel, k': Kernel, w: Waker, hold: Hold)
    requires WakersOk(k) && w in k.wakers && k'.wakers == k.wakers[w := hold]
    ensures forall x :: Held(k', x) <==> (hold == Holding(x) || (Held(k, x) && k.wakers[w] != Holding(x)))
    ensures forall x :: HalfResumed(k', x) <==> (hold == Resuming(x) || (HalfResumed(k, x) && k.wakers[w] != Resuming(x)))
  {
    hide SomeHold;
    assert WakerOk(k, w);
    forall x ensures Held(k', x) <==> (hold == Holding(x) || (Held(k, x) && k.wakers[w] != Holding(x))) {
      HoldAfter(k, k', w, hold, Holding(x));
    }
    forall x ensures HalfResumed(k', x) <==> (hold == Resuming(x) || (HalfResumed(k, x) && k.wakers[w] != Resuming(x))) {
      HoldAfter(k, k', w, hold, Resuming(x));
    }
  }

  lemma SameHolds(k: Kernel, k': Kernel)
    requires k'.wakers == k.wakers
    ensures forall x :: Held(k', x) <==> Held(k, x)
    ensures forall x :: HalfResumed(k', x) <==> HalfResumed(k, x)
  {
  }

  // ---------------------------------------------------------------------------
  // What a step leaves alone
  // ---------------------------------------------------------------------------

  ghost predicate SchedKept(s: Sched, s': Sched, x: Tid) {
    && s'.idle == s.idle && (Queued(s', x) <==> Queued(s, x))
    && (s'.current == x && s'.phase == Requeuing <==> s.current == x && s.phase == Requeuing)
    && (x == s.idle ==> (s'.current == x && s'.phase == Outside <==> s.current == x && s.phase == Outside))
  }

  /** Everything that TaskOk says about x is as before. */
  ghost predicate TaskKept(k: Kernel, k': Kernel, x: Tid)
    requires x in k.tasks && k.tasks[x].cpu in k.cpus
  {
    && x in k'.tasks && k'.tasks[x] == k.tasks[x].(ticks := k'.tasks[x].ticks) && (Held(k', x) <==> Held(k, x)) && (HalfResumed(k', x) <==> HalfResumed(k, x))
    && k.tasks[x].cpu in k'.cpus
    && SchedKept(k.cpus[k.tasks[x].cpu], k'.cpus[k.tasks[x].cpu], x)
    && (k.tasks[x].on.Some? && k.tasks[x].on.value in k.heads ==>
          && k.tasks[x].on.value in k'.heads
          && (x in k'.heads[k.tasks[x].on.value].list <==> x in k.heads[k.tasks[x].on.value].list))
  }

  lemma KeepTasks(k: Kernel, k': Kernel, t: Tid)
    requires TasksOk(k) && k'.tasks.Keys == k.tasks.Keys
    requires forall x {:trigger TaskKept(k, k', x)} :: x in k.tasks && x != t && k.tasks[x].cpu in k.cpus ==> TaskKept(k, k', x)
    requires t in k'.tasks ==> TaskOk(k', t)
    ensures TasksOk(k')
  {
    forall x | x in k'.tasks ensures TaskOk(k', x) {
      if x != t {
        assert TaskOk(k, x);
        assert TaskKept(k, k', x);
      }
    }
  }

  /** Heads other than h do not mind a change to a task that waits on h or nowhere. */
  lemma KeepHeads(k: Kernel, k': Kernel, h: Wqh, t: Tid)
    requires HeadsOk(k) && k'.heads.Keys == k.heads.Keys && (forall x :: x in k.heads && x != h ==> k'.heads[x] == k.heads[x])
    requires t in k.tasks && (k.tasks[t].on == None || k.tasks[t].on == Some(h))
    requires forall x :: x in k.tasks ==> x in k'.tasks
    requires forall x :: x in k.tasks && x != t ==> k'.tasks[x].on == k.tasks[x].on && k'.tasks[x].state == k.tasks[x].state
    requires h in k'.heads ==> HeadOk(k', h)
    ensures HeadsOk(k')
  {
    forall y | y in k'.heads ensures HeadOk(k', y) {
      if y != h { assert HeadOk(k, y); }
    }
  }

  lemma SameHeads(k: Kernel, k': Kernel, t: Tid)
    requires HeadsOk(k) && k'.heads == k.heads && t in k.tasks && k.tasks[t].on == None
    requires forall x :: x in k.tasks ==> x in k'.tasks
    requires forall x :: x in k.tasks && x != t ==> k'.tasks[x].on == k.tasks[x].on && k'.tasks[x].state == k.tasks[x].state
    ensures HeadsOk(k')
  {
    forall y | y in k'.heads ensures HeadOk(k', y) { assert HeadOk(k, y); }
  }

  lemma KeepCpus(k: Kernel, k': Kernel, c: Cpu)
    requires CpusOk(k) && k'.cpus.Keys == k.cpus.Keys && (forall x :: x in k.cpus && x != c ==> k'.cpus[x] == k.cpus[x])
    requires forall x :: x in k.tasks ==> x in k'.tasks && k'.tasks[x].cpu == k.tasks[x].cpu && k'.tasks[x].idle == k.tasks[x].idle
    requires forall x :: x in k.tasks && k.tasks[x].cpu != c && k.tasks[x].state == Runnable ==> k'.tasks[x].state == Runnable
    requires c in k'.cpus ==> CpuOk(k', c)
    ensures CpusOk(k')
  {
    forall y | y in k'.cpus ensures CpuOk(k', y) {
      if y != c { assert CpuOk(k, y); }
    }
  }

  lemma SameCpus(k: Kernel, k': Kernel)
    requires CpusOk(k) && k'.cpus == k.cpus
    requires forall x :: x in k.tasks ==> x in k'.tasks && k'.tasks[x].cpu == k.tasks[x].cpu && k'.tasks[x].idle == k.tasks[x].idle
    requires forall x :: x in k.tasks && k.tasks[x].state == Runnable ==> k'.tasks[x].state == Runnable
    ensures CpusOk(k')
  {
    forall y | y in k'.cpus ensures CpuOk(k', y) { assert CpuOk(k, y); }
  }

  /** The wakers other than w hold on to what they have; t is what w holds or held. */
  lemma KeepWakers(k: Kernel, k': Kernel, w: Waker, t: Tid)
    requires WakersOk(k) && k'.wakers.Keys == k.wakers.Keys && (forall x :: x in k.wakers && x != w ==> k'.wakers[x] == k.wakers[x])
    requires (forall x :: x in k.tasks ==> x in k'.tasks) && (forall x :: x in k.heads ==> x in k'.heads)
    requires forall x :: x in k.tasks && x != t ==> k'.tasks[x].state == k.tasks[x].state && k'.tasks[x].on == k.tasks[x].on
    requires forall x :: x in k.wakers && x != w ==> k.wakers[x] != Holding(t) && k.wakers[x] != Resuming(t)
    requires w in k'.wakers ==> (k'.wakers[w].Holding? || k'.wakers[w].Resuming?) ==> k'.wakers[w].task == t
    requires w in k'.wakers ==> WakerOk(k', w)
    ensures WakersOk(k')
  {
    forall y | y in k'.wakers ensures WakerOk(k', y) {
      if y != w { assert WakerOk(k, y); }
    }
  }

  // ---------------------------------------------------------------------------
  // Steps
  // ---------------------------------------------------------------------------

  /** On a runqueue whose total stays non-negative without it. */
  predicate Removable(s: Sched, t: Tid) {
    Queued(s, t) && (t in s.runnable.list ==> s.runnable.count >= 1) && (t in s.expired.list ==> s.expired.count >= 1)
  }

  /** On no runqueue of any cpu. */
  ghost predicate Addable(k: Kernel, t: Tid) {
    forall c :: c in k.cpus ==> !Queued(k.cpus[c], t)
  }

  /** The task that runs where the waker runs. */
  ghost predicate RunsOnCpuOf(k: Kernel, w: Waker, t: Tid) {
    match w
    case TaskCtx(u) => u in k.tasks && k.tasks[u].cpu in k.cpus && k.cpus[k.tasks[u].cpu].current == t
    case IrqCtx(c) => c in k.cpus && k.cpus[c].current == t
  }

  /** The conditions that the code checks with BUG_ON before it acts. */
  ghost predicate ChecksPass(k: Kernel, st: Step)
    requires Enabled(k, st)
  {
    match st
    case WaitOn(c, _) => Removable(k.cpus[c], Current(k, c))
    case Suspend(c) => Removable(k.cpus[c], Current(k, c))
    case Unqueue(c) => k.tasks[Current(k, c)].state == Runnable ==> Removable(k.cpus[c], Current(k, c))
    case Requeue(c) => Addable(k, Current(k, c))
    case MarkRunnable(w, sync) => sync ==> !RunsOnCpuOf(k, w, k.wakers[w].task)
    case Enqueue(w, _) => Addable(k, k.wakers[w].task)
    case TakeHead(_, h, _) => k.heads[h].count >= 0 && (k.heads[h].count > 0 ==> k.heads[h].list != [])
    case Choose(c, runIdle, irq, _) =>
      var s := Select(k.cpus[c], runIdle, irq);
      && (s.current == s.idle ==> Addable(k, s.idle))
      && (k.cpus[c].runnable.count == 0 && k.cpus[c].expired.count > 0 ==> k.cpus[c].expired.list != [])
    case Start(_, _) => true
    case Peek(_, _) => true
    case TakePeeked(_, _) => true
    case Tick(_, _) => true
  }

  lemma WaitOnInv(k: Kernel, c: Cpu, h: Wqh)
    requires Inv(k) && Enabled(k, WaitOn(c, h))
    ensures Inv(Do(k, WaitOn(c, h)))
  {
    hide RqRemove, Pushed, QueueOk, Held, HalfResumed;
    var k' := Do(k, WaitOn(c, h));
    var t := Current(k, c);
    assert CpuOk(k, c) && TaskOk(k, t) && HeadOk(k, h);
    PushedOk(k.heads[h], t, false);
    RqRemoveOk(k.cpus[c], t);
    SameHolds(k, k');
    forall x | x in k.tasks && x != t && k.tasks[x].cpu in k.cpus ensures TaskKept(k, k', x) {}
    KeepTasks(k, k', t);
    KeepHeads(k, k', h, t);
    KeepCpus(k, k', c);
    SameWakers(k, k', t);
  }

  /** A task that no waker has in hand may change its state. */
  lemma SameWakers(k: Kernel, k': Kernel, t: Tid)
    requires WakersOk(k) && k'.wakers == k.wakers && k'.heads.Keys == k.heads.Keys
    requires t in k.tasks && !Held(k, t) && !HalfResumed(k, t)
    requires t in k'.tasks && k'.tasks == k.tasks[t := k'.tasks[t]]
    ensures WakersOk(k')
  {
    forall y | y in k'.wakers ensures WakerOk(k', y) { assert WakerOk(k, y); }
  }

  lemma TakenByInv(k: Kernel, w: Waker, h: Wqh, t: Tid, interrupt: bool)
    requires Inv(k) && w in k.wakers && (k.wakers[w].Free? || k.wakers[w].Peeked?) && h in k.heads && t in k.heads[h].list
    ensures t in k.tasks && Inv(TakenBy(k, w, h, t, interrupt))
  {
    hide Taken, QueueOk, Held, HalfResumed;
    assert HeadOk(k, h);
    var k' := TakenBy(k, w, h, t, interrupt);
    assert TaskOk(k, t);
    TakenOk(k.heads[h], t);
    HoldsAfter(k, k', w, Holding(t));
    forall x | x in k.tasks && x != t && k.tasks[x].cpu in k.cpus ensures TaskKept(k, k', x) {}
    KeepTasks(k, k', t);
    KeepHeads(k, k', h, t);
    SameCpus(k, k');
    NotInHand(k, t);
    KeepWakers(k, k', w, t);
  }

  lemma NotInHand(k: Kernel, t: Tid)
    requires !Held(k, t) && !HalfResumed(k, t)
    ensures forall x :: x in k.wakers ==> k.wakers[x] != Holding(t) && k.wakers[x] != Resuming(t)
  {
  }

  lemma TakeHeadInv(k: Kernel, w: Waker, h: Wqh, interrupt: bool)
    requires Inv(k) && Enabled(k, TakeHead(w, h, interrupt))
    ensures Inv(Do(k, TakeHead(w, h, interrupt)))
  {
    assert HeadOk(k, h);
    if k.heads[h].list != [] { TakenByInv(k, w, h, k.heads[h].list[0], interrupt); }
  }

  /** A waker that neither gained nor gave up a task. */
  lemma WakerOnly(k: Kernel, w: Waker, hold: Hold)
    requires Inv(k) && w in k.wakers && (k.wakers[w].Free? || k.wakers[w].Peeked?) && (hold.Free? || hold.Peeked?)
    requires hold.Peeked? ==> hold.task in k.tasks && hold.head in k.heads
    ensures Inv(k.(wakers := k.wakers[w := hold]))
  {
    hide QueueOk, Held, HalfResumed;
    var k' := k.(wakers := k.wakers[w := hold]);
    HoldsAfter(k, k', w, hold);
    forall x | x in k'.tasks ensures TaskOk(k', x) { assert TaskOk(k, x); }
    forall x | x in k'.heads ensures HeadOk(k', x) { assert HeadOk(k, x); }
    SameCpus(k, k');
    forall y | y in k'.wakers ensures WakerOk(k', y) { assert WakerOk(k, y); }
  }

  lemma PeekInv(k: Kernel, w: Waker, t: Tid)
    requires Inv(k) && Enabled(k, Peek(w, t))
    ensures Inv(Do(k, Peek(w, t)))
  {
    assert TaskOk(k, t);
    if k.tasks[t].on.Some? { WakerOnly(k, w, Peeked(t, k.tasks[t].on.value)); }
  }

  lemma TakePeekedInv(k: Kernel, w: Waker, interrupt: bool)
    requires Inv(k) && Enabled(k, TakePeeked(w, interrupt))
    ensures Inv(Do(k, TakePeeked(w, interrupt)))
  {
    var p := k.wakers[w];
    assert WakerOk(k, w) && TaskOk(k, p.task);
    if k.tasks[p.task].on == Some(p.head) { TakenByInv(k, w, p.head, p.task, interrupt); } else { WakerOnly(k, w, Free); }
  }

  /** A task off all queues becomes runnable in the hands of w. */
  lemma MarkedInv(k: Kernel, w: Waker, t: Tid)
    requires Inv(k) && w in k.wakers && t in k.tasks && k.tasks[t].state != Runnable && k.tasks[t].on == None
    requires k.wakers[w] == Holding(t) || (k.wakers[w] == Free && k.tasks[t].state == Inactive)
    ensures Inv(Marked(k, w, t))
  {
    hide QueueOk, Held, HalfResumed;
    var k' := Marked(k, w, t);
    assert WakerOk(k, w) && TaskOk(k, t);
    var c := k.tasks[t].cpu;
    assert CpuOk(k, c);
    HoldsAfter(k, k', w, Resuming(t));
    forall x | x in k.tasks && x != t && k.tasks[x].cpu in k.cpus ensures TaskKept(k, k', x) {}
    KeepTasks(k, k', t);
    SameHeads(k, k', t);
    SameCpus(k, k');
    InHandOf(k, w, t);
    KeepWakers(k, k', w, t);
  }

  lemma InHandOf(k: Kernel, w: Waker, t: Tid)
    requires WakersOk(k) && w in k.wakers && !HalfResumed(k, t) && (k.wakers[w] == Holding(t) || !Held(k, t))
    ensures forall x :: x in k.wakers && x != w ==> k.wakers[x] != Holding(t) && k.wakers[x] != Resuming(t)
  {
    assert WakerOk(k, w);
  }

  /** A half-resumed task goes to the one runqueue it belongs on, and nobody holds it any more. */
  lemma EnqueueInv(k: Kernel, w: Waker, late: bool)
    requires Inv(k) && Enabled(k, Enqueue(w, late))
    ensures Inv(Do(k, Enqueue(w, late)))
  {
    hide Pushed, QueueOk, Held, HalfResumed;
    var k' := Do(k, Enqueue(w, late));
    var t := k.wakers[w].task;
    assert WakerOk(k, w) && TaskOk(k, t);
    ResumingIsHalf(k, w, t);
    var c := k.tasks[t].cpu;
    assert CpuOk(k, c);
    RqAddOk(k.cpus[c], t, late, true);
    HoldsAfter(k, k', w, Free);
    forall x | x in k.tasks && x != t && k.tasks[x].cpu in k.cpus ensures TaskKept(k, k', x) {}
    KeepTasks(k, k', t);
    SameHeads(k, k', t);
    KeepCpus(k, k', c);
    KeepWakers(k, k', w, t);
  }

  lemma ResumingIsHalf(k: Kernel, w: Waker, t: Tid)
    requires WakersOk(k) && w in k.wakers && k.wakers[w] == Resuming(t)
    ensures HalfResumed(k, t) && forall x :: x in k.wakers && x != w ==> k.wakers[x] != Holding(t) && k.wakers[x] != Resuming(t)
  {
    assert WakerOk(k, w);
    forall x | x in k.wakers ensures WakerOk(k, x) {}
  }

  lemma SuspendInv(k: Kernel, c: Cpu)
    requires Inv(k) && Enabled(k, Suspend(c)) && ChecksPass(k, Suspend(c))
    ensures Inv(Do(k, Suspend(c)))
  {
    hide RqRemove, QueueOk, Held, HalfResumed;
    var k' := Do(k, Suspend(c));
    var t := Current(k, c);
    assert CpuOk(k, c) && TaskOk(k, t);
    RqRemoveOk(k.cpus[c], t);
    SameHolds(k, k');
    forall x | x in k.tasks && x != t && k.tasks[x].cpu in k.cpus ensures TaskKept(k, k', x) {}
    KeepTasks(k, k', t);
    SameHeads(k, k', t);
    KeepCpus(k, k', c);
    SameWakers(k, k', t);
  }

  /** Steps that only move a cpu along in schedule(). */
  lemma CpuOnly(k: Kernel, k': Kernel, c: Cpu)
    requires Inv(k) && c in k.cpus && c in k'.cpus && k'.heads == k.heads && k'.wakers == k.wakers
    requires k'.cpus == k.cpus[c := k'.cpus[c]]
    requires k'.tasks.Keys == k.tasks.Keys && forall t :: t in k.tasks ==> k'.tasks[t] == k.tasks[t].(ticks := k'.tasks[t].ticks)
    requires CpuOk(k', c) && k'.cpus[c].idle == k.cpus[c].idle
    requires k'.cpus[c].phase == Requeuing ==> !HalfResumed(k, k'.cpus[c].current)
    requires forall t :: t in k.tasks && k.tasks[t].cpu == c && k.tasks[t].state == Runnable ==>
               RightlyQueued(k'.cpus[c], t, k.tasks[t].idle, HalfResumed(k, t))
    ensures Inv(k')
  {
    hide QueueOk, Held, HalfResumed, Queued;
    SameHolds(k, k');
    forall x | x in k'.tasks ensures TaskOk(k', x) { assert TaskOk(k, x); }
    forall x | x in k'.heads ensures HeadOk(k', x) { assert HeadOk(k, x); }
    KeepCpus(k, k', c);
    forall y | y in k'.wakers ensures WakerOk(k', y) { assert WakerOk(k, y); }
  }

  lemma TickInv(k: Kernel, c: Cpu, ticks: nat)
    requires Inv(k) && Enabled(k, Tick(c, ticks))
    ensures Inv(Do(k, Tick(c, ticks)))
  {
    hide Held, HalfResumed;
    assert CpuOk(k, c);
    forall t | t in k.tasks ensures TaskOk(k, t) {}
    CpuOnly(k, Do(k, Tick(c, ticks)), c);
  }

  lemma UnqueueInv(k: Kernel, c: Cpu)
    requires Inv(k) && Enabled(k, Unqueue(c)) && ChecksPass(k, Unqueue(c))
    ensures Inv(Do(k, Unqueue(c)))
  {
    hide RqRemove, QueueOk, Held, HalfResumed;
    var k' := Do(k, Unqueue(c));
    assert CpuOk(k, c) && TaskOk(k, Current(k, c));
    if k.tasks[Current(k, c)].state == Runnable { RqRemoveOk(k.cpus[c], Current(k, c)); }
    forall t | t in k.tasks ensures TaskOk(k, t) {}
    CpuOnly(k, k', c);
  }

  lemma RequeueInv(k: Kernel, c: Cpu)
    requires Inv(k) && Enabled(k, Requeue(c))
    ensures Inv(Do(k, Requeue(c)))
  {
    hide Pushed, QueueOk, Held, HalfResumed;
    var k' := Do(k, Requeue(c));
    var t := Current(k, c);
    assert CpuOk(k, c) && TaskOk(k, t);
    RqAddOk(k.cpus[c], t, k.tasks[t].ticks == 0, false);
    forall x | x in k.tasks ensures TaskOk(k, x) {}
    CpuOnly(k, k', c);
  }

  lemma ChooseInv(k: Kernel, c: Cpu, runIdle: bool, irq: bool, ticks: nat)
    requires Inv(k) && Enabled(k, Choose(c, runIdle, irq, ticks))
    ensures Inv(Do(k, Choose(c, runIdle, irq, ticks)))
  {
    hide Select, WithIdle, QueueOk, Held, HalfResumed;
    assert CpuOk(k, c) && TaskOk(k, Current(k, c)) && TaskOk(k, k.cpus[c].idle);
    var s := Select(k.cpus[c], runIdle, irq);
    SelectOk(k.cpus[c], runIdle, irq);
    WithIdleOk(s);
    ChosenInv(k, c, Chosen(s));
    var k1 := k.(cpus := k.cpus[c := Chosen(s)]);
    TickInv(k1, c, ticks);
  }

  lemma ChosenInv(k: Kernel, c: Cpu, s: Sched)
    requires Inv(k) && c in k.cpus && k.cpus[c].phase == Choosing
    requires SchedOk(s) && s.idle == k.cpus[c].idle && s.phase == (if Queued(s, s.current) then Outside else Leaving)
    requires s.current in k.tasks && k.tasks[s.current].cpu == c
    requires forall x :: Queued(s, x) <==> Queued(k.cpus[c], x) || (x == s.idle && s.current == s.idle)
    ensures Inv(k.(cpus := k.cpus[c := s]))
  {
    hide QueueOk, Held, HalfResumed;
    assert CpuOk(k, c) && TaskOk(k, s.idle);
    forall x | x in k.tasks ensures TaskOk(k, x) {}
    CpuOnly(k, k.(cpus := k.cpus[c := s]), c);
  }

  lemma WithIdleOk(s: Sched)
    requires SchedOk(s) && !Queued(s, s.idle)
    ensures var s' := WithIdle(s);
            && SchedOk(s') && s'.idle == s.idle && s'.current == s.current
            && (forall x :: Queued(s', x) <==> Queued(s, x) || (x == s.idle && s.current == s.idle))
  {
    if s.current == s.idle { RqAddOk(s, s.idle, false, true); }
  }

  // ---------------------------------------------------------------------------
  // Runs
  // ---------------------------------------------------------------------------

  /** Nobody waits or wakes; each cpu runs its idle task, all other tasks are inactive. */
  ghost predicate Init(k: Kernel) {
    && (forall h :: h in k.heads ==> k.heads[h] == Queue([], 0))
    && (forall w :: w in k.wakers ==> k.wakers[w] == Free)
    && (forall c :: c in k.cpus ==>
          var s := k.cpus[c];
          && s == Sched(s.idle, s.idle, Queue([s.idle], 1), Queue([], 0), Outside)
          && s.idle in k.tasks && k.tasks[s.idle].cpu == c && k.tasks[s.idle].idle)
    && (forall t :: t in k.tasks ==>
          && k.tasks[t].cpu in k.cpus && k.tasks[t].on == None
          && (k.tasks[t].idle <==> k.cpus[k.tasks[t].cpu].idle == t)
          && k.tasks[t].state == if k.tasks[t].idle then Runnable else Inactive)
  }

  lemma InitInv(k: Kernel)
    requires Init(k)
    ensures Inv(k)
  {
    forall c | c in k.cpus ensures CpuOk(k, c) {}
    forall t | t in k.tasks ensures TaskOk(k, t) {}
  }

  lemma StepInv(k: Kernel, st: Step)
    requires Inv(k) && Enabled(k, st) && ChecksPass(k, st)
    ensures Inv(Do(k, st))
  {
    hide Do, Inv;
    match st
    case WaitOn(c, h) => WaitOnInv(k, c, h);
    case TakeHead(w, h, interrupt) => TakeHeadInv(k, w, h, interrupt);
    case Peek(w, t) => PeekInv(k, w, t);
    case TakePeeked(w, interrupt) => TakePeekedInv(k, w, interrupt);
    case MarkRunnable(w, sync) => MarkRunnableInv(k, w, sync);
    case Start(w, t) => StartInv(k, w, t);
    case Enqueue(w, late) => EnqueueInv(k, w, late);
    case Suspend(c) => SuspendInv(k, c);
    case Tick(c, ticks) => TickInv(k, c, ticks);
    case Unqueue(c) => UnqueueInv(k, c);
    case Requeue(c) => RequeueInv(k, c);
    case Choose(c, runIdle, irq, ticks) => ChooseInv(k, c, runIdle, irq, ticks);
  }

  lemma MarkRunnableInv(k: Kernel, w: Waker, sync: bool)
    requires Inv(k) && Enabled(k, MarkRunnable(w, sync))
    ensures Inv(Do(k, MarkRunnable(w, sync)))
  {
    assert WakerOk(k, w);
    MarkedInv(k, w, k.wakers[w].task);
  }

  lemma StartInv(k: Kernel, w: Waker, t: Tid)
    requires Inv(k) && Enabled(k, Start(w, t))
    ensures Inv(Do(k, Start(w, t)))
  {
    assert TaskOk(k, t);
    MarkedInv(k, w, t);
  }

  ghost predicate StepAt(ks: seq<Kernel>, sts: seq<Step>, i: nat)
    requires i < |sts| && |ks| == |sts| + 1
  {
    Enabled(ks[i], sts[i]) && ChecksPass(ks[i], sts[i]) && ks[i + 1] == Do(ks[i], sts[i])
  }

  /** A run ends where a check fails: BUG() does not return. */
  ghost predicate Run(ks: seq<Kernel>, sts: seq<Step>) {
    && |ks| == |sts| + 1 && Init(ks[0])
    && forall i {:trigger StepAt(ks, sts, i)} :: 0 <= i < |sts| ==> StepAt(ks, sts, i)
  }

  lemma {:induction false} RunInv(ks: seq<Kernel>, sts: seq<Step>, n: nat)
    requires Run(ks, sts) && n < |ks|
    ensures Inv(ks[n])
  {
    if n == 0 {
      InitInv(ks[0]);
    } else {
      RunInv(ks, sts, n - 1);
      assert StepAt(ks, sts, n - 1);
      StepInv(ks[n - 1], sts[n - 1]);
    }
  }

  // ---------------------------------------------------------------------------
  // What the invariant says
  // ---------------------------------------------------------------------------

  /** A task is in exactly one place, told over all queues, cpus and wakers. */
  lemma Placement(k: Kernel, t: Tid)
    requires Inv(k) && t in k.tasks && !k.tasks[t].idle
    ensures forall c :: c in k.cpus && Queued(k.cpus[c], t) ==>
              k.tasks[t].state == Runnable && c == k.tasks[t].cpu && !(t in k.cpus[c].runnable.list && t in k.cpus[c].expired.list)
    ensures forall h :: h in k.heads && t in k.heads[h].list ==> k.tasks[t].state == Sleeping && k.tasks[t].on == Some(h)
    ensures forall w, x :: w in k.wakers && x in k.wakers && k.wakers[w] in {Holding(t), Resuming(t)} && k.wakers[x] in {Holding(t), Resuming(t)} ==> w == x
    ensures k.tasks[t].state == Runnable ==>
              ((exists c :: c in k.cpus && Queued(k.cpus[c], t)) <==>
               !HalfResumed(k, t) && !(exists c :: c in k.cpus && k.cpus[c].current == t && k.cpus[c].phase == Requeuing))
    ensures k.tasks[t].state == Sleeping ==> ((exists h :: h in k.heads && t in k.heads[h].list) <==> !Held(k, t))
    ensures (Held(k, t) ==> k.tasks[t].state == Sleeping) && (HalfResumed(k, t) ==> k.tasks[t].state == Runnable)
  {
    assert TaskOk(k, t);
    forall c | c in k.cpus ensures CpuOk(k, c) {}
    forall h | h in k.heads ensures HeadOk(k, h) {}
    forall w | w in k.wakers ensures WakerOk(k, w) {}
  }

  lemma CurrentRemovable(k: Kernel, c: Cpu)
    requires Inv(k) && c in k.cpus && Queued(k.cpus[c], Current(k, c))
    ensures Removable(k.cpus[c], Current(k, c))
  {
    assert CpuOk(k, c);
  }

  /** Tasks are only ever queued on their own cpu. */
  lemma OffOwnCpu(k: Kernel, t: Tid)
    requires CpusOk(k) && t in k.tasks && k.tasks[t].cpu in k.cpus && !Queued(k.cpus[k.tasks[t].cpu], t)
    ensures Addable(k, t)
  {
    forall c | c in k.cpus ensures !Queued(k.cpus[c], t) { assert CpuOk(k, c); }
  }

  /** A cpu acts on a current task that a waker has made runnable and not queued yet. */
  ghost predicate ActsOnHalfResumed(k: Kernel, st: Step)
    requires Enabled(k, st)
  {
    (st.Unqueue? || st.Suspend?) && HalfResumed(k, Current(k, st.c))
  }

  /** A waker on whose own cpu the sleeper still runs resumes it synchronously. */
  ghost predicate ResumesCurrentSync(k: Kernel, st: Step)
    requires Enabled(k, st)
  {
    st.MarkRunnable? && st.sync && RunsOnCpuOf(k, st.w, k.wakers[st.w].task)
  }

  /** The checks pass in exactly the steps that do neither. */
  lemma ChecksPassIff(k: Kernel, st: Step)
    requires Inv(k) && Enabled(k, st)
    ensures ChecksPass(k, st) <==> !ActsOnHalfResumed(k, st) && !ResumesCurrentSync(k, st)
  {
    hide Removable, Addable, Select, Held, HalfResumed;
    match st
    case WaitOn(c, _) => CurrentOutside(k, c); CurrentRemovable(k, c);
    case Suspend(c) => CurrentChecks(k, c);
    case Unqueue(c) => CurrentChecks(k, c);
    case Requeue(c) => assert CpuOk(k, c) && TaskOk(k, Current(k, c)); OffOwnCpu(k, Current(k, c));
    case Enqueue(w, _) =>
      assert WakerOk(k, w) && TaskOk(k, k.wakers[w].task);
      ResumingIsHalf(k, w, k.wakers[w].task);
      OffOwnCpu(k, k.wakers[w].task);
    case TakeHead(_, h, _) => assert HeadOk(k, h);
    case Choose(c, runIdle, irq, _) =>
      assert CpuOk(k, c) && TaskOk(k, k.cpus[c].idle);
      SelectOk(k.cpus[c], runIdle, irq);
      OffOwnCpu(k, k.cpus[c].idle);
    case _ =>
  }

  /** Outside schedule() the current task is on a runqueue, so nobody is resuming it. */
  lemma CurrentOutside(k: Kernel, c: Cpu)
    requires Inv(k) && c in k.cpus && k.cpus[c].phase == Outside
    ensures Queued(k.cpus[c], Current(k, c)) && !HalfResumed(k, Current(k, c))
  {
    assert CpuOk(k, c) && TaskOk(k, Current(k, c));
  }

  lemma CurrentChecks(k: Kernel, c: Cpu)
    requires Inv(k) && c in k.cpus && k.cpus[c].phase != Requeuing && Current(k, c) in k.tasks
    requires k.tasks[Current(k, c)].idle ==> k.cpus[c].phase != Choosing
    ensures k.tasks[Current(k, c)].state == Runnable ==> (Removable(k.cpus[c], Current(k, c)) <==> !HalfResumed(k, Current(k, c)))
    ensures HalfResumed(k, Current(k, c)) ==> k.tasks[Current(k, c)].state == Runnable
  {
    hide Held, HalfResumed;
    var t := Current(k, c);
    assert CpuOk(k, c) && TaskOk(k, t);
    if Queued(k.cpus[c], t) { CurrentRemovable(k, c); }
  }

  // ---------------------------------------------------------------------------
  // Every sleep is ended by one take and one resume
  // ---------------------------------------------------------------------------

  ghost function Sleeps(k: Kernel, st: Step, t: Tid): nat
    requires Enabled(k, st)
  {
    if st.WaitOn? && Current(k, st.c) == t then 1 else 0
  }

  ghost function Takes(k: Kernel, st: Step, t: Tid): nat
    requires Enabled(k, st)
  {
    match st
    case TakeHead(_, h, _) => if k.heads[h].list != [] && k.heads[h].list[0] == t then 1 else 0
    case TakePeeked(w, _) => if k.wakers[w].task == t && t in k.tasks && k.tasks[t].on == Some(k.wakers[w].head) then 1 else 0
    case _ => 0
  }

  ghost function Marks(k: Kernel, st: Step, t: Tid): nat
    requires Enabled(k, st)
  {
    if st.MarkRunnable? && k.wakers[st.w] == Holding(t) then 1 else 0
  }

  ghost function Starts(k: Kernel, st: Step, t: Tid): nat
    requires Enabled(k, st)
  {
    if st.Start? && st.t == t then 1 else 0
  }

  ghost function Enqueues(k: Kernel, st: Step, t: Tid): nat
    requires Enabled(k, st)
  {
    if st.Enqueue? && k.wakers[st.w] == Resuming(t) then 1 else 0
  }

  datatype Counts = Counts(sleeps: nat, takes: nat, marks: nat, starts: nat, enqueues: nat)

  ghost function Total(ks: seq<Kernel>, sts: seq<Step>, n: nat, t: Tid): Counts
    requires Run(ks, sts) && n <= |sts|
  {
    if n == 0 then Counts(0, 0, 0, 0, 0)
    else
      var c := Total(ks, sts, n - 1, t);
      assert StepAt(ks, sts, n - 1);
      var k, st := ks[n - 1], sts[n - 1];
      Counts(c.sleeps + Sleeps(k, st, t), c.takes + Takes(k, st, t), c.marks + Marks(k, st, t),
             c.starts + Starts(k, st, t), c.enqueues + Enqueues(k, st, t))
  }

  function Waits(k: Kernel, t: Tid): nat {
    if t in k.tasks && k.tasks[t].on.Some? then 1 else 0
  }

  function One(b: bool): nat {
    if b then 1 else 0
  }

  /** The three counts of t change with a step as they should. */
  ghost predicate Balanced(k: Kernel, st: Step, t: Tid)
    requires Enabled(k, st)
  {
    var k' := Do(k, st);
    && t in k'.tasks
    && Waits(k', t) == Waits(k, t) + Sleeps(k, st, t) - Takes(k, st, t)
    && One(Held(k', t)) == One(Held(k, t)) + Takes(k, st, t) - Marks(k, st, t)
    && One(HalfResumed(k', t)) == One(HalfResumed(k, t)) + Marks(k, st, t) + Starts(k, st, t) - Enqueues(k, st, t)
  }

  lemma TakeBalance(k: Kernel, st: Step, t: Tid)
    requires Inv(k) && Enabled(k, st) && t in k.tasks && (st.TakeHead? || st.Peek? || st.TakePeeked?)
    ensures Balanced(k, st, t)
  {
    hide Held, HalfResumed, QueueOk;
    assert TaskOk(k, t);
    match st
    case TakeHead(w, h, interrupt) =>
      var k' := HeadTaken(k, w, h, interrupt);
      if k.heads[h].list != [] { HoldsAfter(k, k', w, Holding(k.heads[h].list[0])); }
    case Peek(w, x) =>
      assert TaskOk(k, x);
      if k.tasks[x].on.Some? { HoldsAfter(k, Do(k, st), w, Peeked(x, k.tasks[x].on.value)); }
    case TakePeeked(w, interrupt) =>
      assert WakerOk(k, w) && TaskOk(k, k.wakers[w].task);
      HoldsAfter(k, Do(k, st), w, Do(k, st).wakers[w]);
  }

  lemma ResumeBalance(k: Kernel, st: Step, t: Tid)
    requires Inv(k) && Enabled(k, st) && t in k.tasks && (st.MarkRunnable? || st.Start? || st.Enqueue?)
    ensures Balanced(k, st, t)
  {
    hide Held, HalfResumed, QueueOk;
    assert TaskOk(k, t);
    match st
    case MarkRunnable(w, _) =>
      var x := k.wakers[w].task;
      assert WakerOk(k, w) && TaskOk(k, x);
      HoldingIsHeld(k, w, x);
      HoldsAfter(k, Do(k, st), w, Resuming(x));
    case Start(w, x) =>
      assert TaskOk(k, x);
      HoldsAfter(k, Do(k, st), w, Resuming(x));
    case Enqueue(w, _) =>
      var x := k.wakers[w].task;
      assert WakerOk(k, w) && TaskOk(k, x);
      ResumingIsHalf(k, w, x);
      HoldsAfter(k, Do(k, st), w, Free);
  }

  lemma StepBalance(k: Kernel, st: Step, t: Tid)
    requires Inv(k) && Enabled(k, st) && t in k.tasks
    ensures Balanced(k, st, t)
  {
    hide Held, HalfResumed, QueueOk;
    match st
    case TakeHead(_, _, _) => TakeBalance(k, st, t);
    case Peek(_, _) => TakeBalance(k, st, t);
    case TakePeeked(_, _) => TakeBalance(k, st, t);
    case MarkRunnable(_, _) => ResumeBalance(k, st, t);
    case Start(_, _) => ResumeBalance(k, st, t);
    case Enqueue(_, _) => ResumeBalance(k, st, t);
    case WaitOn(c, h) =>
      assert TaskOk(k, t) && CpuOk(k, c) && TaskOk(k, Current(k, c));
      SameHolds(k, Do(k, st));
    case _ => SameHolds(k, Do(k, st));
  }

  lemma HeadTaken(k: Kernel, w: Waker, h: Wqh, interrupt: bool) returns (k': Kernel)
    requires Inv(k) && Enabled(k, TakeHead(w, h, interrupt))
    ensures k' == Do(k, TakeHead(w, h, interrupt))
    ensures k.heads[h].list == [] ==> k' == k
    ensures k.heads[h].list != [] ==>
              var x := k.heads[h].list[0];
              x in k.tasks && TaskOk(k, x) && k.tasks[x].on == Some(h) && k' == TakenBy(k, w, h, x, interrupt)
  {
    k' := Do(k, TakeHead(w, h, interrupt));
    assert HeadOk(k, h);
    if k.heads[h].list != [] { assert TaskOk(k, k.heads[h].list[0]); }
  }

  lemma HoldingIsHeld(k: Kernel, w: Waker, t: Tid)
    requires w in k.wakers && k.wakers[w] == Holding(t)
    ensures Held(k, t)
  {
  }

  /** Over every run: sleeps = takes + (still queued), takes = marks + (held by a waker) and
      marks + starts = enqueues + (half resumed). So no sleep is ended twice, and none but the
      last is still pending. */
  lemma {:induction false} RunBalance(ks: seq<Kernel>, sts: seq<Step>, n: nat, t: Tid)
    requires Run(ks, sts) && n <= |sts| && t in ks[0].tasks
    ensures t in ks[n].tasks
    ensures Total(ks, sts, n, t).sleeps == Total(ks, sts, n, t).takes + Waits(ks[n], t)
    ensures Total(ks, sts, n, t).takes == Total(ks, sts, n, t).marks + One(Held(ks[n], t))
    ensures Total(ks, sts, n, t).marks + Total(ks, sts, n, t).starts == Total(ks, sts, n, t).enqueues + One(HalfResumed(ks[n], t))
  {
    hide Inv, Do;
    if n == 0 {
      assert !Held(ks[0], t) && !HalfResumed(ks[0], t);
    } else {
      RunBalance(ks, sts, n - 1, t);
      RunInv(ks, sts, n - 1);
      assert StepAt(ks, sts, n - 1);
      StepBalance(ks[n - 1], sts[n - 1], t);
    }
  }
}
