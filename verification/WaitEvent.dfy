/**
 WAIT_EVENT against a suspending target: a pager waits on the target's wqh_pager until the
 target is inactive, while the target first marks itself inactive and then wakes up one
 sleeper. All interleavings, with interrupts and restarts of the target.
 */
module WaitEvent {
  import opened Basics

  type Tid = nat

  /** What the target's own code is at: anything but suspending, between its mark and its
      wake-up, or with a sleeper off the queue that it has yet to resume. */
  datatype Work = Other | Waking | Resuming(waiter: Tid)

  /** A waiter: about to test the condition, asleep on the queue, off the queue but not
      resumed, through, or interrupted. */
  datatype Waiter = Testing | Asleep | Taken | Through | Interrupted

  /** `active` is false in state TASK_INACTIVE. Another cpu may start the target again at any
      time after its mark, before its wake-up included. */
  datatype State = State(active: bool, work: Work, waiters: map<Tid, Waiter>, queue: seq<Tid>)

  datatype Step = Test(w: Tid) | Mark | Wake | Resume | Interrupt(w: Tid) | Restart | Again(w: Tid)

  predicate Enabled(s: State, st: Step) {
    match st
    case Test(w) => w in s.waiters && s.waiters[w] == Testing
    case Mark => s.active && s.work == Other
    case Wake => s.work == Waking
    case Resume => s.work.Resuming?
    case Interrupt(w) => w in s.waiters && w in s.queue
    case Restart => !s.active
    case Again(w) => w in s.waiters && (s.waiters[w] == Through || s.waiters[w] == Interrupted)
  }

  function Do(s: State, st: Step): State
    requires Enabled(s, st)
  {
    match st
    case Test(w) =>
      if !s.active then s.(waiters := s.waiters[w := Through])
      else s.(waiters := s.waiters[w := Asleep], queue := s.queue + [w])
    case Mark => s.(active := false, work := Waking)
    case Wake =>
      if s.queue != [] && s.queue[0] in s.waiters then
        s.(work := Resuming(s.queue[0]), queue := s.queue[1..], waiters := s.waiters[s.queue[0] := Taken])
      else s.(work := Other)
    case Resume =>
      s.(work := Other, waiters := if s.work.waiter in s.waiters then s.waiters[s.work.waiter := Testing] else s.waiters)
    case Interrupt(w) => s.(waiters := s.waiters[w := Interrupted], queue := Remove(s.queue, w))
    case Restart => s.(active := true)
    case Again(w) => s.(waiters := s.waiters[w := Testing])
  }

  // ---------------------------------------------------------------------------
  // Runs
  // ---------------------------------------------------------------------------

  ghost predicate Inv(s: State) {
    && NoDup(s.queue)
    && (forall w :: w in s.queue <==> w in s.waiters && s.waiters[w] == Asleep)
    && (forall w :: w in s.waiters && s.waiters[w] == Taken <==> s.work == Resuming(w))
  }

  /** Only one task ever waits on this head. */
  ghost predicate OneWaiter(s: State) {
    forall w, x :: w in s.waiters && x in s.waiters ==> w == x
  }

  /** Nobody sleeps on an inactive target that is past its wake-up. */
  ghost predicate NobodyForgotten(s: State) {
    !s.active && s.work != Waking ==> s.queue == []
  }

  lemma StepInv(s: State, st: Step)
    requires Inv(s) && Enabled(s, st)
    ensures Inv(Do(s, st)) && Do(s, st).waiters.Keys == s.waiters.Keys
  {
    hide Remove, NoDup;
    match st
    case Test(w) => TestInv(s, w);
    case Wake => WakeInv(s);
    case Interrupt(w) => RemoveOne(s.queue, w);
    case _ =>
  }

  lemma TestInv(s: State, w: Tid)
    requires Inv(s) && Enabled(s, Test(w))
    ensures Inv(Do(s, Test(w)))
  {
    hide NoDup;
    AppendOne(s.queue, w);
  }

  lemma WakeInv(s: State)
    requires Inv(s) && Enabled(s, Wake)
    ensures Inv(Do(s, Wake)) && Do(s, Wake).waiters.Keys == s.waiters.Keys
  {
    hide NoDup;
    if s.queue != [] { TakeOne(s.queue); }
  }

  lemma AppendOne(q: seq<Tid>, w: Tid)
    requires NoDup(q) && w !in q
    ensures NoDup(q + [w])
  {
  }

  lemma TakeOne(q: seq<Tid>)
    requires NoDup(q) && q != []
    ensures NoDup(q[1..]) && forall x :: x in q <==> x in q[1..] || x == q[0]
    ensures q[0] !in q[1..]
  {
    assert q == [q[0]] + q[1..];
  }

  lemma RemoveOne(q: seq<Tid>, w: Tid)
    requires NoDup(q)
    ensures NoDup(Remove(q, w)) && forall x :: x in Remove(q, w) <==> x in q && x != w
  {
  }

  ghost predicate StepAt(ss: seq<State>, sts: seq<Step>, i: nat)
    requires i < |sts| && |ss| == |sts| + 1
  {
    Enabled(ss[i], sts[i]) && ss[i + 1] == Do(ss[i], sts[i])
  }

  ghost predicate Run(ss: seq<State>, sts: seq<Step>) {
    && |ss| == |sts| + 1 && ss[0].active && ss[0].work == Other && ss[0].queue == []
    && (forall w :: w in ss[0].waiters ==> ss[0].waiters[w] == Testing)
    && forall i {:trigger StepAt(ss, sts, i)} :: 0 <= i < |sts| ==> StepAt(ss, sts, i)
  }

  /** With one waiter, no interleaving loses the wake-up: once the target is inactive and
      through with its steps, the waiter is not asleep. */
  lemma {:induction false} NoLostWakeup(ss: seq<State>, sts: seq<Step>, n: nat)
    requires Run(ss, sts) && n < |ss| && OneWaiter(ss[0])
    ensures Inv(ss[n]) && ss[n].waiters.Keys == ss[0].waiters.Keys && NobodyForgotten(ss[n])
  {
    if n > 0 {
      NoLostWakeup(ss, sts, n - 1);
      assert StepAt(ss, sts, n - 1);
      StepInv(ss[n - 1], sts[n - 1]);
      if sts[n - 1] == Wake { AtMostOne(ss[n - 1]); }
    }
  }

  lemma AtMostOne(s: State)
    requires Inv(s) && OneWaiter(s)
    ensures |s.queue| <= 1
  {
    if |s.queue| >= 2 {
      TwoWait(s);
      assert false;
    }
  }

  lemma TwoWait(s: State)
    requires Inv(s) && |s.queue| >= 2
    ensures s.queue[0] in s.waiters && s.queue[1] in s.waiters && s.queue[0] != s.queue[1]
  {
    assert s.queue[0] in s.queue && s.queue[1] in s.queue;
  }

  /** One wake-up serves one sleeper: unless the target was started again it leaves nobody behind
      just if no two wait. */
  lemma WakeServesOne(s: State)
    requires Inv(s) && Enabled(s, Wake)
    ensures NobodyForgotten(Do(s, Wake)) <==> s.active || |s.queue| <= 1
  {
    if s.queue != [] { assert s.queue[0] in s.queue; }
  }

  /** The waiter that was woken up finds the target inactive and gets through. */
  lemma WokenGetsThrough(s: State, w: Tid)
    requires w in s.waiters && s.waiters[w] == Testing && !s.active
    ensures Enabled(s, Test(w)) && Do(s, Test(w)).waiters[w] == Through && Do(s, Test(w)).queue == s.queue
  {
  }
}
