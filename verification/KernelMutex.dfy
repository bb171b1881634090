/**
 The kernel's own mutexes (src/lib/mutex.c) as a state machine over their locked
 sections. A sleeper that an unlock took off the queue retries; one that a signal took
 off gives up.
 */
module KernelMutex {
  import opened Basics

  type Tid = nat
  type Id = nat

  /** A mutex: the lock word and its waitqueue. `owners` is history: the tasks between a
      successful lock and their unlock. `retrying` are the tasks an unlock took off the
      queue and that have not tried again yet. */
  datatype Mutex = Mutex(locked: bool, queue: seq<Tid>, sleepers: int, owners: set<Tid>, retrying: set<Tid>)

  datatype State = State(mutexes: map<Id, Mutex>, nlocks: map<Tid, int>)

  datatype Step =
    | TryLock(m: Id, t: Tid)
    | Attempt(m: Id, t: Tid)
    | Unlock(m: Id, t: Tid)
    | Interrupt(m: Id, t: Tid)

  /** A task that sleeps on this mutex runs no code. Only an owner may unlock. */
  predicate Enabled(s: State, st: Step) {
    && st.m in s.mutexes && st.t in s.nlocks
    && match st
       case TryLock(m, t) => t !in s.mutexes[m].queue && t !in s.mutexes[m].retrying && t !in s.mutexes[m].owners
       case Attempt(m, t) => t !in s.mutexes[m].queue && t !in s.mutexes[m].owners
       case Unlock(m, t) => t in s.mutexes[m].owners
       case Interrupt(m, t) => t in s.mutexes[m].queue
  }

  /** The lock word taken by t. */
  function Taken(x: Mutex, t: Tid): Mutex {
    x.(locked := true, owners := x.owners + {t}, retrying := x.retrying - {t})
  }

  /** mutex_lock's locked section: the lock, or a place in the queue. */
  function Attempted(x: Mutex, t: Tid): Mutex {
    if x.locked then x.(queue := x.queue + [t], sleepers := x.sleepers + 1, retrying := x.retrying - {t}) else Taken(x, t)
  }

  /** mutex_unlock_common: frees the lock word and takes the first sleeper off the queue. */
  function Unlocked(x: Mutex, t: Tid): Mutex {
    var y := x.(locked := false, owners := x.owners - {t});
    if x.sleepers > 0 && x.queue != [] then y.(queue := x.queue[1..], sleepers := x.sleepers - 1, retrying := x.retrying + {x.queue[0]})
    else y
  }

  function Interrupted(x: Mutex, t: Tid): Mutex {
    x.(queue := Remove(x.queue, t), sleepers := x.sleepers - 1)
  }

  /** The mutex that a step leaves, and by how much it changes the task's nlocks. */
  function Result(x: Mutex, st: Step): (Mutex, int) {
    match st
    case TryLock(_, t) => if x.locked then (x, 0) else (Taken(x, t), 1)
    case Attempt(_, t) => (Attempted(x, t), if x.locked then 0 else 1)
    case Unlock(_, t) => (Unlocked(x, t), -1)
    case Interrupt(_, t) => (Interrupted(x, t), 0)
  }

  function Do(s: State, st: Step): State
    requires Enabled(s, st)
  {
    var r := Result(s.mutexes[st.m], st);
    State(s.mutexes[st.m := r.0], s.nlocks[st.t := s.nlocks[st.t] + r.1])
  }

  // ---------------------------------------------------------------------------
  // The invariant
  // ---------------------------------------------------------------------------

  /** One owner at most, known by the lock word; and a queue is never left without
      somebody who will wake it: an owner to come by unlock, or a task about to retry. */
  ghost predicate MutexOk(x: Mutex) {
    && NoDup(x.queue) && x.sleepers == |x.queue|
    && (x.locked <==> x.owners != {}) && |x.owners| <= 1
    && (forall t :: t in x.queue ==> t !in x.owners && t !in x.retrying)
    && x.owners !! x.retrying
    && (x.queue != [] ==> x.locked || x.retrying != {})
  }

  /** The mutexes that t owns. */
  function Owned(s: State, t: Tid): set<Id> {
    set m | m in s.mutexes && t in s.mutexes[m].owners
  }

  ghost predicate Inv(s: State) {
    && (forall m :: m in s.mutexes ==> MutexOk(s.mutexes[m]))
    && (forall t :: t in s.nlocks ==> s.nlocks[t] == |Owned(s, t)|)
  }

  lemma NoOwner(x: set<Tid>, t: Tid)
    requires |x| <= 1 && t in x
    ensures x == {t} && x - {t} == {}
  {
    assert |x - {t}| == |x| - 1;
  }

  lemma TakenOk(x: Mutex, t: Tid)
    requires MutexOk(x) && !x.locked && t !in x.queue
    ensures MutexOk(Taken(x, t))
  {
    assert x.owners + {t} == {t};
  }

  lemma AttemptedOk(x: Mutex, t: Tid)
    requires MutexOk(x) && t !in x.queue && t !in x.owners
    ensures MutexOk(Attempted(x, t))
  {
    if !x.locked { TakenOk(x, t); }
  }

  lemma UnlockedOk(x: Mutex, t: Tid)
    requires MutexOk(x) && t in x.owners
    ensures MutexOk(Unlocked(x, t))
  {
    NoOwner(x.owners, t);
    if x.queue != [] {
      assert x.queue[0] in x.queue;
      assert forall u :: u in x.queue[1..] ==> u in x.queue && u != x.queue[0];
      assert x.queue[0] in x.retrying + {x.queue[0]};
    }
  }

  lemma ResultOk(x: Mutex, st: Step)
    requires MutexOk(x)
    requires match st
             case TryLock(_, t) => t !in x.queue && t !in x.retrying && t !in x.owners
             case Attempt(_, t) => t !in x.queue && t !in x.owners
             case Unlock(_, t) => t in x.owners
             case Interrupt(_, t) => t in x.queue
    ensures MutexOk(Result(x, st).0)
    ensures Result(x, st).1 == 1 ==> st.t !in x.owners && Result(x, st).0.owners == x.owners + {st.t}
    ensures Result(x, st).1 == -1 ==> st.t in x.owners && Result(x, st).0.owners == x.owners - {st.t}
    ensures Result(x, st).1 == 0 ==> Result(x, st).0.owners == x.owners
  {
    match st
    case TryLock(_, t) => if !x.locked { TakenOk(x, t); }
    case Attempt(_, t) => AttemptedOk(x, t);
    case Unlock(_, t) => UnlockedOk(x, t);
    case Interrupt(_, t) =>
  }

  /** nlocks changes by one for the task whose set of mutexes does. */
  lemma OwnedChanges(s: State, s': State, m: Id, t: Tid, gain: bool)
    requires m in s.mutexes && s'.mutexes.Keys == s.mutexes.Keys && (forall n :: n in s.mutexes && n != m ==> s'.mutexes[n] == s.mutexes[n])
    requires if gain then t !in s.mutexes[m].owners && s'.mutexes[m].owners == s.mutexes[m].owners + {t}
             else t in s.mutexes[m].owners && s'.mutexes[m].owners == s.mutexes[m].owners - {t}
    ensures |Owned(s', t)| == |Owned(s, t)| + (if gain then 1 else -1)
    ensures forall u :: u != t ==> Owned(s', u) == Owned(s, u)
  {
    if gain {
      assert Owned(s', t) == Owned(s, t) + {m} && m !in Owned(s, t);
    } else {
      assert Owned(s, t) == Owned(s', t) + {m} && m !in Owned(s', t);
    }
  }

  lemma OwnedSame(s: State, s': State)
    requires s'.mutexes.Keys == s.mutexes.Keys && forall m :: m in s.mutexes ==> s'.mutexes[m].owners == s.mutexes[m].owners
    ensures forall t :: Owned(s', t) == Owned(s, t)
  {
  }

  lemma StepInv(s: State, st: Step)
    requires Inv(s) && Enabled(s, st)
    ensures Inv(Do(s, st))
  {
    hide MutexOk, Result, Owned;
    var s' := Do(s, st);
    ResultOk(s.mutexes[st.m], st);
    var change := Result(s.mutexes[st.m], st).1;
    ChangeValues(s.mutexes[st.m], st);
    if change == 0 { OwnedSame(s, s'); } else { OwnedChanges(s, s', st.m, st.t, change == 1); }
  }

  lemma ChangeValues(x: Mutex, st: Step)
    ensures Result(x, st).1 in {-1, 0, 1}
  {
  }

  /** mutex_unlock's checks: an owner has a lock to give up, and sleepers is a count. */
  lemma UnlockChecks(s: State, m: Id, t: Tid)
    requires Inv(s) && Enabled(s, Unlock(m, t))
    ensures s.nlocks[t] >= 1 && s.mutexes[m].sleepers >= 0
    ensures s.mutexes[m].sleepers > 0 ==> s.mutexes[m].queue != []
  {
    assert MutexOk(s.mutexes[m]);
    assert m in Owned(s, t);
    assert |Owned(s, t)| == |Owned(s, t) - {m}| + 1;
  }

  // ---------------------------------------------------------------------------
  // Runs
  // ---------------------------------------------------------------------------

  ghost predicate Init(s: State) {
    && (forall m :: m in s.mutexes ==> s.mutexes[m] == Mutex(false, [], 0, {}, {}))
    && (forall t :: t in s.nlocks ==> s.nlocks[t] == 0)
  }

  ghost predicate StepAt(ss: seq<State>, sts: seq<Step>, i: nat)
    requires i < |sts| && |ss| == |sts| + 1
  {
    Enabled(ss[i], sts[i]) && ss[i + 1] == Do(ss[i], sts[i])
  }

  ghost predicate Run(ss: seq<State>, sts: seq<Step>) {
    && |ss| == |sts| + 1 && Init(ss[0])
    && forall i {:trigger StepAt(ss, sts, i)} :: 0 <= i < |sts| ==> StepAt(ss, sts, i)
  }

  lemma {:induction false} RunInv(ss: seq<State>, sts: seq<Step>, n: nat)
    requires Run(ss, sts) && n < |ss|
    ensures Inv(ss[n])
  {
    hide Do, Enabled;
    if n == 0 {
      forall t | t in ss[0].nlocks ensures ss[0].nlocks[t] == |Owned(ss[0], t)| { assert Owned(ss[0], t) == {}; }
    } else {
      RunInv(ss, sts, n - 1);
      assert StepAt(ss, sts, n - 1);
      StepInv(ss[n - 1], sts[n - 1]);
    }
  }

  /** In every run a mutex has one owner at most, and whoever sleeps on it sleeps behind an
      owner or behind a woken task that has yet to retry. */
  lemma ExclusionAndWakeup(ss: seq<State>, sts: seq<Step>, n: nat, m: Id, t: Tid)
    requires Run(ss, sts) && n < |ss| && m in ss[n].mutexes
    ensures forall u, v :: u in ss[n].mutexes[m].owners && v in ss[n].mutexes[m].owners ==> u == v
    ensures t in ss[n].mutexes[m].queue ==>
              (exists u :: u in ss[n].mutexes[m].owners && u != t) || (exists u :: u in ss[n].mutexes[m].retrying && u != t)
  {
    RunInv(ss, sts, n);
    var x := ss[n].mutexes[m];
    assert MutexOk(x);
    forall u, v | u in x.owners && v in x.owners ensures u == v { NoOwner(x.owners, u); }
    if t in x.queue {
      if x.locked { var u :| u in x.owners; } else { var u :| u in x.retrying; }
    }
  }

  /** Between a lock by t and the next unlock by t, nobody else gets the mutex. */
  lemma {:induction false} HoldsUntilUnlock(ss: seq<State>, sts: seq<Step>, i: nat, j: nat, m: Id, t: Tid)
    requires Run(ss, sts) && i <= j < |ss| && m in ss[i].mutexes && t in ss[i].mutexes[m].owners
    requires forall k :: i <= k < j ==> sts[k] != Unlock(m, t)
    ensures m in ss[j].mutexes && ss[j].mutexes[m].owners == {t}
    decreases j
  {
    RunInv(ss, sts, j);
    if i == j {
      NoOwner(ss[i].mutexes[m].owners, t);
    } else {
      HoldsUntilUnlock(ss, sts, i, j - 1, m, t);
      RunInv(ss, sts, j - 1);
      assert StepAt(ss, sts, j - 1);
      assert MutexOk(ss[j - 1].mutexes[m]) && MutexOk(ss[j].mutexes[m]);
    }
  }

  // ---------------------------------------------------------------------------
  // The calls as they run
  // ---------------------------------------------------------------------------

  class MutexObject {
    var locked: bool
    var queue: seq<Tid>
    var sleepers: int
    ghost var owners: set<Tid>
    ghost var retrying: set<Tid>

    ghost function Now(): Mutex
      reads this
    {
      Mutex(locked, queue, sleepers, owners, retrying)
    }

    constructor ()
      ensures Now() == Mutex(false, [], 0, {}, {}) && MutexOk(Now())
    {
      locked, queue, sleepers, owners, retrying := false, [], 0, {}, {};
    }

    /** One round of mutex_lock; without success the caller is in the queue. A task that owns the
        mutex queues up behind itself, and only that breaks the invariant. */
    method LockRound(t: Tid) returns (success: bool)
      requires MutexOk(Now()) && t !in queue
      modifies this
      ensures Now() == Attempted(old(Now()), t) && (MutexOk(Now()) <==> t !in old(owners))
      ensures (success <==> old(owners) == {}) && (success ==> owners == {t}) && (!success <==> t in queue)
    {
      if t !in owners { AttemptedOk(Now(), t); }
      success := !locked;
      if success {
        locked := true;
        owners := owners + {t};
      } else {
        queue := queue + [t];
        sleepers := sleepers + 1;
      }
      retrying := retrying - {t};
    }

    /** mutex_unlock_common: the sleeper it takes off the queue, if any, is to be resumed. */
    method Release(t: Tid) returns (woken: seq<Tid>)
      requires MutexOk(Now()) && t in owners
      modifies this
      ensures Now() == Unlocked(old(Now()), t) && MutexOk(Now()) && owners == {}
      ensures woken == if old(queue) == [] then [] else [old(queue)[0]]
    {
      UnlockedOk(Now(), t);
      NoOwner(owners, t);
      locked := false;
      owners := owners - {t};
      assert sleepers >= 0;
      woken := [];
      if sleepers > 0 {
        assert queue != [];
        woken := [queue[0]];
        retrying := retrying + {queue[0]};
        queue := queue[1..];
        sleepers := sleepers - 1;
      }
    }
  }
}
