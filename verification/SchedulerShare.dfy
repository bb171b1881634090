/**
 Shares and progress of one cpu whose set of runnable tasks stays the same: nobody
 sleeps, wakes or exits, but the current task may be preempted or yield at any time.
 */
module SchedulerShare {

  type Tid = nat

  // ---------------------------------------------------------------------------
  // Slices
  // ---------------------------------------------------------------------------

  /** sched_recalc_ticks: CONFIG_SCHED_TICKS shared out by priority. */
  function Recalc(ticks: nat, prio: nat, total: nat): nat
    requires total > 0
  {
    ticks * prio / total
  }

  /** With the priority sum that the code checks for, a slice is at most CONFIG_SCHED_TICKS,
      and it is empty exactly if the share is below one tick. */
  lemma RecalcBound(ticks: nat, prio: nat, total: nat)
    requires total > 0 && prio <= total
    ensures Recalc(ticks, prio, total) <= ticks
    ensures Recalc(ticks, prio, total) == 0 <==> ticks * prio < total
  {
    MulMono(ticks, prio, total);
    DivMono(ticks * prio, ticks, total);
  }

  lemma MulMono(a: nat, b: nat, c: nat)
    requires b <= c
    ensures a * b <= a * c
  {
  }

  lemma DivMono(n: nat, a: nat, d: nat)
    requires d > 0 && n <= a * d
    ensures n / d <= a
  {
    if n / d > a {
      MulMono(d, a + 1, n / d);
    }
  }

  /** CONFIG_SCHED_TICKS, the priority of every task, and prio_total. */
  datatype Config = Config(ticks: nat, prio: map<Tid, nat>, total: nat)

  /** The two BUG_ON conditions of sched_recalc_ticks, and a share of one tick or more each. */
  ghost predicate ConfigOk(cfg: Config) {
    cfg.prio.Keys != {} && cfg.total > 0 && forall t :: t in cfg.prio ==> cfg.prio[t] <= cfg.total <= cfg.ticks * cfg.prio[t]
  }

  function Slice(cfg: Config, t: Tid): nat
    requires t in cfg.prio
  {
    if cfg.total > 0 then Recalc(cfg.ticks, cfg.prio[t], cfg.total) else 0
  }

  lemma SliceBounds(cfg: Config, t: Tid)
    requires ConfigOk(cfg) && t in cfg.prio
    ensures 1 <= Slice(cfg, t) <= cfg.ticks
  {
    RecalcBound(cfg.ticks, cfg.prio[t], cfg.total);
  }

  /** The priorities of the code with TASK_PRIO_TOTAL and the default CONFIG_SCHED_TICKS. */
  lemma DefaultsOk(prio: map<Tid, nat>)
    requires prio.Keys != {} && forall t :: t in prio ==> prio[t] in {10, 8, 6, 4, 2}
    ensures ConfigOk(Config(1000, prio, 30))
  {
  }

  // ---------------------------------------------------------------------------
  // Steps
  // ---------------------------------------------------------------------------

  /** Both runqueues, ticks_left and sched_granule; `used` is history: the ticks that
      each task was charged since the last swap of the queues. */
  datatype State = State(current: Tid, runnable: seq<Tid>, expired: seq<Tid>, left: map<Tid, nat>, granule: int, used: map<Tid, nat>)

  datatype Step = Tick | Schedule

  /** update_process_times: a tick that finds no ticks left is ignored. */
  function Ticked(s: State): State {
    var t := s.current;
    if t in s.left && t in s.used && s.left[t] > 0 then
      s.(left := s.left[t := s.left[t] - 1], used := s.used[t := s.used[t] + 1], granule := s.granule - 1)
    else s
  }

  /** The current task leaves the queue and goes behind its peers, or expires. */
  function PutBack(s: State): State
    requires s.runnable != []
  {
    var t := s.current;
    if t in s.left && s.left[t] > 0 then s.(runnable := s.runnable[1..] + [t])
    else s.(runnable := s.runnable[1..], expired := s.expired + [t])
  }

  /** Selection swaps the queues when nobody is left to run. */
  predicate Swaps(s: State)
    requires s.runnable != []
  {
    PutBack(s).runnable == []
  }

  function Swapped(b: State): State {
    if b.runnable == [] then b.(runnable := b.expired, expired := [], used := map t | t in b.used :: 0) else b
  }

  /** Selects the head and gives a task without ticks its slice. */
  function Selected(cfg: Config, q: State): State {
    if q.runnable == [] || q.runnable[0] !in q.left || q.runnable[0] !in cfg.prio then q
    else
      var next := q.runnable[0];
      q.(current := next, granule := cfg.ticks / 10, left := if q.left[next] == 0 then q.left[next := Slice(cfg, next)] else q.left)
  }

  function Do(cfg: Config, s: State, st: Step): State
    requires s.runnable != []
  {
    if st == Tick then Ticked(s) else Selected(cfg, Swapped(PutBack(s)))
  }

  // ---------------------------------------------------------------------------
  // The invariant
  // ---------------------------------------------------------------------------

  function Members(s: State): multiset<Tid> {
    multiset(s.runnable) + multiset(s.expired)
  }

  /** A task that waits for its turn in this round: untouched, or with its slice split
      into what it used and what it has left. */
  predicate Waiting(cfg: Config, s: State, t: Tid) {
    && t in cfg.prio && t in s.left && t in s.used
    && if s.left[t] == 0 then s.used[t] == 0 else s.left[t] + s.used[t] == Slice(cfg, t)
  }

  predicate Done(cfg: Config, s: State, t: Tid) {
    t in cfg.prio && t in s.left && t in s.used && s.left[t] == 0 && s.used[t] == Slice(cfg, t)
  }

  ghost predicate Queues(cfg: Config, s: State, head: seq<Tid>, rest: seq<Tid>) {
    && Members(s) == multiset(cfg.prio.Keys) && s.runnable == head + rest
    && (forall t :: t in rest ==> Waiting(cfg, s, t))
    && (forall t :: t in s.expired ==> Done(cfg, s, t))
  }

  ghost predicate Inv(cfg: Config, s: State) {
    && ConfigOk(cfg) && s.runnable != [] && s.runnable[0] == s.current
    && Queues(cfg, s, [s.current], s.runnable[1..])
    && s.current in s.left && s.current in s.used && s.current in cfg.prio && s.left[s.current] + s.used[s.current] == Slice(cfg, s.current)
  }

  /** Every task is in one of the queues, and only once. */
  lemma OnceEach(cfg: Config, s: State, rest: seq<Tid>)
    requires s.runnable != [] && Queues(cfg, s, [s.runnable[0]], rest)
    ensures s.runnable[0] in cfg.prio && s.runnable[0] !in rest && s.runnable[0] !in s.expired
  {
    var t := s.runnable[0];
    assert multiset(s.runnable) == multiset{t} + multiset(rest);
    assert Members(s)[t] == 1 + multiset(rest)[t] + multiset(s.expired)[t];
    assert multiset(cfg.prio.Keys)[t] <= 1;
  }

  lemma Somewhere(cfg: Config, s: State, t: Tid)
    requires Members(s) == multiset(cfg.prio.Keys) && t in cfg.prio
    ensures t in s.runnable || t in s.expired
  {
    assert multiset(cfg.prio.Keys)[t] == 1;
    assert Members(s)[t] == multiset(s.runnable)[t] + multiset(s.expired)[t];
  }

  lemma TickInv(cfg: Config, s: State)
    requires Inv(cfg, s)
    ensures Inv(cfg, Ticked(s))
  {
    OnceEach(cfg, s, s.runnable[1..]);
  }

  lemma PutBackFacts(cfg: Config, s: State)
    requires Inv(cfg, s)
    ensures Queues(cfg, PutBack(s), [], PutBack(s).runnable)
  {
    var b, t, r := PutBack(s), s.current, s.runnable[1..];
    assert s.runnable == [t] + r;
    OnceEach(cfg, s, r);
    PutBackMembers(s, t, r);
    forall x | x in b.runnable ensures Waiting(cfg, b, x) { assert x in r || x == t; }
    forall x | x in b.expired ensures Done(cfg, b, x) { assert x in s.expired || x == t; }
  }

  lemma PutBackMembers(s: State, t: Tid, r: seq<Tid>)
    requires s.runnable == [t] + r && s.current == t
    ensures Members(PutBack(s)) == Members(s)
  {
    assert s.runnable[1..] == r;
    assert multiset(s.runnable) == multiset{t} + multiset(r);
    assert multiset(r + [t]) == multiset(r) + multiset{t};
    assert multiset(s.expired + [t]) == multiset(s.expired) + multiset{t};
  }

  lemma SwappedFacts(cfg: Config, b: State)
    requires ConfigOk(cfg) && Queues(cfg, b, [], b.runnable)
    ensures var q := Swapped(b); q.runnable != [] && Queues(cfg, q, [], q.runnable)
  {
    var t :| t in cfg.prio;
    Somewhere(cfg, b, t);
  }

  lemma SelectedInv(cfg: Config, q: State)
    requires ConfigOk(cfg) && q.runnable != [] && Queues(cfg, q, [], q.runnable)
    ensures Inv(cfg, Selected(cfg, q))
  {
    var next, r := q.runnable[0], q.runnable[1..];
    assert q.runnable == [next] + r;
    assert Waiting(cfg, q, next);
    OnceEach(cfg, q, r);
  }

  lemma StepInv(cfg: Config, s: State, st: Step)
    requires Inv(cfg, s)
    ensures Inv(cfg, Do(cfg, s, st))
  {
    hide Inv;
    if st == Tick {
      TickInv(cfg, s);
    } else {
      ScheduleInv(cfg, s);
    }
  }

  lemma ScheduleInv(cfg: Config, s: State)
    requires Inv(cfg, s)
    ensures Inv(cfg, Selected(cfg, Swapped(PutBack(s))))
  {
    hide Queues, PutBack, Swapped, Selected;
    PutBackFacts(cfg, s);
    SwappedFacts(cfg, PutBack(s));
    SelectedInv(cfg, Swapped(PutBack(s)));
  }

  /** schedule() never finds more ticks than CONFIG_SCHED_TICKS. */
  lemma TicksBounded(cfg: Config, s: State)
    requires Inv(cfg, s)
    ensures s.left[s.current] <= cfg.ticks
  {
    SliceBounds(cfg, s.current);
  }

  /** Every task queued with no ticks yet, and the first one selected. */
  function Start(cfg: Config, ids: seq<Tid>): State
    requires ids != []
  {
    Selected(cfg, State(ids[0], ids, [], map t | t in cfg.prio :: 0, 0, map t | t in cfg.prio :: 0))
  }

  lemma StartInv(cfg: Config, ids: seq<Tid>)
    requires ConfigOk(cfg) && ids != [] && multiset(ids) == multiset(cfg.prio.Keys)
    ensures Inv(cfg, Start(cfg, ids))
  {
    var q := State(ids[0], ids, [], map t | t in cfg.prio :: 0, 0, map t | t in cfg.prio :: 0);
    assert ids == [] + ids;
    forall t | t in ids ensures Waiting(cfg, q, t) { assert t in multiset(ids); }
    SelectedInv(cfg, q);
  }

  // ---------------------------------------------------------------------------
  // Shares
  // ---------------------------------------------------------------------------

  /** When the queues are swapped, every task was charged exactly its slice. */
  lemma ShareAtSwap(cfg: Config, s: State, t: Tid)
    requires Inv(cfg, s) && Swaps(s) && t in cfg.prio
    ensures t in s.used && s.used[t] == Slice(cfg, t)
  {
    PutBackFacts(cfg, s);
    Somewhere(cfg, PutBack(s), t);
  }

  ghost predicate StepAt(cfg: Config, ss: seq<State>, sts: seq<Step>, i: nat)
    requires i < |sts| && |ss| == |sts| + 1
  {
    ss[i].runnable != [] && ss[i + 1] == Do(cfg, ss[i], sts[i])
  }

  ghost predicate Run(cfg: Config, ss: seq<State>, sts: seq<Step>) {
    && |ss| == |sts| + 1 && Inv(cfg, ss[0])
    && forall i {:trigger StepAt(cfg, ss, sts, i)} :: 0 <= i < |sts| ==> StepAt(cfg, ss, sts, i)
  }

  lemma {:induction false} RunInv(cfg: Config, ss: seq<State>, sts: seq<Step>, n: nat)
    requires Run(cfg, ss, sts) && n < |ss|
    ensures Inv(cfg, ss[n])
  {
    if n > 0 {
      RunInv(cfg, ss, sts, n - 1);
      assert StepAt(cfg, ss, sts, n - 1);
      StepInv(cfg, ss[n - 1], sts[n - 1]);
    }
  }

  ghost predicate SwapAt(ss: seq<State>, sts: seq<Step>, i: nat)
    requires i < |sts| && |ss| == |sts| + 1
  {
    sts[i] == Schedule && ss[i].runnable != [] && Swaps(ss[i])
  }

  /** The ticks charged to t by the steps from..upto. */
  ghost function Charged(ss: seq<State>, sts: seq<Step>, from: nat, upto: nat, t: Tid): nat
    requires from <= upto <= |sts| && |ss| == |sts| + 1
    decreases upto
  {
    if upto == from then 0
    else
      Charged(ss, sts, from, upto - 1, t)
      + if sts[upto - 1] == Tick && ss[upto - 1].current == t && t in ss[upto - 1].left && ss[upto - 1].left[t] > 0 then 1 else 0
  }

  lemma UsedStep(cfg: Config, s: State, st: Step, t: Tid)
    requires Inv(cfg, s) && t in cfg.prio
    ensures t in s.used && t in s.left && t in Do(cfg, s, st).used
    ensures st == Tick && s.current == t && s.left[t] > 0 ==> Do(cfg, s, st).used[t] == s.used[t] + 1
    ensures st == Tick && !(s.current == t && s.left[t] > 0) ==> Do(cfg, s, st).used[t] == s.used[t]
    ensures st == Schedule ==> Do(cfg, s, st).used[t] == if Swaps(s) then 0 else s.used[t]
  {
    Somewhere(cfg, s, t);
    assert s.runnable == [s.current] + s.runnable[1..];
  }

  lemma {:induction false} UsedIsCharged(cfg: Config, ss: seq<State>, sts: seq<Step>, i: nat, j: nat, t: Tid)
    requires Run(cfg, ss, sts) && i < j <= |sts| && SwapAt(ss, sts, i) && t in cfg.prio
    requires forall m :: i < m < j ==> !SwapAt(ss, sts, m)
    ensures t in ss[j].used && ss[j].used[t] == Charged(ss, sts, i + 1, j, t)
    decreases j
  {
    hide Swaps, Do, Inv;
    RunInv(cfg, ss, sts, j - 1);
    assert StepAt(cfg, ss, sts, j - 1);
    UsedStep(cfg, ss[j - 1], sts[j - 1], t);
    if j - 1 > i {
      UsedIsCharged(cfg, ss, sts, i, j - 1, t);
      assert !SwapAt(ss, sts, j - 1);
    }
  }

  /** Between two consecutive swaps every task is charged exactly CONFIG_SCHED_TICKS * priority /
      prio_total, however often it is preempted or yields. */
  lemma ShareBetweenSwaps(cfg: Config, ss: seq<State>, sts: seq<Step>, i: nat, j: nat, t: Tid)
    requires Run(cfg, ss, sts) && i < j < |sts| && SwapAt(ss, sts, i) && SwapAt(ss, sts, j) && t in cfg.prio
    requires forall m :: i < m < j ==> !SwapAt(ss, sts, m)
    ensures cfg.total > 0 && Charged(ss, sts, i + 1, j, t) == cfg.ticks * cfg.prio[t] / cfg.total
  {
    RunInv(cfg, ss, sts, j);
    UsedIsCharged(cfg, ss, sts, i, j, t);
    ShareAtSwap(cfg, ss[j], t);
  }

  // ---------------------------------------------------------------------------
  // Progress
  // ---------------------------------------------------------------------------

  /** The ticks that u can take before its slice ends. */
  function Remaining(cfg: Config, s: State, u: Tid): nat {
    if u !in s.left || u !in cfg.prio then 0
    else if u == s.current || s.left[u] > 0 then s.left[u]
    else Slice(cfg, u)
  }

  function RemainingSum(cfg: Config, s: State, q: seq<Tid>): nat {
    if q == [] then 0 else Remaining(cfg, s, q[0]) + RemainingSum(cfg, s, q[1..])
  }

  function SliceSum(cfg: Config, q: seq<Tid>): nat {
    if q == [] then 0 else (if q[0] in cfg.prio then Slice(cfg, q[0]) else 0) + SliceSum(cfg, q[1..])
  }

  /** Those queued before t. */
  function Before(q: seq<Tid>, t: Tid): seq<Tid> {
    if q == [] || q[0] == t then [] else [q[0]] + Before(q[1..], t)
  }

  /** The ticks that t can still have to wait. On the runnable queue those before it may use
      what they have left. On the expired queue the whole runnable queue must expire first,
      and then those before t have a slice each: a swap keeps the order of expiry. */
  function Wait(cfg: Config, s: State, t: Tid): nat {
    if t in s.runnable then RemainingSum(cfg, s, Before(s.runnable, t))
    else RemainingSum(cfg, s, s.runnable) + SliceSum(cfg, Before(s.expired, t))
  }

  lemma {:induction false} BeforeFacts(q: seq<Tid>, t: Tid)
    ensures forall u :: u in Before(q, t) ==> u in q && u != t
    ensures t !in q ==> Before(q, t) == q
    ensures Before(q, t) <= q
  {
    if q != [] && q[0] != t { BeforeFacts(q[1..], t); }
  }

  lemma {:induction false} BeforeAppended(q: seq<Tid>, r: seq<Tid>, t: Tid)
    requires t in q
    ensures Before(q + r, t) == Before(q, t)
  {
    assert (q + r)[0] == q[0] && (q + r)[1..] == q[1..] + r;
    if q[0] != t { BeforeAppended(q[1..], r, t); }
  }

  lemma {:induction false} SumKept(cfg: Config, s: State, s': State, q: seq<Tid>)
    requires forall u :: u in q ==> Remaining(cfg, s', u) == Remaining(cfg, s, u)
    ensures RemainingSum(cfg, s', q) == RemainingSum(cfg, s, q)
  {
    hide Remaining;
    if q != [] { SumKept(cfg, s, s', q[1..]); }
  }

  lemma {:induction false} SumAppended(cfg: Config, s: State, q: seq<Tid>, t: Tid)
    ensures RemainingSum(cfg, s, q + [t]) == RemainingSum(cfg, s, q) + Remaining(cfg, s, t)
  {
    hide Remaining;
    if q == [] {
      assert q + [t] == [t];
    } else {
      assert (q + [t])[0] == q[0] && (q + [t])[1..] == q[1..] + [t];
      SumAppended(cfg, s, q[1..], t);
    }
  }

  /** Tasks without ticks have their whole slice before them. */
  lemma {:induction false} FreshSum(cfg: Config, s: State, q: seq<Tid>)
    requires forall u :: u in q ==> Remaining(cfg, s, u) == if u in cfg.prio then Slice(cfg, u) else 0
    ensures RemainingSum(cfg, s, q) == SliceSum(cfg, q)
  {
    hide Remaining, Slice;
    if q != [] { FreshSum(cfg, s, q[1..]); }
  }

  /** A tick of the current task brings every other task one tick closer to its turn. */
  lemma TickWait(cfg: Config, s: State, t: Tid)
    requires Inv(cfg, s) && t in cfg.prio && s.current != t && s.left[s.current] > 0
    ensures Wait(cfg, Ticked(s), t) == Wait(cfg, s, t) - 1
  {
    hide Slice;
    var s', c, r := Ticked(s), s.current, s.runnable[1..];
    assert s.runnable == [c] + r;
    OnceEach(cfg, s, r);
    var q := if t in s.runnable then Before(s.runnable, t) else s.runnable;
    BeforeFacts(r, t);
    assert q[0] == c && (t in s.runnable ==> q[1..] == Before(r, t));
    forall u | u in q[1..] ensures Remaining(cfg, s', u) == Remaining(cfg, s, u) {}
    SumKept(cfg, s, s', q[1..]);
  }

  /** What is left to everybody does not depend on who is current once the current task is
      put back. */
  lemma SelectedRemaining(cfg: Config, q: State, u: Tid)
    requires ConfigOk(cfg) && q.runnable != [] && Queues(cfg, q, [], q.runnable) && u in q.left && u in cfg.prio
    ensures Remaining(cfg, Selected(cfg, q), u) == if q.left[u] > 0 then q.left[u] else Slice(cfg, u)
  {
    assert q.runnable[0] in q.runnable && Waiting(cfg, q, q.runnable[0]);
    SliceBounds(cfg, u);
  }

  /** The current task goes behind t, or was ahead of it only until it expires. */
  lemma ScheduleNoSwap(cfg: Config, s: State, t: Tid)
    requires Inv(cfg, s) && t in cfg.prio && s.current != t && !Swaps(s)
    ensures Wait(cfg, Do(cfg, s, Schedule), t) <= Wait(cfg, s, t)
  {
    hide Slice, Inv, Remaining, Wait;
    var r := InvParts(cfg, s);
    PutBackRemaining(cfg, s);
    if t in s.runnable {
      RunnableWait(cfg, s, Do(cfg, s, Schedule), t, r);
    } else {
      ExpiredWait(cfg, s, Do(cfg, s, Schedule), t, r);
    }
  }

  lemma RunnableWait(cfg: Config, s: State, s': State, t: Tid, r: seq<Tid>)
    requires s.runnable == [s.current] + r && t in r && (s'.runnable == r || s'.runnable == r + [s.current])
    requires forall u :: u in r ==> Remaining(cfg, s', u) == Remaining(cfg, s, u)
    requires s.current != t
    ensures Wait(cfg, s', t) <= Wait(cfg, s, t)
  {
    hide Remaining;
    BeforeAppended(r, [s.current], t);
    BeforeFacts(r, t);
    SumKept(cfg, s, s', Before(r, t));
    assert s.runnable[1..] == r;
    assert Before(s.runnable, t) == [s.current] + Before(r, t);
  }

  lemma ExpiredWait(cfg: Config, s: State, s': State, t: Tid, r: seq<Tid>)
    requires s.runnable == [s.current] + r && t !in s.runnable && t in s.expired && s.current in s.left && s.current in cfg.prio
    requires if s.left[s.current] > 0 then s'.runnable == r + [s.current] && s'.expired == s.expired
             else s'.runnable == r && s'.expired == s.expired + [s.current]
    requires forall u :: u in r ==> Remaining(cfg, s', u) == Remaining(cfg, s, u)
    requires s.left[s.current] > 0 ==> Remaining(cfg, s', s.current) == Remaining(cfg, s, s.current)
    ensures Wait(cfg, s', t) <= Wait(cfg, s, t)
  {
    hide Remaining;
    SumKept(cfg, s, s', r);
    SumAppended(cfg, s', r, s.current);
    BeforeAppended(s.expired, [s.current], t);
    assert s.runnable[1..] == r;
  }

  lemma InvParts(cfg: Config, s: State) returns (r: seq<Tid>)
    requires Inv(cfg, s)
    ensures s.runnable != [] && r == s.runnable[1..] && s.runnable == [s.current] + r
    ensures s.current !in r && s.current !in s.expired && s.current in cfg.prio
    ensures ConfigOk(cfg) && Members(s) == multiset(cfg.prio.Keys)
    ensures forall t :: t in cfg.prio <==> t in s.runnable || t in s.expired
    ensures forall t :: t in cfg.prio ==> t in s.left
  {
    r := s.runnable[1..];
    OnceEach(cfg, s, r);
    assert s.runnable == [s.current] + r;
    forall t | t in cfg.prio ensures (t in s.runnable || t in s.expired) && t in s.left { Somewhere(cfg, s, t); }
    forall t | t in s.runnable || t in s.expired ensures t in cfg.prio { assert t in Members(s); }
  }

  /** A schedule() changes nothing of what the queued tasks have left. */
  lemma PutBackRemaining(cfg: Config, s: State)
    requires Inv(cfg, s) && !Swaps(s)
    ensures forall u :: u in cfg.prio && (u != s.current || s.left[u] > 0) && (u in s.runnable) ==>
              Remaining(cfg, Do(cfg, s, Schedule), u) == Remaining(cfg, s, u)
  {
    hide Slice, Inv;
    var r := InvParts(cfg, s);
    var b := PutBack(s);
    PutBackFacts(cfg, s);
    forall u | u in cfg.prio && (u != s.current || s.left[u] > 0) && u in s.runnable
      ensures Remaining(cfg, Do(cfg, s, Schedule), u) == Remaining(cfg, s, u)
    {
      SelectedRemaining(cfg, b, u);
    }
  }

  /** A swap turns the slices of those before t into what they have left. */
  lemma ScheduleSwap(cfg: Config, s: State, t: Tid)
    requires Inv(cfg, s) && t in cfg.prio && s.current != t && Swaps(s)
    ensures Wait(cfg, Do(cfg, s, Schedule), t) <= Wait(cfg, s, t)
  {
    hide Slice, Inv, Queues;
    var r := InvParts(cfg, s);
    var b, c := PutBack(s), s.current;
    var q := Swapped(b);
    var s' := Do(cfg, s, Schedule);
    assert s.left[c] == 0 && s.runnable == [c];
    PutBackFacts(cfg, s);
    SwappedFacts(cfg, b);
    assert q.runnable == s.expired + [c];
    BeforeAppended(s.expired, [c], t);
    BeforeFacts(s.expired, t);
    forall u | u in Before(s.expired, t) ensures Remaining(cfg, s', u) == if u in cfg.prio then Slice(cfg, u) else 0 {
      ExpiredDone(cfg, b, u);
      SelectedRemaining(cfg, q, u);
    }
    FreshSum(cfg, s', Before(s.expired, t));
  }

  lemma ExpiredDone(cfg: Config, b: State, u: Tid)
    requires Queues(cfg, b, [], b.runnable) && u in b.expired
    ensures Done(cfg, b, u)
  {
  }

  lemma {:induction false} SliceSumParts(cfg: Config, q: seq<Tid>, r: seq<Tid>)
    ensures SliceSum(cfg, q + r) == SliceSum(cfg, q) + SliceSum(cfg, r)
  {
    if q == [] {
      assert q + r == r;
    } else {
      assert (q + r)[0] == q[0] && (q + r)[1..] == q[1..] + r;
      SliceSumParts(cfg, q[1..], r);
    }
  }

  lemma {:induction false} RemainingBound(cfg: Config, s: State, q: seq<Tid>)
    requires forall u :: u in q ==> u in cfg.prio && Remaining(cfg, s, u) <= Slice(cfg, u)
    ensures RemainingSum(cfg, s, q) <= SliceSum(cfg, q)
  {
    hide Remaining, Slice;
    if q != [] { RemainingBound(cfg, s, q[1..]); }
  }

  /** A sum over distinct tasks depends on which they are, not on their order. */
  lemma {:induction false} SliceSumOf(cfg: Config, q: seq<Tid>, r: seq<Tid>)
    requires multiset(q) <= multiset(r)
    ensures SliceSum(cfg, q) <= SliceSum(cfg, r)
    decreases |q|
  {
    if q != [] {
      assert q[0] in multiset(r);
      var k :| 0 <= k < |r| && r[k] == q[0];
      var rest := r[..k] + r[k + 1..];
      assert r == r[..k] + [r[k]] + r[k + 1..];
      assert multiset(r) == multiset(rest) + multiset{r[k]};
      assert q == [q[0]] + q[1..];
      assert multiset(q) == multiset{q[0]} + multiset(q[1..]);
      forall u ensures multiset(q[1..])[u] <= multiset(rest)[u] { assert multiset(q)[u] <= multiset(r)[u]; }
      SliceSumOf(cfg, q[1..], rest);
      SliceSumParts(cfg, r[..k] + [r[k]], r[k + 1..]);
      SliceSumParts(cfg, r[..k], [r[k]]);
      SliceSumParts(cfg, r[..k], r[k + 1..]);
    }
  }

  /** The wait never exceeds the slices of the others, listed in any order. */
  lemma WaitBound(cfg: Config, s: State, t: Tid, others: seq<Tid>)
    requires Inv(cfg, s) && t in cfg.prio && multiset(others) + multiset{t} == multiset(cfg.prio.Keys)
    ensures Wait(cfg, s, t) <= SliceSum(cfg, others)
  {
    hide Slice, Remaining, Inv;
    var r := InvParts(cfg, s);
    BeforeFacts(s.runnable, t);
    BeforeFacts(s.expired, t);
    var q := if t in s.runnable then Before(s.runnable, t) else s.runnable;
    var e := if t in s.runnable then [] else Before(s.expired, t);
    forall u | u in q ensures u in cfg.prio && Remaining(cfg, s, u) <= Slice(cfg, u) { AtMostSlice(cfg, s, u); }
    RemainingBound(cfg, s, q);
    SliceSumParts(cfg, q, e);
    OthersOnly(cfg, s, t, q, e, others);
    SliceSumOf(cfg, q + e, others);
  }

  lemma AtMostSlice(cfg: Config, s: State, u: Tid)
    requires Inv(cfg, s) && u in s.runnable
    ensures u in cfg.prio && Remaining(cfg, s, u) <= Slice(cfg, u)
  {
    hide Slice;
    var r := InvParts(cfg, s);
    if u != s.current { assert u in s.runnable[1..] && Waiting(cfg, s, u); }
  }

  lemma OthersOnly(cfg: Config, s: State, t: Tid, q: seq<Tid>, e: seq<Tid>, others: seq<Tid>)
    requires Members(s) == multiset(cfg.prio.Keys) && multiset(others) + multiset{t} == multiset(cfg.prio.Keys)
    requires q <= s.runnable && e <= s.expired && t !in q && t !in e
    ensures multiset(q + e) <= multiset(others)
  {
    assert s.runnable == q + s.runnable[|q|..] && s.expired == e + s.expired[|e|..];
    forall u ensures multiset(q + e)[u] <= multiset(others)[u] {
      assert multiset(q + e)[u] == multiset(q)[u] + multiset(e)[u];
      assert multiset(s.runnable)[u] == multiset(q)[u] + multiset(s.runnable[|q|..])[u];
      assert multiset(s.expired)[u] == multiset(e)[u] + multiset(s.expired[|e|..])[u];
      assert Members(s)[u] == multiset(s.runnable)[u] + multiset(s.expired)[u];
      if u == t { assert t !in multiset(q) && t !in multiset(e); }
    }
  }

  /** Ticks in a stretch of steps. */
  ghost function TicksIn(ss: seq<State>, sts: seq<Step>, from: nat, upto: nat): nat
    requires from <= upto <= |sts| && |ss| == |sts| + 1
    decreases upto
  {
    if upto == from then 0
    else TicksIn(ss, sts, from, upto - 1) + Charges(ss[upto - 1], sts[upto - 1])
  }

  function Charges(s: State, st: Step): nat {
    if st == Tick && s.current in s.left && s.left[s.current] > 0 then 1 else 0
  }

  /** While t is not selected, each tick shortens its wait by one and no schedule() lengthens it. */
  lemma {:induction false} WaitShrinks(cfg: Config, ss: seq<State>, sts: seq<Step>, from: nat, upto: nat, t: Tid)
    requires Run(cfg, ss, sts) && from <= upto <= |sts| && t in cfg.prio
    requires forall i :: from <= i < upto ==> ss[i].current != t
    ensures Wait(cfg, ss[upto], t) + TicksIn(ss, sts, from, upto) <= Wait(cfg, ss[from], t)
    decreases upto
  {
    hide Do, Wait, Inv;
    if from < upto {
      WaitShrinks(cfg, ss, sts, from, upto - 1, t);
      RunInv(cfg, ss, sts, upto - 1);
      assert StepAt(cfg, ss, sts, upto - 1);
      WaitStep(cfg, ss[upto - 1], sts[upto - 1], t);
    }
  }

  lemma WaitStep(cfg: Config, s: State, st: Step, t: Tid)
    requires Inv(cfg, s) && t in cfg.prio && s.current != t
    ensures Wait(cfg, Do(cfg, s, st), t) + Charges(s, st) <= Wait(cfg, s, t)
  {
    hide Wait;
    if st == Tick && s.left[s.current] > 0 {
      TickWait(cfg, s, t);
    } else if st == Schedule && Swaps(s) {
      ScheduleSwap(cfg, s, t);
    } else if st == Schedule {
      ScheduleNoSwap(cfg, s, t);
    }
  }

  /** Every task is selected again before more than the slices of all others have ticked away. */
  lemma SelectedInTime(cfg: Config, ss: seq<State>, sts: seq<Step>, from: nat, upto: nat, t: Tid, others: seq<Tid>)
    requires Run(cfg, ss, sts) && from <= upto <= |sts| && t in cfg.prio && multiset(others) + multiset{t} == multiset(cfg.prio.Keys)
    requires TicksIn(ss, sts, from, upto) > SliceSum(cfg, others)
    ensures exists i :: from <= i < upto && ss[i].current == t
  {
    if forall i :: from <= i < upto ==> ss[i].current != t {
      WaitShrinks(cfg, ss, sts, from, upto, t);
      RunInv(cfg, ss, sts, from);
      WaitBound(cfg, ss[from], t, others);
    }
  }

  // ---------------------------------------------------------------------------
  // The bound is reached
  // ---------------------------------------------------------------------------

  ghost predicate Path(cfg: Config, ss: seq<State>, sts: seq<Step>) {
    |ss| == |sts| + 1 && forall i {:trigger StepAt(cfg, ss, sts, i)} :: 0 <= i < |sts| ==> StepAt(cfg, ss, sts, i)
  }

  lemma {:induction false} TicksBehind(s: State, st: Step, ss: seq<State>, sts: seq<Step>, n: nat)
    requires |ss| == |sts| + 1 && n <= |sts|
    ensures TicksIn([s] + ss, [st] + sts, 0, n + 1) == Charges(s, st) + TicksIn(ss, sts, 0, n)
  {
    if n == 0 {
      assert TicksIn([s] + ss, [st] + sts, 0, 0) == 0;
    } else {
      TicksBehind(s, st, ss, sts, n - 1);
    }
  }

  lemma PathBehind(cfg: Config, s: State, st: Step, ss: seq<State>, sts: seq<Step>)
    requires Path(cfg, ss, sts) && s.runnable != [] && ss[0] == Do(cfg, s, st)
    ensures Path(cfg, [s] + ss, [st] + sts)
  {
    var tt, uu := [s] + ss, [st] + sts;
    forall i | 0 <= i < |uu| ensures StepAt(cfg, tt, uu, i) {
      if i > 0 { assert StepAt(cfg, ss, sts, i - 1); }
    }
  }

  /** The current task has ticks left, those behind it have not had their turn, t is last. */
  ghost predicate Lined(cfg: Config, s: State, rest: seq<Tid>, t: Tid) {
    && s.runnable == [s.current] + rest + [t] && s.current in s.left && s.current in s.used && s.current !in rest
    && s.current != t && t !in rest && (forall i, j :: 0 <= i < j < |rest| ==> rest[i] != rest[j])
    && (forall u :: u in rest ==> u in cfg.prio && u in s.left && u in s.used && s.left[u] == 0)
  }

  /** They use up what they have, one after the other, and t waits all the while. */
  lemma {:induction false} Exhaust(cfg: Config, s: State, rest: seq<Tid>, t: Tid) returns (ss: seq<State>, sts: seq<Step>)
    requires Lined(cfg, s, rest, t)
    ensures Path(cfg, ss, sts) && ss[0] == s && (forall i :: 0 <= i < |ss| ==> ss[i].current != t)
    ensures TicksIn(ss, sts, 0, |sts|) == s.left[s.current] + SliceSum(cfg, rest)
    decreases |rest|, s.left[s.current]
  {
    hide Slice, TicksIn;
    if s.left[s.current] == 0 && rest == [] {
      ss, sts := [s], [];
      NoTicks(ss, sts);
    } else if s.left[s.current] > 0 {
      var ss1, sts1 := Exhaust(cfg, Ticked(s), rest, t);
      PathBehind(cfg, s, Tick, ss1, sts1);
      TicksBehind(s, Tick, ss1, sts1, |sts1|);
      ss, sts := [s] + ss1, [Tick] + sts1;
    } else {
      var s1 := NextLined(cfg, s, rest, t);
      var ss1, sts1 := Exhaust(cfg, s1, rest[1..], t);
      PathBehind(cfg, s, Schedule, ss1, sts1);
      TicksBehind(s, Schedule, ss1, sts1, |sts1|);
      ss, sts := [s] + ss1, [Schedule] + sts1;
    }
  }

  lemma NoTicks(ss: seq<State>, sts: seq<Step>)
    requires |ss| == 1 && sts == []
    ensures TicksIn(ss, sts, 0, 0) == 0
  {
  }

  lemma NextLined(cfg: Config, s: State, rest: seq<Tid>, t: Tid) returns (s1: State)
    requires Lined(cfg, s, rest, t) && rest != [] && s.left[s.current] == 0
    ensures s1 == Do(cfg, s, Schedule) && Lined(cfg, s1, rest[1..], t) && s1.current == rest[0] && s1.left[rest[0]] == Slice(cfg, rest[0])
  {
    hide Slice;
    s1 := Do(cfg, s, Schedule);
    assert s.runnable[1..] == rest + [t];
    assert rest == [rest[0]] + rest[1..];
    assert (rest + [t])[0] == rest[0];
    assert s1.runnable == [rest[0]] + rest[1..] + [t];
    assert rest[0] in rest;
    forall u | u in rest[1..] ensures u in rest && u != rest[0] {}
  }

  /** A task that starts behind all others is not selected while as many ticks pass as they
      have together: the bound is exact. */
  lemma WaitReached(cfg: Config, t: Tid, others: seq<Tid>) returns (ss: seq<State>, sts: seq<Step>)
    requires ConfigOk(cfg) && t in cfg.prio && others != [] && multiset(others) + multiset{t} == multiset(cfg.prio.Keys)
    ensures Run(cfg, ss, sts) && ss[0] == Start(cfg, others + [t])
    ensures TicksIn(ss, sts, 0, |sts|) == SliceSum(cfg, others) && forall i :: 0 <= i < |ss| ==> ss[i].current != t
  {
    hide Slice;
    OnceAmong(cfg.prio.Keys, others, t);
    var s, ids := Start(cfg, others + [t]), others + [t];
    assert multiset(ids) == multiset(others) + multiset{t};
    StartInv(cfg, ids);
    assert others == [others[0]] + others[1..] && ids[0] == others[0];
    assert ids == [others[0]] + others[1..] + [t];
    forall u | u in others[1..] ensures u in others && u != others[0] {}
    ss, sts := Exhaust(cfg, s, others[1..], t);
  }

  lemma OnceAmong(keys: set<Tid>, others: seq<Tid>, t: Tid)
    requires multiset(others) + multiset{t} == multiset(keys)
    ensures t !in others && (forall u :: u in others ==> u in keys) && forall i, j :: 0 <= i < j < |others| ==> others[i] != others[j]
  {
    assert forall u :: multiset(keys)[u] <= 1;
    assert multiset(others)[t] == multiset(keys)[t] - 1;
    forall u | u in others ensures u in keys { assert multiset(keys)[u] >= 1; }
    forall i, j | 0 <= i < j < |others| ensures others[i] != others[j] {
      Twice(others, i, j);
      assert multiset(others)[others[i]] <= multiset(keys)[others[i]];
    }
  }

  lemma Twice(q: seq<Tid>, i: nat, j: nat)
    requires i < j < |q|
    ensures q[i] == q[j] ==> multiset(q)[q[i]] >= 2
  {
    assert q == q[..j] + q[j..];
    assert q[i] in q[..j] && q[j] in q[j..];
  }

  // ---------------------------------------------------------------------------
  // The cpu as it runs
  // ---------------------------------------------------------------------------

  class TickingCpu {
    var current: Tid
    var runnable: seq<Tid>
    var expired: seq<Tid>
    var left: map<Tid, nat>
    var granule: int
    var needResched: bool
    ghost var used: map<Tid, nat>

    ghost function Now(): State
      reads this
    {
      State(current, runnable, expired, left, granule, used)
    }

    /** update_process_times, from the timer interrupt. Entering the interrupt counted on top of
        all voluntary counts, so preemptive() is false here and the BUG() is never reached: a
        task without ticks is left alone. */
    method UpdateProcessTimes(irqNestCount: nat, voluntaryPreempt: nat)
      requires current in left && current in used && irqNestCount > voluntaryPreempt
      modifies this
      ensures Now() == Ticked(old(Now()))
      ensures needResched == (old(needResched) || (old(left[current]) > 0 && (left[current] == 0 || granule == 0)))
    {
      if left[current] == 0 {
        var nested, preemptive := irqNestCount - voluntaryPreempt > 1, irqNestCount == 0;
        if nested || !preemptive { return; }
        assert false;
      }
      used := used[current := used[current] + 1];
      left := left[current := left[current] - 1];
      granule := granule - 1;
      if left[current] == 0 { needResched := true; }
      if granule == 0 { needResched := true; }
    }

    /** schedule() with only runnable tasks about. */
    method Reschedule(cfg: Config)
      requires Inv(cfg, Now())
      modifies this
      ensures Now() == Do(cfg, old(Now()), Schedule) && Inv(cfg, Now()) && !needResched
    {
      hide Queues;
      ghost var s := Now();
      StepInv(cfg, s, Schedule);
      PutBackFacts(cfg, s);
      SwappedFacts(cfg, PutBack(s));
      TicksBounded(cfg, s);
      assert left[current] <= cfg.ticks;
      needResched := false;
      runnable := runnable[1..];
      if left[current] > 0 {
        runnable := runnable + [current];
      } else {
        expired := expired + [current];
      }
      if |runnable| == 0 {
        runnable, expired := expired, runnable;
        used := map t | t in used :: 0;
      }
      assert Now() == Swapped(PutBack(s));
      Prepare(cfg);
    }

    /** sched_prepare_next for the head of the runnable queue. */
    method Prepare(cfg: Config)
      requires ConfigOk(cfg) && runnable != [] && Queues(cfg, Now(), [], runnable)
      modifies `left, `granule, `current
      ensures Now() == Selected(cfg, old(Now()))
    {
      var next := runnable[0];
      assert next in runnable && Waiting(cfg, Now(), next);
      if left[next] == 0 { left := left[next := Slice(cfg, next)]; }
      granule := cfg.ticks / 10;
      current := next;
    }
  }
}
