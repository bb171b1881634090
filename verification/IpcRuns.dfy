/**
 What holds in every run of the IPC rendezvous: no rendezvous is missed, both sides get
 the same outcome and the same message, and senders are served in order.
 */
module IpcRuns {
  import opened Basics
  import opened Ipc

  // ---------------------------------------------------------------------------
  // Queues
  // ---------------------------------------------------------------------------

  lemma WithoutFacts(q: seq<Tid>, k: nat)
    requires NoDup(q) && k < |q|
    ensures NoDup(Without(q, k)) && forall x :: x in Without(q, k) <==> x in q && x != q[k]
  {
    var r := Without(q, k);
    assert forall i :: 0 <= i < |r| ==> r[i] == if i < k then q[i] else q[i + 1];
    forall x | x in q && x != q[k] ensures x in r {
      var i :| 0 <= i < |q| && q[i] == x;
      assert r[if i < k then i else i - 1] == x;
    }
  }

  lemma DropFacts(q: seq<Tid>, t: Tid)
    requires NoDup(q)
    ensures NoDup(Drop(q, t)) && forall x :: x in Drop(q, t) <==> x in q && x != t
  {
    if t in q { WithoutFacts(q, Position(q, t)); }
  }

  // ---------------------------------------------------------------------------
  // Steps keep the invariant
  // ---------------------------------------------------------------------------

  lemma EnterInv(s: State, st: Step)
    requires Inv(s) && st.Enter? && Enabled(s, st)
    ensures Inv(Do(s, st))
  {
    var s' := Do(s, st);
    assert TaskOk(s, st.t);
    forall r | r in s'.queue ensures QueueOk(s', r) { assert QueueOk(s, r); }
    forall x | x in s'.tcbs ensures TaskOk(s', x) { assert TaskOk(s, x); }
  }

  /** Only the tasks in `ch` changed, none of which was bound to a task outside. */
  ghost predicate OnlyThese(s: State, s': State, ch: set<Tid>) {
    && s'.tcbs.Keys == s.tcbs.Keys && s'.queue.Keys == s.queue.Keys
    && (forall x :: x in s.tcbs && x !in ch ==> s'.tcbs[x] == s.tcbs[x])
    && (forall x :: x in ch && x in s.tcbs ==> match s.tcbs[x].phase
                                                case Taking(p, _) => p in ch
                                                case Held(k) => k in ch
                                                case _ => true)
  }

  lemma KeepTasks(s: State, s': State, ch: set<Tid>)
    requires (forall t {:trigger TaskOk(s, t)} :: t in s.tcbs ==> TaskOk(s, t)) && OnlyThese(s, s', ch)
    requires forall x, r :: x in s.tcbs && x !in ch && r in s.queue && x in s.queue[r] ==> x in s'.queue[r]
    requires forall x :: x in ch && x in s'.tcbs ==> TaskOk(s', x)
    ensures forall t {:trigger TaskOk(s', t)} :: t in s'.tcbs ==> TaskOk(s', t)
  {
    forall x | x in s'.tcbs ensures TaskOk(s', x) {
      if x !in ch {
        assert TaskOk(s, x);
        match s.tcbs[x].phase
        case Held(k) => assert TaskOk(s, k);
        case Taking(p, _) => assert TaskOk(s, p);
        case _ =>
      }
    }
  }

  /** Queues other than those of the tasks in `ch` hold none of them. */
  lemma KeepQueues(s: State, s': State, ch: set<Tid>)
    requires (forall r {:trigger QueueOk(s, r)} :: r in s.queue ==> QueueOk(s, r)) && OnlyThese(s, s', ch)
    requires forall r :: r in s.queue && r !in ch ==> s'.queue[r] == s.queue[r] && forall x :: x in ch ==> x !in s.queue[r]
    requires forall r :: r in ch && r in s'.queue ==> QueueOk(s', r)
    ensures forall r {:trigger QueueOk(s', r)} :: r in s'.queue ==> QueueOk(s', r)
  {
    forall r | r in s'.queue ensures QueueOk(s', r) {
      if r !in ch { assert QueueOk(s, r); }
    }
  }

  /** The sender finds the receiver waiting for it. */
  lemma SendMeetsInv(s: State, t: Tid, to: Tid)
    requires Inv(s) && Enabled(s, Send(t, to)) && s.tcbs[to].phase == Receiving && Accepts(s.tcbs[to].expected, t)
    ensures Inv(DoSend(s, t, to))
  {
    var s' := DoSend(s, t, to);
    assert TaskOk(s, t) && TaskOk(s, to) && QueueOk(s, to) && QueueOk(s, t);
    forall r | r in s.queue ensures t !in s.queue[r] && to !in s.queue[r] { assert QueueOk(s, r); }
    KeepTasks(s, s', {t, to});
    KeepQueues(s, s', {t, to});
  }

  /** The sender queues up behind a receiver that is not ready for it. */
  lemma SendWaitsInv(s: State, t: Tid, to: Tid)
    requires Inv(s) && Enabled(s, Send(t, to)) && !(s.tcbs[to].phase == Receiving && Accepts(s.tcbs[to].expected, t))
    ensures Inv(DoSend(s, t, to))
  {
    var s' := DoSend(s, t, to);
    assert TaskOk(s, t) && TaskOk(s, to) && QueueOk(s, to) && QueueOk(s, t);
    forall r | r in s.queue ensures t !in s.queue[r] { assert QueueOk(s, r); }
    KeepTasks(s, s', {t});
    forall r | r in s'.queue ensures QueueOk(s', r) { assert QueueOk(s, r); }
  }

  lemma SendInv(s: State, t: Tid, to: Tid)
    requires Inv(s) && Enabled(s, Send(t, to))
    ensures Inv(DoSend(s, t, to))
  {
    if s.tcbs[to].phase == Receiving && Accepts(s.tcbs[to].expected, t) { SendMeetsInv(s, t, to); } else { SendWaitsInv(s, t, to); }
  }

  lemma RecvTakesInv(s: State, t: Tid, from: Expected)
    requires Inv(s) && Enabled(s, Recv(t, from)) && FindFrom(s.queue[t], from, 0) < |s.queue[t]|
    ensures Inv(DoRecv(s, t, from))
  {
    hide Without, NoDup;
    var s' := DoRecv(s, t, from);
    var q := s.queue[t];
    var k := FindFrom(q, from, 0);
    var x := q[k];
    assert x in q;
    assert TaskOk(s, t) && QueueOk(s, t) && TaskOk(s, x) && QueueOk(s, x);
    WithoutFacts(q, k);
    forall r | r in s.queue ensures t !in s.queue[r] && (r != t ==> x !in s.queue[r]) { assert QueueOk(s, r); }
    KeepTasks(s, s', {t, x});
    KeepQueues(s, s', {t, x});
  }

  lemma RecvWaitsInv(s: State, t: Tid, from: Expected)
    requires Inv(s) && Enabled(s, Recv(t, from)) && FindFrom(s.queue[t], from, 0) == |s.queue[t]|
    ensures Inv(DoRecv(s, t, from))
  {
    var s' := DoRecv(s, t, from);
    assert TaskOk(s, t) && QueueOk(s, t);
    forall r | r in s.queue ensures t !in s.queue[r] { assert QueueOk(s, r); }
    KeepTasks(s, s', {t});
    KeepQueues(s, s', {t});
  }

  lemma RecvInv(s: State, t: Tid, from: Expected)
    requires Inv(s) && Enabled(s, Recv(t, from))
    ensures Inv(DoRecv(s, t, from))
  {
    if FindFrom(s.queue[t], from, 0) < |s.queue[t]| { RecvTakesInv(s, t, from); } else { RecvWaitsInv(s, t, from); }
  }

  lemma CopiedRegs(to: Tcb, from: Tcb, sender: Tid, fault: bool)
    requires |to.msg.regs| == MR_TOTAL && |from.msg.regs| == MR_TOTAL
    ensures |Copied(to, from, sender, fault).regs| == MR_TOTAL
  {
  }

  lemma FinishInv(s: State, t: Tid, fault: bool)
    requires Inv(s) && Enabled(s, Finish(t, fault))
    ensures Inv(Do(s, Finish(t, fault)))
  {
    hide Copied, Outcome;
    var s' := Do(s, Finish(t, fault));
    var p := s.tcbs[t].phase.partner;
    assert TaskOk(s, t) && TaskOk(s, p);
    CopiedRegs(s.tcbs[p], s.tcbs[t], t, fault);
    CopiedRegs(s.tcbs[t], s.tcbs[p], p, fault);
    OutcomeValues(s.tcbs[p].typ, s.tcbs[t].typ, fault);
    OutcomeValues(s.tcbs[t].typ, s.tcbs[p].typ, fault);
    forall r | r in s.queue ensures t !in s.queue[r] && p !in s.queue[r] { assert QueueOk(s, r); }
    assert QueueOk(s, t) && QueueOk(s, p);
    KeepTasks(s, s', {t, p});
    KeepQueues(s, s', {t, p});
  }

  lemma OutcomeValues(a: IpcType, b: IpcType, fault: bool)
    ensures Outcome(a, b, fault) in {OK, EFAULT, ENOIPC}
  {
  }

  lemma InterruptInv(s: State, t: Tid)
    requires Inv(s) && Enabled(s, Interrupt(t))
    ensures Inv(DoInterrupt(s, t))
  {
    var s' := DoInterrupt(s, t);
    assert TaskOk(s, t);
    if s.tcbs[t].phase.Sending? {
      assert QueueOk(s, s.tcbs[t].phase.to);
      DropFacts(s.queue[s.tcbs[t].phase.to], t);
    }
    forall r | r in s'.queue ensures QueueOk(s', r) { assert QueueOk(s, r); }
    forall x | x in s'.tcbs ensures TaskOk(s', x) { assert TaskOk(s, x); }
  }

  lemma ReturnInv(s: State, t: Tid)
    requires Inv(s) && Enabled(s, Return(t))
    ensures Inv(Do(s, Return(t)))
  {
    var s' := Do(s, Return(t));
    assert TaskOk(s, t);
    forall r | r in s'.queue ensures QueueOk(s', r) { assert QueueOk(s, r); }
    forall x | x in s'.tcbs ensures TaskOk(s', x) { assert TaskOk(s, x); }
  }

  lemma StepInv(s: State, st: Step)
    requires Inv(s) && Enabled(s, st)
    ensures Inv(Do(s, st))
  {
    hide Inv, DoSend, DoRecv, DoFinish, DoInterrupt;
    match st
    case Enter(_, _, _, _, _) => EnterInv(s, st);
    case Send(t, to) => SendInv(s, t, to);
    case Recv(t, from) => RecvInv(s, t, from);
    case Finish(t, fault) => FinishInv(s, t, fault);
    case Interrupt(t) => InterruptInv(s, t);
    case Return(t) => ReturnInv(s, t);
  }

  // ---------------------------------------------------------------------------
  // Runs
  // ---------------------------------------------------------------------------

  ghost predicate Init(s: State) {
    && s.queue.Keys == s.tcbs.Keys
    && (forall r :: r in s.queue ==> s.queue[r] == [])
    && (forall t :: t in s.tcbs ==> s.tcbs[t].phase == Free && !s.tcbs[t].interrupted && |s.tcbs[t].msg.regs| == MR_TOTAL)
  }

  ghost predicate StepAt(ss: seq<State>, sts: seq<Step>, i: nat)
    requires i < |sts| && |ss| == |sts| + 1
  {
    Enabled(ss[i], sts[i]) && ss[i + 1] == Do(ss[i], sts[i])
  }

  ghost predicate Run(ss: seq<State>, sts: seq<Step>) {
    && |ss| == |sts| + 1 && Init(ss[0])
    && forall i {:trigger StepAt(ss, sts, i)} :: 0 <= i < |sts| ==> StepAt(ss, sts, i)
  }

  lemma {:induction false} RunInv(ss: seq<State>, sts: seq<Step>, n: nat)
    requires Run(ss, sts) && n < |ss|
    ensures Inv(ss[n])
  {
    hide Do, Enabled;
    if n == 0 {
      forall t | t in ss[0].tcbs ensures TaskOk(ss[0], t) {}
    } else {
      RunInv(ss, sts, n - 1);
      assert StepAt(ss, sts, n - 1);
      StepInv(ss[n - 1], sts[n - 1]);
    }
  }

  /** No sender sleeps on a receiver that sleeps waiting for it. */
  lemma NoMissedRendezvous(ss: seq<State>, sts: seq<Step>, n: nat, t: Tid, r: Tid)
    requires Run(ss, sts) && n < |ss| && t in ss[n].tcbs && r in ss[n].tcbs && ss[n].tcbs[t].phase == Sending(r)
    ensures !(ss[n].tcbs[r].phase == Receiving && Accepts(ss[n].tcbs[r].expected, t))
  {
    RunInv(ss, sts, n);
    assert TaskOk(ss[n], t) && QueueOk(ss[n], r);
  }

  // ---------------------------------------------------------------------------
  // Outcomes
  // ---------------------------------------------------------------------------

  /** A task changes only by its own steps, or when a partner takes it or finishes with it. */
  lemma Untouched(s: State, st: Step, x: Tid)
    requires Inv(s) && Enabled(s, st) && x in s.tcbs && x != st.t && s.tcbs[x].phase == Woken
    ensures x in Do(s, st).tcbs && Do(s, st).tcbs[x] == s.tcbs[x]
  {
    assert TaskOk(s, st.t) && TaskOk(s, x);
    match st
    case Recv(t, from) =>
      assert QueueOk(s, t);
      var k := FindFrom(s.queue[t], from, 0);
      if k < |s.queue[t]| { assert s.queue[t][k] in s.queue[t]; }
    case Finish(t, _) => assert TaskOk(s, s.tcbs[t].phase.partner);
    case _ =>
  }

  lemma {:induction false} WokenWaits(ss: seq<State>, sts: seq<Step>, i: nat, j: nat, x: Tid)
    requires Run(ss, sts) && i <= j < |ss| && x in ss[i].tcbs && ss[i].tcbs[x].phase == Woken
    requires forall m :: i <= m < j ==> sts[m].t != x
    ensures x in ss[j].tcbs && ss[j].tcbs[x] == ss[i].tcbs[x]
    decreases j
  {
    hide Do, Enabled;
    if i < j {
      WokenWaits(ss, sts, i, j - 1, x);
      RunInv(ss, sts, j - 1);
      assert StepAt(ss, sts, j - 1);
      Untouched(ss[j - 1], sts[j - 1], x);
    }
  }

  const OUTCOMES := {OK, EFAULT, ENOIPC}

  /** ipc_signal_error and ipc_handle_errors are inverse on a sleeper without the error bits:
      it returns the signalled error and is left as it was before the signal. */
  lemma SignalThenHandle(t: Tcb, ret: int)
    requires !t.interrupted && ret in {EFAULT, ENOIPC}
    ensures Handled(Signalled(t, ret)) == (ret, t) <==> !t.efault && (ret == ENOIPC ==> !t.enoipc)
  {
  }

  /** What a sleeper whose call passed the bits `base` reads off its flags after a rendezvous
      with outcome ret: an error bit of its own comes first. */
  function ReadBack(base: (bool, bool), ret: int): int {
    if base.0 || ret == EFAULT then EFAULT else if base.1 || ret == ENOIPC then ENOIPC else OK
  }

  /** Every outcome is read back as it is exactly if the call passed no error bit. */
  lemma ReadBackIff(base: (bool, bool))
    ensures (forall ret :: ret in OUTCOMES ==> ReadBack(base, ret) == ret) <==> !base.0 && !base.1
  {
    if base.0 || base.1 { assert OK in OUTCOMES && ReadBack(base, OK) != OK; }
  }

  lemma HandledIsDue(s: State, t: Tid)
    requires Inv(s) && t in s.tcbs && s.tcbs[t].phase == Woken
    ensures s.tcbs[t].interrupted ==> Handled(s.tcbs[t]).0 == EINTR
    ensures !s.tcbs[t].interrupted ==> Handled(s.tcbs[t]).0 == ReadBack(s.tcbs[t].base, s.tcbs[t].due)
  {
    assert TaskOk(s, t);
  }

  /** A rendezvous of t and p that ends in step i, and the return of the sleeper p in step j. */
  ghost predicate Returns(ss: seq<State>, sts: seq<Step>, i: nat, j: nat, t: Tid, p: Tid) {
    && Run(ss, sts) && i < j < |sts| && sts[i].Finish? && sts[i].t == t && StepAt(ss, sts, i)
    && ss[i].tcbs[t].phase.partner == p && sts[j] == Return(p)
    && forall m :: i < m < j ==> sts[m].t != p
  }

  /** The taker returns `due` at the end of the copy. The sleeper returns the same when it next
      runs, if its call passed no error bits. */
  lemma SameOutcome(ss: seq<State>, sts: seq<Step>, i: nat, j: nat, t: Tid, p: Tid)
    requires Returns(ss, sts, i, j, t, p)
    ensures p in ss[i].tcbs && p in ss[j].tcbs && t in ss[i + 1].tcbs && ss[i + 1].tcbs[t].due in OUTCOMES
    ensures Handled(ss[j].tcbs[p]).0 == ReadBack(ss[i].tcbs[p].base, ss[i + 1].tcbs[t].due)
    ensures ss[i].tcbs[p].base == (false, false) ==> Handled(ss[j].tcbs[p]).0 == ss[i + 1].tcbs[t].due
  {
    RunInv(ss, sts, i);
    RunInv(ss, sts, i + 1);
    assert TaskOk(ss[i], t) && TaskOk(ss[i], p) && TaskOk(ss[i + 1], p);
    WokenWaits(ss, sts, i + 1, j, p);
    RunInv(ss, sts, j);
    HandledIsDue(ss[j], p);
  }

  // A call that passes an error bit: a run in which the two sides differ.

  const ZEROES := Message([0, 0, 0, 0, 0, 0], [], [])

  function Plain(phase: Phase, efault: bool, enoipc: bool, base: (bool, bool)): Tcb {
    Tcb(phase, Short, ZEROES, AnyThread, efault, enoipc, false, ZEROES, base, OK)
  }

  function Pair(zero: Tcb, one: Phase): State {
    State(map[0 := zero, 1 := Plain(one, false, false, (false, false))], map[0 := [], 1 := []])
  }

  predicate Moves(s: State, st: Step, s': State) {
    Enabled(s, st) && s' == Do(s, st)
  }

  function Got(efault: bool, enoipc: bool): Tcb {
    Plain(Woken, efault, enoipc, (efault, enoipc)).(msg := ZEROES.(regs := ZEROES.regs[MR_SENDER := 1]))
  }

  lemma BitsEnter(efault: bool, enoipc: bool)
    ensures Moves(Pair(Plain(Free, false, false, (false, false)), Free), Enter(0, ZEROES, Short, efault, enoipc),
                  Pair(Plain(Free, efault, enoipc, (false, false)), Free))
    ensures Init(Pair(Plain(Free, false, false, (false, false)), Free))
  {
  }

  lemma BitsRecv(efault: bool, enoipc: bool)
    ensures Moves(Pair(Plain(Free, efault, enoipc, (false, false)), Free), Recv(0, AnyThread),
                  Pair(Plain(Receiving, efault, enoipc, (efault, enoipc)), Free))
  {
  }

  lemma BitsSend(efault: bool, enoipc: bool)
    ensures Moves(Pair(Plain(Receiving, efault, enoipc, (efault, enoipc)), Free), Send(1, 0),
                  Pair(Plain(Held(1), efault, enoipc, (efault, enoipc)), Taking(0, true)))
  {
  }

  lemma BitsFinish(efault: bool, enoipc: bool)
    ensures Moves(Pair(Plain(Held(1), efault, enoipc, (efault, enoipc)), Taking(0, true)), Finish(1, false), Pair(Got(efault, enoipc), Free))
  {
  }

  lemma BitsReturn(efault: bool, enoipc: bool)
    ensures Moves(Pair(Got(efault, enoipc), Free), Return(0), Pair(Handled(Got(efault, enoipc)).1.(phase := Free), Free))
    ensures Handled(Got(efault, enoipc)).0 == OK <==> !efault && !enoipc
  {
  }

  /** Task 0 passes the bits and receives; task 1 sends without error; task 0 returns. The
      rendezvous succeeds whatever the bits are; if one is set, its sleeper fails. */
  lemma BitsHideOutcome(efault: bool, enoipc: bool) returns (ss: seq<State>, sts: seq<Step>)
    ensures Returns(ss, sts, 3, 4, 1, 0) && sts[0] == Enter(0, ZEROES, Short, efault, enoipc)
    ensures 1 in ss[4].tcbs && ss[4].tcbs[1].due == OK
    ensures 0 in ss[4].tcbs && (Handled(ss[4].tcbs[0]).0 == OK <==> !efault && !enoipc)
  {
    hide Do, Handled, Init, Enabled;
    BitsEnter(efault, enoipc);
    BitsRecv(efault, enoipc);
    BitsSend(efault, enoipc);
    BitsFinish(efault, enoipc);
    BitsReturn(efault, enoipc);
    ss := [Pair(Plain(Free, false, false, (false, false)), Free),
           Pair(Plain(Free, efault, enoipc, (false, false)), Free),
           Pair(Plain(Receiving, efault, enoipc, (efault, enoipc)), Free),
           Pair(Plain(Held(1), efault, enoipc, (efault, enoipc)), Taking(0, true)),
           Pair(Got(efault, enoipc), Free),
           Pair(Handled(Got(efault, enoipc)).1.(phase := Free), Free)];
    sts := [Enter(0, ZEROES, Short, efault, enoipc), Recv(0, AnyThread), Send(1, 0), Finish(1, false), Return(0)];
    forall i: nat | i < |sts| ensures StepAt(ss, sts, i) {
      assert Moves(ss[i], sts[i], ss[i + 1]);
    }
  }

  // ---------------------------------------------------------------------------
  // Messages
  // ---------------------------------------------------------------------------

  /** What a receiver must find in its registers. */
  function Delivered(msg: seq<int>, sender: Tid, e: Expected): seq<int> {
    if e == AnyThread && |msg| == MR_TOTAL then msg[MR_SENDER := sender] else msg
  }

  lemma CopiedIsDelivered(to: Tcb, from: Tcb, sender: Tid, fault: bool)
    requires |to.msg.regs| == MR_TOTAL && |from.msg.regs| == MR_TOTAL
    ensures Copied(to, from, sender, fault).regs ==
            Delivered(if Outcome(to.typ, from.typ, fault) == ENOIPC then to.msg.regs else from.msg.regs, sender, to.expected)
    ensures to.expected == AnyThread ==> Copied(to, from, sender, fault).regs[MR_SENDER] == sender
  {
  }

  lemma SentKept(s: State, st: Step, x: Tid)
    requires Inv(s) && Enabled(s, st) && x in s.tcbs && st.t != x
    ensures x in Do(s, st).tcbs && Do(s, st).tcbs[x].sent == s.tcbs[x].sent
  {
    assert TaskOk(s, st.t);
    match st
    case Recv(t, from) => assert QueueOk(s, t);
    case _ =>
  }

  lemma {:induction false} SentWaits(ss: seq<State>, sts: seq<Step>, i: nat, j: nat, x: Tid)
    requires Run(ss, sts) && i <= j < |ss| && x in ss[i].tcbs
    requires forall m :: i <= m < j ==> sts[m].t != x
    ensures x in ss[j].tcbs && ss[j].tcbs[x].sent == ss[i].tcbs[x].sent
    decreases j
  {
    hide Do, Enabled;
    if i < j {
      SentWaits(ss, sts, i, j - 1, x);
      RunInv(ss, sts, j - 1);
      assert StepAt(ss, sts, j - 1);
      SentKept(ss[j - 1], sts[j - 1], x);
    }
  }

  /** The sender of the rendezvous that a Finish step ends, and its receiver. */
  function SenderOf(s: State, t: Tid): Tid
    requires t in s.tcbs && s.tcbs[t].phase.Taking?
  {
    if s.tcbs[t].phase.sends then t else s.tcbs[t].phase.partner
  }

  function ReceiverOf(s: State, t: Tid): Tid
    requires t in s.tcbs && s.tcbs[t].phase.Taking?
  {
    if s.tcbs[t].phase.sends then s.tcbs[t].phase.partner else t
  }

  /** Unless the ipc types do not match, the receiver gets the registers that the sender
      had when it called send, and an L4_ANYTHREAD receiver the sender's own tid. */
  lemma MessageArrives(ss: seq<State>, sts: seq<Step>, i: nat, j: nat)
    requires Run(ss, sts) && i < j < |sts| && StepAt(ss, sts, i) && StepAt(ss, sts, j) && sts[i].Send? && sts[j].Finish?
    requires sts[i].t == SenderOf(ss[j], sts[j].t)
    requires forall m :: i < m < j ==> sts[m].t != sts[i].t
    ensures var x, r := sts[i].t, ReceiverOf(ss[j], sts[j].t);
            && r in ss[j].tcbs && r in ss[j + 1].tcbs && x in ss[j].tcbs
            && (ss[j + 1].tcbs[sts[j].t].due != ENOIPC ==> ss[j + 1].tcbs[r].msg.regs == Delivered(ss[i].tcbs[x].msg.regs, x, ss[j].tcbs[r].expected))
            && (ss[j].tcbs[r].expected == AnyThread ==> |ss[j + 1].tcbs[r].msg.regs| == MR_TOTAL && ss[j + 1].tcbs[r].msg.regs[MR_SENDER] == x)
  {
    hide Copied, Outcome;
    var x, r := sts[i].t, ReceiverOf(ss[j], sts[j].t);
    RunInv(ss, sts, i);
    RunInv(ss, sts, j);
    SendSnapshots(ss[i], sts[i]);
    SentWaits(ss, sts, i + 1, j, x);
    assert TaskOk(ss[j], sts[j].t) && TaskOk(ss[j], ss[j].tcbs[sts[j].t].phase.partner);
    CopiedIsDelivered(ss[j].tcbs[r], ss[j].tcbs[x], x, sts[j].fault);
    CopiedRegs(ss[j].tcbs[r], ss[j].tcbs[x], x, sts[j].fault);
  }

  lemma SendSnapshots(s: State, st: Step)
    requires Enabled(s, st) && st.Send?
    ensures st.t in Do(s, st).tcbs && Do(s, st).tcbs[st.t].sent == s.tcbs[st.t].msg
  {
  }

  // ---------------------------------------------------------------------------
  // Order of service
  // ---------------------------------------------------------------------------

  predicate Queued(s: State, r: Tid, x: Tid) {
    r in s.queue && x in s.queue[r]
  }

  /** Receive calls by r that accept anyone. */
  function AnyRecv(st: Step, r: Tid): nat {
    if st == Recv(r, AnyThread) then 1 else 0
  }

  lemma PositionUnique(q: seq<Tid>, k: nat)
    requires NoDup(q) && k < |q|
    ensures Position(q, q[k]) == k
  {
  }

  lemma WithoutPosition(q: seq<Tid>, k: nat, x: Tid)
    requires NoDup(q) && k < |q| && x in q && x != q[k]
    ensures x in Without(q, k) && Position(Without(q, k), x) == Position(q, x) - if k < Position(q, x) then 1 else 0
  {
    WithoutFacts(q, k);
    var p := Position(q, x);
    var p' := if k < p then p - 1 else p;
    assert Without(q, k)[p'] == x;
    PositionUnique(Without(q, k), p');
  }

  /** Nobody moves back in a queue, and each receive from anyone moves everybody up. */
  lemma QueueAdvances(s: State, st: Step, r: Tid, x: Tid)
    requires Inv(s) && Enabled(s, st) && Queued(s, r, x) && Queued(Do(s, st), r, x)
    ensures Position(Do(s, st).queue[r], x) + AnyRecv(st, r) <= Position(s.queue[r], x)
  {
    assert QueueOk(s, r) && TaskOk(s, st.t);
    var q := s.queue[r];
    match st
    case Send(t, to) =>
      if to == r && Do(s, st).queue[r] != q {
        AppendPosition(q, t, x);
      }
    case Recv(t, from) =>
      if t == r {
        var k := FindFrom(q, from, 0);
        if k < |q| {
          assert q[k] in q;
          WithoutFacts(q, k);
          WithoutPosition(q, k, x);
          assert from == AnyThread ==> k == 0;
        } else {
          assert x in q && !(from == AnyThread);
        }
      }
    case Interrupt(t) =>
      if s.tcbs[t].phase == Sending(r) && t in q {
        DropFacts(q, t);
        WithoutPosition(q, Position(q, t), x);
      }
    case _ =>
  }

  lemma AppendPosition(q: seq<Tid>, t: Tid, x: Tid)
    requires NoDup(q) && t !in q && x in q
    ensures x in q + [t] && Position(q + [t], x) == Position(q, x)
  {
    assert (q + [t])[Position(q, x)] == x;
    PositionUnique(q + [t], Position(q, x));
  }

  ghost function AnyRecvs(sts: seq<Step>, from: nat, upto: nat, r: Tid): nat
    requires from <= upto <= |sts|
    decreases upto
  {
    if upto == from then 0 else AnyRecvs(sts, from, upto - 1, r) + AnyRecv(sts[upto - 1], r)
  }

  lemma {:induction false} ServedInOrder(ss: seq<State>, sts: seq<Step>, i: nat, j: nat, r: Tid, x: Tid)
    requires Run(ss, sts) && i <= j <= |sts| && (forall m :: i <= m <= j ==> Queued(ss[m], r, x))
    ensures Queued(ss[i], r, x) && Queued(ss[j], r, x)
    ensures Position(ss[j].queue[r], x) + AnyRecvs(sts, i, j, r) <= Position(ss[i].queue[r], x)
    decreases j
  {
    hide Do, Enabled, Position;
    if i < j {
      ServedInOrder(ss, sts, i, j - 1, r, x);
      RunInv(ss, sts, j - 1);
      assert StepAt(ss, sts, j - 1);
      QueueAdvances(ss[j - 1], sts[j - 1], r, x);
    }
  }

  /** A sender at position k leaves the queue within k + 1 receives from anyone. */
  lemma ServedInTime(ss: seq<State>, sts: seq<Step>, i: nat, j: nat, r: Tid, x: Tid)
    requires Run(ss, sts) && i <= j <= |sts| && Queued(ss[i], r, x)
    requires AnyRecvs(sts, i, j, r) >= Position(ss[i].queue[r], x) + 1
    ensures exists m :: i <= m <= j && !Queued(ss[m], r, x)
  {
    hide Position;
    if forall m :: i <= m <= j ==> Queued(ss[m], r, x) { ServedInOrder(ss, sts, i, j, r, x); }
  }

  /** Of two queued senders the later one is not taken by a receive from anyone. */
  lemma NotOvertaken(s: State, r: Tid, x: Tid, y: Tid)
    requires Inv(s) && Enabled(s, Recv(r, AnyThread)) && Queued(s, r, x) && Queued(s, r, y)
    requires Position(s.queue[r], x) < Position(s.queue[r], y)
    ensures Queued(Do(s, Recv(r, AnyThread)), r, y)
  {
    assert QueueOk(s, r);
    var q := s.queue[r];
    assert FindFrom(q, AnyThread, 0) == 0;
    assert q[0] in q;
    WithoutFacts(q, 0);
    PositionUnique(q, 0);
  }

  // ---------------------------------------------------------------------------
  // Completed rendezvous match one to one
  // ---------------------------------------------------------------------------

  /** t was asleep in a rendezvous that this step ends. */
  ghost function Met(s: State, st: Step, t: Tid): nat
    requires Enabled(s, st)
  {
    if st.Finish? && s.tcbs[st.t].phase.partner == t then 1 else 0
  }

  /** t returns from a sleep that a rendezvous ended. */
  ghost function Came(s: State, st: Step, t: Tid): nat
    requires Enabled(s, st)
  {
    if st == Return(t) && !s.tcbs[t].interrupted then 1 else 0
  }

  function Pending(s: State, t: Tid): nat {
    if t in s.tcbs && s.tcbs[t].phase == Woken && !s.tcbs[t].interrupted then 1 else 0
  }

  lemma MeetingBalance(s: State, st: Step, t: Tid)
    requires Inv(s) && Enabled(s, st) && t in s.tcbs
    ensures t in Do(s, st).tcbs && Pending(Do(s, st), t) == Pending(s, t) + Met(s, st, t) - Came(s, st, t)
  {
    assert TaskOk(s, t) && TaskOk(s, st.t);
    match st
    case Recv(x, from) =>
      assert QueueOk(s, x);
      var k := FindFrom(s.queue[x], from, 0);
      if k < |s.queue[x]| { assert s.queue[x][k] in s.queue[x]; }
    case Finish(x, _) => assert TaskOk(s, s.tcbs[x].phase.partner);
    case _ =>
  }

  ghost function Meetings(ss: seq<State>, sts: seq<Step>, n: nat, t: Tid): (nat, nat)
    requires Run(ss, sts) && n <= |sts|
  {
    if n == 0 then (0, 0)
    else
      assert StepAt(ss, sts, n - 1);
      var rest := Meetings(ss, sts, n - 1, t);
      (rest.0 + Met(ss[n - 1], sts[n - 1], t), rest.1 + Came(ss[n - 1], sts[n - 1], t))
  }

  /** Over every run, a task returns from as many rendezvous as its partners finished with
      it, but for one that it has not run since. */
  lemma {:induction false} MeetingsMatch(ss: seq<State>, sts: seq<Step>, n: nat, t: Tid)
    requires Run(ss, sts) && n <= |sts| && t in ss[0].tcbs
    ensures t in ss[n].tcbs && Meetings(ss, sts, n, t).0 == Meetings(ss, sts, n, t).1 + Pending(ss[n], t)
  {
    hide Do, Enabled;
    if n > 0 {
      MeetingsMatch(ss, sts, n - 1, t);
      RunInv(ss, sts, n - 1);
      assert StepAt(ss, sts, n - 1);
      MeetingBalance(ss[n - 1], sts[n - 1], t);
    }
  }
}
