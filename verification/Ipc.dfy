/**
 The IPC rendezvous of src/api/ipc.c as a state machine. A step is one section under the
 two queue locks, the copy that follows it, or the return of a woken task.
 */
module Ipc {
  import opened Basics

  type Tid = nat

  /** Whom a receiver accepts: L4_ANYTHREAD or one task. */
  datatype Expected = AnyThread | Only(tid: Tid)

  datatype IpcType = Short | Full | Extended

  const MR_TOTAL := 6
  const MR_SENDER := 1
  const OK := 0
  const EFAULT := -14
  const EINTR := -4
  const ENOIPC := -133

  /** Primary registers, the rest of the utcb and the extended buffer. */
  datatype Message = Message(regs: seq<int>, rest: seq<int>, ext: seq<int>)

  /** Free: not in ipc. Sending/Receiving: asleep on a queue. Held: asleep, off its queue,
      in the hands of its taker. Taking: took a partner off its queue, copy still to do. Woken:
      resumed, about to look at its flags. */
  datatype Phase = Free | Sending(to: Tid) | Receiving | Held(taker: Tid) | Taking(partner: Tid, sends: bool) | Woken

  /** `sent`, `base` and `due` are history: the message at the call, the error flags at the
      call, and the outcome of the rendezvous that ended the sleep. */
  datatype Tcb = Tcb(
    phase: Phase, typ: IpcType, msg: Message, expected: Expected,
    efault: bool, enoipc: bool, interrupted: bool,
    sent: Message, base: (bool, bool), due: int)

  /** Tasks and, for each receiver, its wqh_send list. */
  datatype State = State(tcbs: map<Tid, Tcb>, queue: map<Tid, seq<Tid>>)

  predicate Accepts(e: Expected, s: Tid) {
    e == AnyThread || e == Only(s)
  }

  // ---------------------------------------------------------------------------
  // Copying
  // ---------------------------------------------------------------------------

  /** What ipc_msg_copy returns; `fault` tells whether a utcb access would fault. */
  function Outcome(to: IpcType, from: IpcType, fault: bool): int {
    if (to == Extended) != (from == Extended) then ENOIPC
    else if to == Extended || (to == Short && from == Short) then OK
    else if fault then EFAULT else OK
  }

  /** The receiver's message after ipc_msg_copy. */
  function Copied(to: Tcb, from: Tcb, sender: Tid, fault: bool): Message {
    var ret := Outcome(to.typ, from.typ, fault);
    var m := if ret == ENOIPC then to.msg
             else to.msg.(regs := from.msg.regs,
                          rest := if ret == OK && to.typ != Extended && (to.typ == Full || from.typ == Full) then from.msg.rest else to.msg.rest,
                          ext := if to.typ == Extended then Overlay(to.msg.ext, from.msg.ext) else to.msg.ext);
    if to.expected == AnyThread && |m.regs| == MR_TOTAL then m.(regs := m.regs[MR_SENDER := sender]) else m
  }

  /** The shorter of the two extended buffers decides how much is copied. */
  function Overlay(to: seq<int>, from: seq<int>): seq<int> {
    if |from| <= |to| then from + to[|from|..] else from[..|to|]
  }

  /** ipc_signal_error. */
  function Signalled(t: Tcb, ret: int): Tcb {
    t.(efault := t.efault || ret == EFAULT, enoipc := t.enoipc || ret == ENOIPC)
  }

  /** ipc_handle_errors: the value it returns and the flags it clears. */
  function Handled(t: Tcb): (int, Tcb) {
    if t.interrupted then (EINTR, t.(interrupted := false))
    else if t.efault then (EFAULT, t.(efault := false))
    else if t.enoipc then (ENOIPC, t.(enoipc := false))
    else (OK, t)
  }

  // ---------------------------------------------------------------------------
  // Queues
  // ---------------------------------------------------------------------------

  /** The first acceptable sender at or behind position i; |q| if there is none. */
  function FindFrom(q: seq<Tid>, e: Expected, i: nat): (k: nat)
    requires i <= |q|
    ensures i <= k <= |q| && (k < |q| ==> Accepts(e, q[k]))
    ensures forall j :: i <= j < k ==> !Accepts(e, q[j])
    decreases |q| - i
  {
    if i == |q| || Accepts(e, q[i]) then i else FindFrom(q, e, i + 1)
  }

  function Without(q: seq<Tid>, k: nat): seq<Tid>
    requires k < |q|
  {
    q[..k] + q[k + 1..]
  }

  /** The list without t. */
  function Drop(q: seq<Tid>, t: Tid): seq<Tid> {
    if t in q then Without(q, Position(q, t)) else q
  }

  function Position(q: seq<Tid>, t: Tid): (k: nat)
    requires t in q
    ensures k < |q| && q[k] == t && t !in q[..k]
  {
    if q[0] == t then 0 else 1 + Position(q[1..], t)
  }

  // ---------------------------------------------------------------------------
  // Steps
  // ---------------------------------------------------------------------------

  datatype Step =
    | Enter(t: Tid, msg: Message, typ: IpcType, efault: bool, enoipc: bool)
    | Send(t: Tid, to: Tid)
    | Recv(t: Tid, from: Expected)
    | Finish(t: Tid, fault: bool)
    | Interrupt(t: Tid)
    | Return(t: Tid)

  predicate Enabled(s: State, st: Step) {
    && st.t in s.tcbs && st.t in s.queue
    && match st
       case Enter(t, msg, _, _, _) => s.tcbs[t].phase == Free && |msg.regs| == MR_TOTAL
       case Send(t, to) => s.tcbs[t].phase == Free && to != t && to in s.tcbs && to in s.queue
       case Recv(t, from) => s.tcbs[t].phase == Free && from != Only(t)
       case Finish(t, _) => s.tcbs[t].phase.Taking? && s.tcbs[t].phase.partner in s.tcbs
       case Interrupt(t) => s.tcbs[t].phase == Receiving || (s.tcbs[t].phase.Sending? && s.tcbs[t].phase.to in s.queue)
       case Return(t) => s.tcbs[t].phase == Woken
  }

  function Sleeping(t: Tcb, phase: Phase): Tcb {
    t.(phase := phase, sent := t.msg, base := (t.efault, t.enoipc))
  }

  /** ipc_send: meet a receiver that waits for us, or queue up. */
  function DoSend(s: State, t: Tid, to: Tid): State
    requires t in s.tcbs && to in s.tcbs && to in s.queue
  {
    var me, r := s.tcbs[t], s.tcbs[to];
    if r.phase == Receiving && Accepts(r.expected, t) then
      s.(tcbs := s.tcbs[to := r.(phase := Held(t))][t := Sleeping(me, Taking(to, true))])
    else
      s.(tcbs := s.tcbs[t := Sleeping(me, Sending(to))], queue := s.queue[to := s.queue[to] + [t]])
  }

  /** ipc_recv: take the first sender we want, or wait. */
  function DoRecv(s: State, t: Tid, from: Expected): State
    requires t in s.tcbs && t in s.queue
  {
    var me := s.tcbs[t].(expected := from);
    var q := s.queue[t];
    var k := FindFrom(q, from, 0);
    if k < |q| && q[k] in s.tcbs then
      s.(tcbs := s.tcbs[q[k] := s.tcbs[q[k]].(phase := Held(t))][t := Sleeping(me, Taking(q[k], false))],
         queue := s.queue[t := Without(q, k)])
    else s.(tcbs := s.tcbs[t := Sleeping(me, Receiving)])
  }

  /** The copy, the error signal and the resume that end a rendezvous of p and t. */
  function DoFinish(s: State, t: Tid, p: Tid, sends: bool, fault: bool): State
    requires t in s.tcbs && p in s.tcbs
  {
    var me, you := s.tcbs[t], s.tcbs[p];
    var ret := if sends then Outcome(you.typ, me.typ, fault) else Outcome(me.typ, you.typ, fault);
    var you' := Signalled(you, ret).(phase := Woken, due := ret, msg := if sends then Copied(you, me, t, fault) else you.msg);
    var me' := me.(phase := Free, due := ret, msg := if sends then me.msg else Copied(me, you, p, fault));
    s.(tcbs := s.tcbs[p := you'][t := me'])
  }

  /** wake_up_task with WAKEUP_INTERRUPT. */
  function DoInterrupt(s: State, t: Tid): State
    requires t in s.tcbs && (s.tcbs[t].phase.Sending? ==> s.tcbs[t].phase.to in s.queue)
  {
    var me := s.tcbs[t];
    s.(tcbs := s.tcbs[t := me.(phase := Woken, interrupted := true, due := EINTR)],
       queue := if me.phase.Sending? then s.queue[me.phase.to := Drop(s.queue[me.phase.to], t)] else s.queue)
  }

  function Do(s: State, st: Step): State
    requires Enabled(s, st)
  {
    match st
    case Enter(t, msg, typ, efault, enoipc) =>
      s.(tcbs := s.tcbs[t := s.tcbs[t].(msg := msg, typ := typ, efault := efault, enoipc := enoipc)])
    case Send(t, to) => DoSend(s, t, to)
    case Recv(t, from) => DoRecv(s, t, from)
    case Finish(t, fault) => DoFinish(s, t, s.tcbs[t].phase.partner, s.tcbs[t].phase.sends, fault)
    case Interrupt(t) => DoInterrupt(s, t)
    case Return(t) => s.(tcbs := s.tcbs[t := Handled(s.tcbs[t]).1.(phase := Free)])
  }

  // ---------------------------------------------------------------------------
  // The invariant
  // ---------------------------------------------------------------------------

  /** The queue of r holds exactly the tasks that sleep in a send to r. */
  ghost predicate QueueOk(s: State, r: Tid)
    requires r in s.queue
  {
    && r in s.tcbs && NoDup(s.queue[r])
    && (forall t :: t in s.queue[r] ==> t in s.tcbs && s.tcbs[t].phase == Sending(r))
    && (s.tcbs[r].phase == Receiving ==> forall t :: t in s.queue[r] ==> !Accepts(s.tcbs[r].expected, t))
  }

  ghost predicate TaskOk(s: State, t: Tid)
    requires t in s.tcbs
  {
    var me := s.tcbs[t];
    && t in s.queue && |me.msg.regs| == MR_TOTAL
    && (me.phase != Woken ==> !me.interrupted)
    && match me.phase
       case Free => true
       case Sending(to) => to in s.queue && t in s.queue[to] && to != t && me.msg == me.sent && me.base == (me.efault, me.enoipc)
       case Receiving => me.base == (me.efault, me.enoipc)
       case Held(taker) =>
         && taker in s.tcbs && s.tcbs[taker].phase.Taking? && s.tcbs[taker].phase.partner == t && me.base == (me.efault, me.enoipc)
         && (!s.tcbs[taker].phase.sends ==> me.msg == me.sent)
       case Taking(p, sends) => p in s.tcbs && s.tcbs[p].phase == Held(t) && me.msg == me.sent
       case Woken =>
         if me.interrupted then me.due == EINTR
         else
           && me.due in {OK, EFAULT, ENOIPC}
           && me.efault == (me.base.0 || me.due == EFAULT) && me.enoipc == (me.base.1 || me.due == ENOIPC)
  }

  ghost predicate Inv(s: State) {
    && (forall r {:trigger QueueOk(s, r)} :: r in s.queue ==> QueueOk(s, r))
    && (forall t {:trigger TaskOk(s, t)} :: t in s.tcbs ==> TaskOk(s, t))
  }
}
