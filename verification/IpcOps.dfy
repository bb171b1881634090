/**
 ipc.c as it runs: the current task's calls update queues, flags and registers in place.
 */
module IpcOps {
  import opened Ipc
  import opened IpcRuns

  class Rendezvous {
    var tcbs: map<Tid, Tcb>
    var queue: map<Tid, seq<Tid>>

    function Now(): State
      reads this
    {
      State(tcbs, queue)
    }

    /** The loop of ipc_recv over the senders' queue. */
    method LookFor(q: seq<Tid>, e: Expected) returns (k: nat)
      ensures k == FindFrom(q, e, 0)
    {
      k := 0;
      while k < |q|
        invariant k <= |q| && FindFrom(q, e, 0) == FindFrom(q, e, k)
      {
        if Accepts(e, q[k]) { return; }
        k := k + 1;
      }
    }

    /** ipc_send up to the end of its locked section. */
    method BeginSend(t: Tid, to: Tid) returns (meets: bool)
      requires Enabled(Now(), Send(t, to))
      modifies this
      ensures Now() == DoSend(old(Now()), t, to) && t in tcbs && (meets <==> tcbs[t].phase.Taking?)
    {
      var me, receiver := Entered(tcbs[t]), tcbs[to];
      meets := receiver.phase == Receiving && Accepts(receiver.expected, t);
      if meets {
        receiver := receiver.(phase := Held(t));
        me := me.(phase := Taking(to, true));
        tcbs := tcbs[to := receiver];
      } else {
        queue := queue[to := queue[to] + [t]];
        me := me.(phase := Sending(to));
      }
      tcbs := tcbs[t := me];
    }

    /** ipc_recv up to the end of its locked section. */
    method BeginRecv(t: Tid, from: Expected) returns (meets: bool)
      requires Inv(Now()) && Enabled(Now(), Recv(t, from))
      modifies this
      ensures Now() == DoRecv(old(Now()), t, from) && t in tcbs && (meets <==> tcbs[t].phase.Taking?)
    {
      hide Inv, TaskOk;
      SendersLive(Now(), t);
      var me := Entered(tcbs[t].(expected := from));
      var q := queue[t];
      var k := LookFor(q, from);
      meets := k < |q|;
      if meets {
        assert q[k] in q;
        var sleeper := tcbs[q[k]].(phase := Held(t));
        queue := queue[t := q[..k] + q[k + 1..]];
        me := me.(phase := Taking(q[k], false));
        tcbs := tcbs[q[k] := sleeper];
      } else {
        me := me.(phase := Receiving);
      }
      tcbs := tcbs[t := me];
    }

    /** ipc_msg_copy; `fault` tells whether a utcb access would fault. */
    method MsgCopy(to: Tid, from: Tid, fault: bool) returns (ret: int)
      requires to in tcbs && from in tcbs && to != from && |tcbs[to].msg.regs| == MR_TOTAL && |tcbs[from].msg.regs| == MR_TOTAL
      modifies `tcbs
      ensures ret == Outcome(old(tcbs)[to].typ, old(tcbs)[from].typ, fault)
      ensures tcbs == old(tcbs)[to := old(tcbs)[to].(msg := Copied(old(tcbs)[to], old(tcbs)[from], from, fault))]
    {
      ret := OK;
      var m, src := tcbs[to].msg, tcbs[from].msg;
      var sendType := tcbs[from].typ;
      match tcbs[to].typ {
        case Short =>
          if sendType == Extended {
            ret := ENOIPC;
          } else {
            m := m.(regs := src.regs);
            if sendType == Full {
              if fault { ret := EFAULT; } else { m := m.(rest := src.rest); }
            }
          }
        case Full =>
          if sendType == Extended {
            ret := ENOIPC;
          } else {
            m := m.(regs := src.regs);
            if fault { ret := EFAULT; } else { m := m.(rest := src.rest); }
          }
        case Extended =>
          if sendType == Extended {
            m := m.(regs := src.regs);
            m := m.(ext := Overlay(m.ext, src.ext));
          } else {
            ret := ENOIPC;
          }
      }
      if tcbs[to].expected == AnyThread { m := m.(regs := m.regs[MR_SENDER := from]); }
      tcbs := tcbs[to := tcbs[to].(msg := m)];
    }

    /** The end of ipc_send: copy to the receiver that was waiting, and wake it up. */
    method EndSend(t: Tid, p: Tid, fault: bool) returns (ret: int)
      requires Inv(Now()) && t in tcbs && tcbs[t].phase == Taking(p, true)
      modifies this
      ensures p in old(tcbs) && Now() == DoFinish(old(Now()), t, p, true, fault) && t in tcbs && ret == tcbs[t].due
    {
      hide Copied, Outcome, Inv, Enabled, DoFinish, Signalled;
      ghost var s := Now();
      PartnerReady(Now(), t);
      OutcomeValues(tcbs[p].typ, tcbs[t].typ, fault);
      ret := MsgCopy(p, t, fault);
      var receiver := tcbs[p];
      NoErrorNoSignal(receiver);
      if ret < 0 { receiver := SignalError(receiver, ret); }
      SendFinished(s, t, p, fault);
      LastUpdateStays(s.tcbs, p, tcbs[p], receiver.(phase := Woken, due := ret));
      tcbs := tcbs[p := receiver.(phase := Woken, due := ret)][t := tcbs[t].(phase := Free, due := ret)];
    }

    /** The end of ipc_recv: copy from the sender that was queued, and wake it up. */
    method EndRecv(t: Tid, p: Tid, fault: bool) returns (ret: int)
      requires Inv(Now()) && t in tcbs && tcbs[t].phase == Taking(p, false)
      modifies this
      ensures p in old(tcbs) && Now() == DoFinish(old(Now()), t, p, false, fault) && t in tcbs && ret == tcbs[t].due
    {
      hide Copied, Outcome, Inv, Enabled;
      ghost var s := Now();
      PartnerReady(Now(), t);
      OutcomeValues(tcbs[t].typ, tcbs[p].typ, fault);
      ret := MsgCopy(t, p, fault);
      var sleeper := tcbs[p];
      if ret < 0 { sleeper := SignalError(sleeper, ret); }
      assert sleeper == Signalled(s.tcbs[p], ret);
      tcbs := tcbs[p := sleeper.(phase := Woken, due := ret)][t := tcbs[t].(phase := Free, due := ret)];
    }

    /** ipc_signal_error. */
    method SignalError(sleeper: Tcb, ret: int) returns (r: Tcb)
      requires ret in {EFAULT, ENOIPC}
      ensures r == Signalled(sleeper, ret)
    {
      assert ret == EFAULT || ret == ENOIPC;
      r := sleeper;
      if ret == EFAULT { r := r.(efault := true); }
      if ret == ENOIPC { r := r.(enoipc := true); }
    }

    /** ipc_handle_errors, run by a woken task. */
    method HandleErrors(t: Tid) returns (ret: int)
      requires Enabled(Now(), Return(t))
      modifies `tcbs
      ensures Now() == Do(old(Now()), Return(t)) && ret == Handled(old(tcbs)[t]).0
    {
      var me := tcbs[t];
      if me.interrupted {
        me, ret := me.(interrupted := false), EINTR;
      } else if me.efault {
        me, ret := me.(efault := false), EFAULT;
      } else if me.enoipc {
        me, ret := me.(enoipc := false), ENOIPC;
      } else {
        ret := OK;
      }
      tcbs := tcbs[t := me.(phase := Free)];
    }
  }

  /** History: the message and the error flags that a call starts with. */
  function Entered(me: Tcb): Tcb {
    me.(sent := me.msg, base := (me.efault, me.enoipc))
  }

  lemma LastUpdateStays(m: map<Tid, Tcb>, p: Tid, x: Tcb, y: Tcb)
    ensures m[p := x][p := y] == m[p := y]
  {
  }

  lemma NoErrorNoSignal(t: Tcb)
    ensures Signalled(t, OK) == t
  {
  }

  /** What the end of a send leaves, written down in the order of the code. */
  lemma SendFinished(s: State, t: Tid, p: Tid, fault: bool)
    requires t in s.tcbs && p in s.tcbs && p != t
    ensures var ret := Outcome(s.tcbs[p].typ, s.tcbs[t].typ, fault);
            var receiver := Signalled(s.tcbs[p].(msg := Copied(s.tcbs[p], s.tcbs[t], t, fault)), ret);
            DoFinish(s, t, p, true, fault) == s.(tcbs := s.tcbs[p := receiver.(phase := Woken, due := ret)][t := s.tcbs[t].(phase := Free, due := ret)])
  {
    hide Copied, Outcome;
  }

  lemma SendersLive(s: State, t: Tid)
    requires Inv(s) && t in s.queue
    ensures forall x :: x in s.queue[t] ==> x in s.tcbs && (t in s.tcbs && s.tcbs[t].phase == Free ==> x != t)
  {
    assert QueueOk(s, t);
  }

  lemma PartnerReady(s: State, t: Tid)
    requires Inv(s) && t in s.tcbs && s.tcbs[t].phase.Taking?
    ensures var p := s.tcbs[t].phase.partner;
            && p in s.tcbs && p != t && |s.tcbs[p].msg.regs| == MR_TOTAL && |s.tcbs[t].msg.regs| == MR_TOTAL
  {
    assert TaskOk(s, t) && TaskOk(s, s.tcbs[t].phase.partner);
  }
}
