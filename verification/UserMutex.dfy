/**
 User mutexes as the kernel serves them (src/api/mutex.c). Unlockers and contenders arrive
 in any order; a record per address keeps whoever came too early. Calls on one container
 are serialised by mutex_control_mutex up to the point where the caller sleeps.
 */
module UserMutex {
  import opened Basics

  type Tid = nat
  type Addr = nat

  /** A mutex_queue: contenders still to wake up and the two waitqueues. */
  datatype Record = Record(contenders: int, holders: seq<Tid>, waiters: seq<Tid>)

  /** The record of one address and its history: who entered the kernel to lock, how many
      contenders unlockers announced, and who was let through, in order. */
  datatype Slot = Slot(rec: Option<Record>, arrivals: seq<Tid>, given: int, released: seq<Tid>)

  // ---------------------------------------------------------------------------
  // Operations
  // ---------------------------------------------------------------------------

  /** mutex_control_lock. */
  function LockSlot(s: Slot, t: Tid): Slot {
    var s' := s.(arrivals := s.arrivals + [t]);
    if s.rec.None? then s'.(rec := Some(Record(0, [], [t])))
    else
      var r := s.rec.value;
      if r.holders != [] then
        s'.(rec := if r.contenders - 1 == 0 then None else Some(r.(contenders := r.contenders - 1)), released := s.released + [t])
      else s'.(rec := Some(r.(waiters := r.waiters + [t])))
  }

  /** The wake-up loop of mutex_control_unlock. */
  function WakeLoop(r: Record, released: seq<Tid>): (Record, seq<Tid>)
    decreases |r.waiters|
  {
    if r.contenders != 0 && r.waiters != [] then
      WakeLoop(r.(contenders := r.contenders - 1, waiters := r.waiters[1..]), released + [r.waiters[0]])
    else (r, released)
  }

  /** A record that n more contenders are announced to; its holder, if any, is let go. */
  function Joined(r: Record, n: nat): Record {
    r.(contenders := r.contenders + n, holders := if r.holders == [] then [] else r.holders[1..])
  }

  /** mutex_control_unlock by t, who counted n contenders in user space. */
  function UnlockSlot(s: Slot, t: Tid, n: nat): Slot {
    var s' := s.(given := s.given + n);
    if s.rec.None? then s'.(rec := Some(Record(n, [t], [])))
    else
      var woken := WakeLoop(Joined(s.rec.value, n), s.released);
      if woken.0.contenders == 0 then
        s'.(rec := if woken.0.waiters == [] then None else Some(woken.0), released := woken.1)
      else s'.(rec := Some(woken.0.(holders := woken.0.holders + [t])), released := woken.1)
  }

  // ---------------------------------------------------------------------------
  // Conservation
  // ---------------------------------------------------------------------------

  function Min(a: int, b: int): int { if a <= b then a else b }

  /** As many contenders are let through as both sides allow, first come first served. A
      record exists exactly while the two sides differ; it holds either the contenders
      in excess or one unlocker that waits for the missing ones. */
  ghost predicate Conserved(s: Slot) {
    && 0 <= s.given
    && s.released == s.arrivals[..Min(|s.arrivals|, s.given)]
    && (s.rec.None? <==> |s.arrivals| == s.given)
    && (s.rec.Some? ==>
          var r := s.rec.value;
          && (|s.arrivals| > s.given ==> r.contenders == 0 && r.holders == [] && r.waiters == s.arrivals[s.given..])
          && (|s.arrivals| < s.given ==> r.contenders == s.given - |s.arrivals| && |r.holders| == 1 && r.waiters == []))
  }

  lemma LockConserves(s: Slot, t: Tid)
    requires Conserved(s)
    ensures Conserved(LockSlot(s, t)) && LockSlot(s, t).arrivals == s.arrivals + [t] && LockSlot(s, t).given == s.given
  {
    var s' := LockSlot(s, t);
    var a, a' := s.arrivals, s'.arrivals;
    if s.rec.None? {
      assert a'[s.given..] == [t] && a'[..s.given] == a;
    } else if s.rec.value.holders != [] {
      assert a'[..|a'|] == a' && a[..|a|] == a;
    } else {
      assert a'[s.given..] == a[s.given..] + [t] && a'[..s.given] == a[..s.given];
    }
  }

  /** The loop moves the first min(contenders, waiters) waiters over. */
  lemma {:induction false} WakeLoopMoves(r: Record, released: seq<Tid>)
    requires r.contenders >= 0
    ensures var k := Min(r.contenders, |r.waiters|);
            WakeLoop(r, released) == (r.(contenders := r.contenders - k, waiters := r.waiters[k..]), released + r.waiters[..k])
    decreases |r.waiters|
  {
    if r.contenders != 0 && r.waiters != [] {
      var r1 := r.(contenders := r.contenders - 1, waiters := r.waiters[1..]);
      var k := Min(r.contenders, |r.waiters|);
      WakeLoopMoves(r1, released + [r.waiters[0]]);
      assert r.waiters[1..][k - 1..] == r.waiters[k..];
      assert [r.waiters[0]] + r.waiters[1..][..k - 1] == r.waiters[..k];
      assert released + [r.waiters[0]] + r.waiters[1..][..k - 1] == released + ([r.waiters[0]] + r.waiters[1..][..k - 1]);
    } else {
      assert released + [] == released;
    }
  }

  lemma UnlockConserves(s: Slot, t: Tid, n: nat)
    requires Conserved(s) && (n > 0 || s.rec.Some?)
    ensures Conserved(UnlockSlot(s, t, n)) && UnlockSlot(s, t, n).arrivals == s.arrivals && UnlockSlot(s, t, n).given == s.given + n
  {
    var s' := UnlockSlot(s, t, n);
    var a := s.arrivals;
    if s.rec.None? {
      assert a[..|a|] == a;
    } else {
      var r := s.rec.value;
      var r0 := r.(contenders := r.contenders + n, holders := if r.holders == [] then [] else r.holders[1..]);
      WakeLoopMoves(r0, s.released);
      var k := Min(r0.contenders, |r0.waiters|);
      if |a| > s.given {
        assert a[..s.given] + a[s.given..][..k] == a[..s.given + k];
        assert a[s.given..][k..] == a[s.given + k..];
      } else {
        assert s.released + [] == s.released;
      }
    }
  }

  /** Contenders are still to come exactly if more were announced than entered. */
  lemma WhoIsLeft(s: Slot, n: nat)
    requires Conserved(s) && s.rec.Some?
    ensures var left := WakeLoop(Joined(s.rec.value, n), s.released).0;
            && Joined(s.rec.value, n).contenders >= 0 && left.holders == [] && left.contenders >= 0
            && (left.contenders == 0 <==> s.given + n <= |s.arrivals|)
  {
    WakeLoopMoves(Joined(s.rec.value, n), s.released);
  }

  /** The promise breaks on exactly one kind of call: an unlock that announces nobody
      while the address has no record leaves its caller asleep with nobody to wait for. */
  lemma UnlockConservesIff(s: Slot, t: Tid, n: nat)
    requires Conserved(s)
    ensures Conserved(UnlockSlot(s, t, n)) <==> (n > 0 || s.rec.Some?)
  {
    if n > 0 || s.rec.Some? { UnlockConserves(s, t, n); }
  }

  // ---------------------------------------------------------------------------
  // Runs
  // ---------------------------------------------------------------------------

  datatype Step = Lock(addr: Addr, t: Tid) | Unlock(addr: Addr, t: Tid, n: nat)

  const FRESH := Slot(None, [], 0, [])

  function At(m: map<Addr, Slot>, a: Addr): Slot {
    if a in m then m[a] else FRESH
  }

  function Do(m: map<Addr, Slot>, st: Step): map<Addr, Slot> {
    match st
    case Lock(a, t) => m[a := LockSlot(At(m, a), t)]
    case Unlock(a, t, n) => m[a := UnlockSlot(At(m, a), t, n)]
  }

  function After(sts: seq<Step>): map<Addr, Slot> {
    if sts == [] then map[] else Do(After(sts[..|sts| - 1]), sts[|sts| - 1])
  }

  function Locks(sts: seq<Step>, a: Addr): seq<Tid> {
    if sts == [] then []
    else
      var last := sts[|sts| - 1];
      Locks(sts[..|sts| - 1], a) + if last.Lock? && last.addr == a then [last.t] else []
  }

  function Announced(sts: seq<Step>, a: Addr): nat {
    if sts == [] then 0
    else
      var last := sts[|sts| - 1];
      Announced(sts[..|sts| - 1], a) + if last.Unlock? && last.addr == a then last.n else 0
  }

  /** Call i does not announce nobody on address a while the two sides of a are even. */
  predicate Serves(sts: seq<Step>, i: nat, a: Addr)
    requires i < |sts|
  {
    sts[i].Unlock? && sts[i].addr == a && sts[i].n == 0 ==> |Locks(sts[..i], a)| != Announced(sts[..i], a)
  }

  /** Over every run, per address: the contenders let through are the first
      min(lock entries, announced contenders) that entered, in their order. */
  lemma {:induction false} RunConserves(sts: seq<Step>, a: Addr)
    requires forall i :: 0 <= i < |sts| ==> Serves(sts, i, a)
    ensures var s := At(After(sts), a);
            && Conserved(s) && s.arrivals == Locks(sts, a) && s.given == Announced(sts, a)
            && s.released == Locks(sts, a)[..Min(|Locks(sts, a)|, Announced(sts, a))]
  {
    hide LockSlot, UnlockSlot;
    if sts == [] {
    } else {
      var k := |sts| - 1;
      forall i | 0 <= i < k ensures Serves(sts[..k], i, a) {
        assert Serves(sts, i, a) && sts[..k][..i] == sts[..i];
      }
      RunConserves(sts[..k], a);
      var s := At(After(sts[..k]), a);
      assert Serves(sts, k, a);
      match sts[k]
      case Lock(x, t) => if x == a { LockConserves(s, t); } else { assert Locks(sts, a) == Locks(sts[..k], a) + []; }
      case Unlock(x, t, n) =>
        assert Locks(sts, a) == Locks(sts[..k], a) + [];
        if x == a { UnlockConserves(s, t, n); }
    }
  }

  /** And that is the exact condition: if call k is the first that does not serve, the address
      is conserved up to it and not behind it. */
  lemma RunConservesUntil(sts: seq<Step>, k: nat, a: Addr)
    requires k < |sts| && (forall i :: 0 <= i < k ==> Serves(sts, i, a))
    ensures Conserved(At(After(sts[..k]), a))
    ensures Conserved(At(After(sts[..k + 1]), a)) <==> Serves(sts, k, a)
  {
    hide LockSlot, UnlockSlot, Conserved;
    var before := sts[..k];
    forall i | 0 <= i < k ensures Serves(before, i, a) {
      assert Serves(sts, i, a) && before[..i] == sts[..i];
    }
    RunConserves(before, a);
    assert sts[..k + 1][..k] == before && sts[..k + 1][k] == sts[k];
    var s := At(After(before), a);
    match sts[k]
    case Lock(x, t) => if x == a { LockConserves(s, t); }
    case Unlock(x, t, n) => if x == a { UnlockConservesIff(s, t, n); EvenMeansNone(s); }
  }

  /** The first call on an address, an unlock that announces nobody: its caller sleeps, and no
      number of locks announced or entered will account for it. */
  lemma ZeroUnlockStrands(a: Addr, t: Tid)
    ensures var s := At(After([Unlock(a, t, 0)]), a);
            !Conserved(s) && s.rec == Some(Record(0, [t], [])) && s.arrivals == [] && s.given == 0
  {
    var sts := [Unlock(a, t, 0)];
    assert sts[..0] == [] && After(sts[..0]) == map[];
    assert After(sts) == Do(After(sts[..0]), sts[0]);
  }

  lemma EvenMeansNone(s: Slot)
    requires Conserved(s)
    ensures s.rec.None? <==> |s.arrivals| == s.given
  {
  }

  // ---------------------------------------------------------------------------
  // The calls as they run
  // ---------------------------------------------------------------------------

  datatype Result = NoMemory | Return | Sleep

  /** The kernel's record of an address is the one that its history calls for. */
  ghost predicate Agrees(records: map<Addr, Record>, slots: map<Addr, Slot>, a: Addr) {
    Conserved(At(slots, a)) && (At(slots, a).rec == if a in records then Some(records[a]) else None)
  }

  lemma OthersAgree(records: map<Addr, Record>, slots: map<Addr, Slot>, records': map<Addr, Record>, slots': map<Addr, Slot>, addr: Addr)
    requires forall a {:trigger Agrees(records, slots, a)} :: Agrees(records, slots, a)
    requires forall a :: a != addr ==> (a in records <==> a in records') && (a in records ==> records'[a] == records[a])
    requires forall a :: a != addr ==> (a in slots <==> a in slots') && (a in slots ==> slots'[a] == slots[a])
    requires Agrees(records', slots', addr)
    ensures forall a {:trigger Agrees(records', slots', a)} :: Agrees(records', slots', a)
  {
    forall a ensures Agrees(records', slots', a) {
      if a != addr { assert Agrees(records, slots, a); }
    }
  }

  class MutexControl {
    var records: map<Addr, Record>
    ghost var slots: map<Addr, Slot>

    ghost predicate Valid()
      reads this
    {
      forall a {:trigger Agrees(records, slots, a)} :: Agrees(records, slots, a)
    }

    constructor ()
      ensures Valid() && slots == map[]
    {
      records := map[];
      slots := map[];
    }

    /** mutex_control_delete's checks on a record that leaves the list. */
    method Delete(addr: Addr)
      requires addr in records && records[addr].holders == [] && records[addr].waiters == []
      modifies `records
      ensures records == map a | a in old(records) && a != addr :: old(records)[a]
    {
      assert |records[addr].waiters| == 0 && |records[addr].holders| == 0;
      records := map a | a in records && a != addr :: records[a];
    }

    method Lock(addr: Addr, t: Tid, memory: bool) returns (r: Result)
      requires Valid()
      modifies this
      ensures Valid()
      ensures r == NoMemory <==> !memory && |At(old(slots), addr).arrivals| == At(old(slots), addr).given
      ensures slots == if r == NoMemory then old(slots) else Do(old(slots), Step.Lock(addr, t))
      ensures r == Return <==> |At(old(slots), addr).arrivals| < At(old(slots), addr).given
    {
      ghost var s := At(slots, addr);
      assert Agrees(records, slots, addr);
      if addr !in records {
        if !memory { return NoMemory; }
        records := records[addr := Record(0, [], [])];
      } else if |records[addr].holders| > 0 {
        records := records[addr := records[addr].(contenders := records[addr].contenders - 1)];
        if records[addr].contenders == 0 {
          records := records[addr := records[addr].(holders := records[addr].holders[1..])];
          Delete(addr);
        }
        LockConserves(s, t);
        slots := slots[addr := LockSlot(s, t)];
        OthersAgree(old(records), old(slots), records, slots, addr);
        return Return;
      }
      records := records[addr := records[addr].(waiters := records[addr].waiters + [t])];
      LockConserves(s, t);
      slots := slots[addr := LockSlot(s, t)];
      assert [] + [t] == [t];
      OthersAgree(old(records), old(slots), records, slots, addr);
      return Sleep;
    }

    /** The wake-up loop, on the record of one address. */
    method WakeContenders(addr: Addr, ghost released: seq<Tid>)
      requires addr in records && records[addr].contenders >= 0
      modifies `records
      ensures records == old(records)[addr := WakeLoop(old(records)[addr], released).0]
    {
      ghost var goal := WakeLoop(records[addr], released);
      ghost var out := released;
      while records[addr].contenders != 0 && |records[addr].waiters| > 0
        invariant addr in records && records == old(records)[addr := records[addr]] && WakeLoop(records[addr], out) == goal
        decreases |records[addr].waiters|
      {
        out := out + [records[addr].waiters[0]];
        records := records[addr := records[addr].(contenders := records[addr].contenders - 1)];
        records := records[addr := records[addr].(waiters := records[addr].waiters[1..])];
      }
    }

    /** mutex_control_unlock. A call that announces nobody while the two sides are even leaves
        its caller asleep with nobody to wait for. */
    method Unlock(addr: Addr, t: Tid, n: nat, memory: bool) returns (r: Result)
      requires Valid()
      modifies this
      ensures r == NoMemory <==> !memory && |At(old(slots), addr).arrivals| == At(old(slots), addr).given
      ensures slots == if r == NoMemory then old(slots) else Do(old(slots), Step.Unlock(addr, t, n))
      ensures Valid() <==> r == NoMemory || n > 0 || |At(old(slots), addr).arrivals| != At(old(slots), addr).given
      ensures Valid() ==> (r == Return <==> At(old(slots), addr).given + n <= |At(old(slots), addr).arrivals| && r != NoMemory)
      ensures !Valid() ==> r == Sleep && records == old(records)[addr := Record(0, [t], [])]
    {
      ghost var s := At(slots, addr);
      assert Agrees(records, slots, addr);
      UnlockConservesIff(s, t, n);
      if addr !in records {
        if !memory { return NoMemory; }
        records := records[addr := Record(n, [], [])];
        records := records[addr := records[addr].(holders := records[addr].holders + [t])];
        slots := slots[addr := UnlockSlot(s, t, n)];
        assert [] + [t] == [t];
        if n > 0 { OthersAgree(old(records), old(slots), records, slots, addr); } else { assert !Agrees(records, slots, addr); }
        return Sleep;
      }
      r := Rendezvous(addr, t, n);
    }

    /** The rest of it, where a record exists: wake whom there is to wake, then leave or sleep. */
    method Rendezvous(addr: Addr, t: Tid, n: nat) returns (r: Result)
      requires Valid() && addr in records
      modifies this
      ensures Valid() && slots == Do(old(slots), Step.Unlock(addr, t, n))
      ensures r == if At(old(slots), addr).given + n <= |At(old(slots), addr).arrivals| then Return else Sleep
    {
      hide Conserved, WakeLoop;
      ghost var s := At(slots, addr);
      assert Agrees(records, slots, addr);
      UnlockConserves(s, t, n);
      WhoIsLeft(s, n);
      records := records[addr := records[addr].(contenders := records[addr].contenders + n)];
      if |records[addr].holders| > 0 {
        records := records[addr := records[addr].(holders := records[addr].holders[1..])];
      }
      assert records[addr] == Joined(s.rec.value, n);
      WakeContenders(addr, s.released);
      slots := slots[addr := UnlockSlot(s, t, n)];
      if records[addr].contenders == 0 {
        if |records[addr].waiters| == 0 {
          Delete(addr);
        }
        r := Return;
      } else {
        records := records[addr := records[addr].(holders := records[addr].holders + [t])];
        r := Sleep;
      }
      OthersAgree(old(records), old(slots), records, slots, addr);
    }
  }
}
