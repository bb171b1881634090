/**
 Overlapping calls on one memory cache (src/lib/memcache.c). mem_cache_alloc looks at the
 free count before it takes the mutex; only then come the count and the bitmap. A step is
 that test, one section under the mutex, or the return of a caller whose lock was
 interrupted; callers of any number interleave freely.

 The test reads the free count alone, and each section writes it once, so a test amid a
 section sees what it would see before or after it.
 */
module CacheCalls {
  import opened Basics

  type Tid = nat

  /** The count of free elements and the bits that are set. */
  datatype Cache = Cache(total: nat, free: int, used: set<nat>)

  /** Callers past the test; `live` is history: the elements handed out and not yet freed. */
  datatype Calls = Calls(cache: Cache, past: set<Tid>, live: multiset<nat>)

  /** The least clear bit at or behind i, as find_and_set_first_free_bit finds it. */
  function FirstClear(c: Cache, i: nat): (r: Option<nat>)
    requires i <= c.total
    ensures r.Some? ==> i <= r.value < c.total && r.value !in c.used && forall j :: i <= j < r.value ==> j in c.used
    ensures r.None? ==> forall j :: i <= j < c.total ==> j in c.used
    decreases c.total - i
  {
    if i == c.total then None else if i !in c.used then Some(i) else FirstClear(c, i + 1)
  }

  /** The section of mem_cache_alloc: one element fewer is free, and its bit is set. */
  function Taken(c: Cache): Cache {
    var bit := FirstClear(c, 0);
    c.(free := c.free - 1, used := if bit.Some? then c.used + {bit.value} else c.used)
  }

  /** The section of mem_cache_free for bit i; a clear bit is an error and changes nothing. */
  function Given(c: Cache, i: nat): Cache {
    if i in c.used then c.(free := c.free + 1, used := c.used - {i}) else c
  }

  datatype Step = Test(t: Tid) | Lock(t: Tid) | GiveUp(t: Tid) | Free(i: nat)

  predicate Enabled(s: Calls, st: Step) {
    match st
    case Test(t) => t !in s.past
    case Lock(t) => t in s.past
    case GiveUp(t) => t in s.past
    case Free(_) => true
  }

  function Do(s: Calls, st: Step): Calls
    requires Enabled(s, st)
  {
    match st
    case Test(t) => if s.cache.free > 0 then s.(past := s.past + {t}) else s
    case Lock(t) =>
      var bit := FirstClear(s.cache, 0);
      Calls(Taken(s.cache), s.past - {t}, if bit.Some? then s.live + multiset{bit.value} else s.live)
    case GiveUp(t) => s.(past := s.past - {t})
    case Free(i) => s.(cache := Given(s.cache, i), live := if i in s.cache.used then s.live - multiset{i} else s.live)
  }

  /** The two checks for an anomaly: a bit is clear when the count said so, and no more than
      all elements become free. */
  predicate ChecksPass(s: Calls, st: Step)
    requires Enabled(s, st)
  {
    match st
    case Lock(_) => FirstClear(s.cache, 0).Some?
    case Free(i) => i in s.cache.used ==> s.cache.free + 1 <= s.cache.total
    case _ => true
  }

  // ---------------------------------------------------------------------------
  // The invariant
  // ---------------------------------------------------------------------------

  ghost function Below(n: nat): (s: set<nat>)
    ensures forall i :: i in s <==> 0 <= i < n
  {
    if n == 0 then {} else Below(n - 1) + {n - 1}
  }

  lemma {:induction false} BelowSize(n: nat)
    ensures |Below(n)| == n
  {
    if n > 0 {
      BelowSize(n - 1);
    }
  }

  lemma SubsetSize(s: set<nat>, n: nat)
    requires forall i :: i in s ==> i < n
    ensures |s| <= n && (|s| == n <==> s == Below(n))
  {
    BelowSize(n);
    var rest := Below(n) - s;
    assert Below(n) == s + rest;
    assert |Below(n)| == |s| + |rest|;
    if s != Below(n) {
      var i :| i in Below(n) && i !in s;
      assert i in rest;
    }
  }

  ghost predicate CacheOk(c: Cache) {
    (forall i :: i in c.used ==> i < c.total) && c.free == c.total - |c.used|
  }

  /** The count is exact, and nobody else holds what somebody holds. */
  ghost predicate Inv(s: Calls) {
    CacheOk(s.cache) && s.live == multiset(s.cache.used)
  }

  lemma ClearIffFree(c: Cache)
    requires CacheOk(c)
    ensures c.free >= 0 && (FirstClear(c, 0).Some? <==> c.free > 0)
  {
    SubsetSize(c.used, c.total);
    if FirstClear(c, 0).None? { assert c.used == Below(c.total); }
  }

  /** Where a check fails a caller past the test finds no element left. */
  lemma ChecksPassIff(s: Calls, st: Step)
    requires Inv(s) && Enabled(s, st)
    ensures ChecksPass(s, st) <==> !(st.Lock? && s.cache.free == 0)
  {
    ClearIffFree(s.cache);
    if st.Free? && st.i in s.cache.used { assert |s.cache.used - {st.i}| == |s.cache.used| - 1; }
  }

  lemma StepInv(s: Calls, st: Step)
    requires Inv(s) && Enabled(s, st) && ChecksPass(s, st)
    ensures Inv(Do(s, st)) && Do(s, st).cache.total == s.cache.total
    ensures st.Lock? ==> exists i :: i < s.cache.total && s.live[i] == 0 && Do(s, st).live == s.live + multiset{i}
  {
    var c := s.cache;
    match st
    case Lock(t) =>
      var i := FirstClear(c, 0).value;
      assert s.live[i] == 0;
      assert multiset(c.used + {i}) == multiset(c.used) + multiset{i};
    case Free(i) => if i in c.used { assert multiset(c.used - {i}) == multiset(c.used) - multiset{i}; }
    case _ =>
  }

  // ---------------------------------------------------------------------------
  // Runs
  // ---------------------------------------------------------------------------

  ghost predicate StepAt(ss: seq<Calls>, sts: seq<Step>, i: nat)
    requires i < |sts| && |ss| == |sts| + 1
  {
    Enabled(ss[i], sts[i]) && ChecksPass(ss[i], sts[i]) && ss[i + 1] == Do(ss[i], sts[i])
  }

  /** From a cache with nothing in use; a run ends where a check fails. */
  ghost predicate Run(ss: seq<Calls>, sts: seq<Step>) {
    && |ss| == |sts| + 1 && ss[0] == Calls(Cache(ss[0].cache.total, ss[0].cache.total, {}), {}, multiset{})
    && forall i {:trigger StepAt(ss, sts, i)} :: 0 <= i < |sts| ==> StepAt(ss, sts, i)
  }

  /** In every run the count is exact and no two live elements are the same. */
  lemma {:induction false} RunInv(ss: seq<Calls>, sts: seq<Step>, n: nat)
    requires Run(ss, sts) && n < |ss|
    ensures Inv(ss[n]) && ss[n].cache.total == ss[0].cache.total
    ensures forall i :: ss[n].live[i] <= 1
  {
    hide Do, ChecksPass;
    if n > 0 {
      RunInv(ss, sts, n - 1);
      assert StepAt(ss, sts, n - 1);
      StepInv(ss[n - 1], sts[n - 1]);
    }
  }

  /** In every run a check fails exactly if a caller past the test enters with nothing free. */
  lemma RunChecks(ss: seq<Calls>, sts: seq<Step>, n: nat, st: Step)
    requires Run(ss, sts) && n < |ss| && Enabled(ss[n], st)
    ensures ChecksPass(ss[n], st) <==> !(st.Lock? && ss[n].cache.free == 0)
  {
    RunInv(ss, sts, n);
    ChecksPassIff(ss[n], st);
  }

  // ---------------------------------------------------------------------------
  // Reservations
  // ---------------------------------------------------------------------------

  /** Elements in use and callers on their way to one. */
  function Claims(s: Calls): nat {
    |s.cache.used| + |s.past|
  }

  /** Step i is no passing test, or leaves room for all that are past the test already. */
  predicate ReservesAt(ss: seq<Calls>, sts: seq<Step>, i: nat)
    requires i < |sts| && |ss| == |sts| + 1
  {
    sts[i].Test? && ss[i].cache.free > 0 ==> Claims(ss[i]) < ss[i].cache.total
  }

  lemma ClaimsAfter(s: Calls, st: Step)
    requires Inv(s) && Enabled(s, st) && ChecksPass(s, st) && Claims(s) <= s.cache.total
    requires st.Test? && s.cache.free > 0 ==> Claims(s) < s.cache.total
    ensures Claims(Do(s, st)) <= s.cache.total
  {
    match st
    case Lock(t) => assert |s.past - {t}| == |s.past| - 1;
    case GiveUp(t) => assert |s.past - {t}| == |s.past| - 1;
    case Free(i) => if i in s.cache.used { assert |s.cache.used - {i}| == |s.cache.used| - 1; }
    case Test(t) =>
  }

  lemma {:induction false} RunClaims(ss: seq<Calls>, sts: seq<Step>, n: nat)
    requires Run(ss, sts) && n < |ss| && forall i :: 0 <= i < n ==> ReservesAt(ss, sts, i)
    ensures Claims(ss[n]) <= ss[0].cache.total
  {
    hide Do, ChecksPass;
    if n > 0 {
      RunClaims(ss, sts, n - 1);
      RunInv(ss, sts, n - 1);
      assert StepAt(ss, sts, n - 1) && ReservesAt(ss, sts, n - 1);
      StepInv(ss[n - 1], sts[n - 1]);
      ClaimsAfter(ss[n - 1], sts[n - 1]);
    }
  }

  /** No check ever fails while every passing test leaves room for all past the test. */
  lemma ReservedNeverFails(ss: seq<Calls>, sts: seq<Step>, n: nat, st: Step)
    requires Run(ss, sts) && n < |ss| && Enabled(ss[n], st) && forall i :: 0 <= i < n ==> ReservesAt(ss, sts, i)
    ensures ChecksPass(ss[n], st)
  {
    RunClaims(ss, sts, n);
    RunChecks(ss, sts, n, st);
    RunInv(ss, sts, n);
    if st.Lock? { assert |ss[n].past - {st.t}| == |ss[n].past| - 1; }
  }

  /** The callers ts enter one after the other, and the last one fails its check. */
  predicate FailsWith(s: Calls, ts: seq<Tid>)
    decreases |ts|
  {
    && ts != [] && ts[0] in s.past
    && if FirstClear(s.cache, 0).None? then |ts| == 1 else FailsWith(Do(s, Lock(ts[0])), ts[1..])
  }

  ghost predicate CanCollide(s: Calls) {
    exists ts :: FailsWith(s, ts)
  }

  /** And the room is needed: once there are more claims than elements, the callers past the
      test can run into the check among themselves; before that they cannot. */
  lemma OverclaimedIff(s: Calls)
    requires Inv(s)
    ensures CanCollide(s) <==> Claims(s) > s.cache.total
  {
    hide FailsWith, Inv;
    if Claims(s) > s.cache.total {
      var ts := Collide(s);
      assert FailsWith(s, ts);
    }
    if CanCollide(s) {
      var ts :| FailsWith(s, ts);
      CollisionNeedsClaims(s, ts);
    }
  }

  lemma {:induction false} Collide(s: Calls) returns (ts: seq<Tid>)
    requires Inv(s) && Claims(s) > s.cache.total
    ensures FailsWith(s, ts)
    decreases |s.past|
  {
    ClearIffFree(s.cache);
    SubsetSize(s.cache.used, s.cache.total);
    var t :| t in s.past;
    if s.cache.free == 0 {
      ts := [t];
    } else {
      StepInv(s, Lock(t));
      LockKeepsClaims(s, t);
      var rest := Collide(Do(s, Lock(t)));
      ts := [t] + rest;
      assert ts[1..] == rest;
    }
  }

  lemma LockKeepsClaims(s: Calls, t: Tid)
    requires Inv(s) && t in s.past && FirstClear(s.cache, 0).Some?
    ensures Claims(Do(s, Lock(t))) == Claims(s) && |Do(s, Lock(t)).past| == |s.past| - 1
  {
  }

  lemma {:induction false} CollisionNeedsClaims(s: Calls, ts: seq<Tid>)
    requires Inv(s) && FailsWith(s, ts)
    ensures Claims(s) > s.cache.total
    decreases |ts|
  {
    ClearIffFree(s.cache);
    if FirstClear(s.cache, 0).None? {
      assert |s.past - {ts[0]}| == |s.past| - 1;
    } else {
      StepInv(s, Lock(ts[0]));
      LockKeepsClaims(s, ts[0]);
      CollisionNeedsClaims(Do(s, Lock(ts[0])), ts[1..]);
    }
  }

  /** Two callers look at the last element; the second one finds it gone. */
  lemma TwoCallersHitBug() returns (ss: seq<Calls>, sts: seq<Step>)
    ensures Run(ss, sts) && Enabled(ss[|sts|], Lock(1)) && !ChecksPass(ss[|sts|], Lock(1))
  {
    var empty := Cache(1, 1, {});
    ss := [Calls(empty, {}, multiset{}), Calls(empty, {0}, multiset{}), Calls(empty, {0, 1}, multiset{}),
           Calls(Cache(1, 0, {0}), {1}, multiset{0})];
    sts := [Test(0), Test(1), Lock(0)];
    assert FirstClear(empty, 0) == Some(0);
    assert {0, 1} - {0} == {1};
    assert StepAt(ss, sts, 0);
    assert StepAt(ss, sts, 1);
    assert StepAt(ss, sts, 2);
  }

  // ---------------------------------------------------------------------------
  // Capabilities
  // ---------------------------------------------------------------------------

  /** The *_cap_alloc calls pay a unit of a capability first, and the *_cap_free calls return
      it before they free the element (src/generic/resource.c). `paid` have paid and not yet
      looked at the count; `refunded` are elements whose unit is back already. */
  datatype Quota = Quota(calls: Calls, size: nat, charged: int, paid: set<Tid>, refunded: set<nat>)

  datatype Move = Pay(t: Tid) | Look(t: Tid) | Enter(t: Tid) | Abort(t: Tid) | Refund(i: nat) | Return(i: nat)

  predicate Possible(q: Quota, m: Move) {
    match m
    case Pay(t) => t !in q.paid && t !in q.calls.past && q.charged + 1 <= q.size
    case Look(t) => t in q.paid && t !in q.calls.past
    case Enter(t) => t in q.calls.past
    case Abort(t) => t in q.calls.past
    case Refund(i) => i in q.calls.cache.used && i !in q.refunded
    case Return(i) => i in q.refunded
  }

  /** The call step that a move makes, if any. */
  function StepOf(m: Move): Option<Step> {
    match m
    case Look(t) => Some(Test(t))
    case Enter(t) => Some(Lock(t))
    case Abort(t) => Some(GiveUp(t))
    case Return(i) => Some(Free(i))
    case _ => None
  }

  predicate Passes(q: Quota, m: Move)
    requires Possible(q, m)
  {
    StepOf(m).Some? ==> ChecksPass(q.calls, StepOf(m).value)
  }

  function Moved(q: Quota, m: Move): Quota
    requires Possible(q, m)
  {
    match m
    case Pay(t) => q.(charged := q.charged + 1, paid := q.paid + {t})
    case Look(t) => q.(calls := Do(q.calls, Test(t)), paid := q.paid - {t})
    case Enter(t) => q.(calls := Do(q.calls, Lock(t)))
    case Abort(t) => q.(calls := Do(q.calls, GiveUp(t)))
    case Refund(i) => q.(charged := q.charged - 1, refunded := q.refunded + {i})
    case Return(i) => q.(calls := Do(q.calls, Free(i)), refunded := q.refunded - {i})
  }

  /** Every claim is paid for, but for elements whose unit is back before they are. */
  ghost predicate QuotaInv(q: Quota) {
    && Inv(q.calls) && q.refunded <= q.calls.cache.used && q.paid !! q.calls.past
    && Claims(q.calls) + |q.paid| <= q.charged + |q.refunded| && q.charged <= q.size
  }

  lemma MovedInv(q: Quota, m: Move)
    requires QuotaInv(q) && Possible(q, m) && Passes(q, m)
    ensures QuotaInv(Moved(q, m)) && Moved(q, m).size == q.size && Moved(q, m).calls.cache.total == q.calls.cache.total
  {
    if StepOf(m).Some? { StepInv(q.calls, StepOf(m).value); }
    match m
    case Pay(t) =>
    case Look(t) => assert |q.paid - {t}| == |q.paid| - 1;
    case Enter(t) => LockKeepsClaims(q.calls, t);
    case Abort(t) => assert |q.calls.past - {t}| == |q.calls.past| - 1;
    case Refund(i) =>
    case Return(i) =>
      assert |q.refunded - {i}| == |q.refunded| - 1;
      assert |q.calls.cache.used - {i}| == |q.calls.cache.used| - 1;
  }

  /** A capability no larger than the cache reserves an element for every caller that passes
      the test, as long as no unit is back before its element. */
  lemma QuotaReserves(q: Quota, t: Tid)
    requires QuotaInv(q) && Possible(q, Look(t)) && q.size <= q.calls.cache.total && q.refunded == {}
    ensures Claims(q.calls) < q.calls.cache.total
  {
    assert |q.paid - {t}| == |q.paid| - 1;
  }

  ghost predicate MoveAt(qs: seq<Quota>, ms: seq<Move>, i: nat)
    requires i < |ms| && |qs| == |ms| + 1
  {
    Possible(qs[i], ms[i]) && Passes(qs[i], ms[i]) && qs[i + 1] == Moved(qs[i], ms[i])
  }

  ghost predicate QuotaRun(qs: seq<Quota>, ms: seq<Move>) {
    && |qs| == |ms| + 1
    && qs[0] == Quota(Calls(Cache(qs[0].calls.cache.total, qs[0].calls.cache.total, {}), {}, multiset{}), qs[0].size, 0, {}, {})
    && forall i {:trigger MoveAt(qs, ms, i)} :: 0 <= i < |ms| ==> MoveAt(qs, ms, i)
  }

  lemma {:induction false} QuotaRunInv(qs: seq<Quota>, ms: seq<Move>, n: nat)
    requires QuotaRun(qs, ms) && n < |qs|
    ensures QuotaInv(qs[n]) && qs[n].size == qs[0].size && qs[n].calls.cache.total == qs[0].calls.cache.total
  {
    hide Moved, Passes, Possible;
    if n > 0 {
      QuotaRunInv(qs, ms, n - 1);
      assert MoveAt(qs, ms, n - 1);
      MovedInv(qs[n - 1], ms[n - 1]);
    }
  }

  /** No caller looks at the count while the unit of an element in use is back already. */
  predicate LooksInOrder(qs: seq<Quota>, ms: seq<Move>, i: nat)
    requires i < |ms| && |qs| == |ms| + 1
  {
    ms[i].Look? ==> qs[i].refunded == {}
  }

  lemma {:induction false} QuotaClaims(qs: seq<Quota>, ms: seq<Move>, n: nat)
    requires QuotaRun(qs, ms) && n < |qs| && qs[0].size <= qs[0].calls.cache.total && forall i :: 0 <= i < n ==> LooksInOrder(qs, ms, i)
    ensures Claims(qs[n].calls) <= qs[0].calls.cache.total
  {
    hide Passes;
    if n > 0 {
      QuotaClaims(qs, ms, n - 1);
      QuotaRunInv(qs, ms, n - 1);
      assert MoveAt(qs, ms, n - 1) && LooksInOrder(qs, ms, n - 1);
      var q, m := qs[n - 1], ms[n - 1];
      if m.Look? { QuotaReserves(q, m.t); }
      if StepOf(m).Some? { PassesStep(q, m); ClaimsAfter(q.calls, StepOf(m).value); }
    }
  }

  lemma PassesStep(q: Quota, m: Move)
    requires Possible(q, m) && Passes(q, m) && StepOf(m).Some?
    ensures Enabled(q.calls, StepOf(m).value) && ChecksPass(q.calls, StepOf(m).value)
  {
  }

  /** So with capabilities no check fails in any run whose callers look in order. */
  lemma QuotaNeverFails(qs: seq<Quota>, ms: seq<Move>, n: nat, m: Move)
    requires QuotaRun(qs, ms) && n < |qs| && Possible(qs[n], m)
    requires qs[0].size <= qs[0].calls.cache.total && forall i :: 0 <= i < n ==> LooksInOrder(qs, ms, i)
    ensures Passes(qs[n], m)
  {
    hide LooksInOrder;
    QuotaClaims(qs, ms, n);
    QuotaRunInv(qs, ms, n);
    if StepOf(m).Some? {
      ChecksPassIff(qs[n].calls, StepOf(m).value);
      if m.Enter? { assert |qs[n].calls.past - {m.t}| == |qs[n].calls.past| - 1; }
    }
  }

  ghost predicate Moves(q: Quota, m: Move, q': Quota) {
    Possible(q, m) && Passes(q, m) && q' == Moved(q, m)
  }

  const NONE_OF_2 := Cache(2, 2, {})
  const ONE_OF_2 := Cache(2, 1, {0})
  const BOTH_OF_2 := Cache(2, 0, {0, 1})

  function Idle(c: Cache, charged: int, refunded: set<nat>): Quota {
    Quota(Calls(c, {}, multiset(c.used)), 2, charged, {}, refunded)
  }

  lemma FirstTaken()
    ensures Moves(Idle(NONE_OF_2, 0, {}), Pay(0), Idle(NONE_OF_2, 1, {}).(paid := {0}))
    ensures Moves(Idle(NONE_OF_2, 1, {}).(paid := {0}), Look(0), Idle(NONE_OF_2, 1, {}).(calls := Calls(NONE_OF_2, {0}, multiset{})))
    ensures Moves(Idle(NONE_OF_2, 1, {}).(calls := Calls(NONE_OF_2, {0}, multiset{})), Enter(0), Idle(ONE_OF_2, 1, {}))
    ensures Moves(Idle(ONE_OF_2, 1, {}), Refund(0), Idle(ONE_OF_2, 0, {0}))
  {
    assert FirstClear(NONE_OF_2, 0) == Some(0);
  }

  /** With the callers `past` ahead of it a caller t pays and looks. */
  lemma OneMoreLooks(charged: int, past: set<Tid>, t: Tid)
    requires charged < 2 && t !in past
    ensures var q := Idle(ONE_OF_2, charged, {0}).(calls := Calls(ONE_OF_2, past, multiset{0}));
            && Moves(q, Pay(t), q.(charged := charged + 1, paid := {t}))
            && Moves(q.(charged := charged + 1, paid := {t}), Look(t), q.(charged := charged + 1, calls := Calls(ONE_OF_2, past + {t}, multiset{0})))
  {
  }

  lemma LastTaken()
    ensures var q := Idle(ONE_OF_2, 2, {0});
            && Moves(q.(calls := Calls(ONE_OF_2, {1, 2}, multiset{0})), Enter(1), q.(calls := Calls(BOTH_OF_2, {2}, multiset{0, 1})))
            && Possible(q.(calls := Calls(BOTH_OF_2, {2}, multiset{0, 1})), Enter(2))
            && !Passes(q.(calls := Calls(BOTH_OF_2, {2}, multiset{0, 1})), Enter(2))
  {
    assert FirstClear(ONE_OF_2, 0) == Some(1);
    assert {0} + {1} == {0, 1} && {1, 2} - {1} == {2};
  }

  /** In the order of the code they need not: of two elements one is in use and its unit is
      back; two callers then pay, look at the one that is left, and collide. */
  lemma RefundFirstHitsBug() returns (qs: seq<Quota>, ms: seq<Move>)
    ensures QuotaRun(qs, ms) && qs[0].size <= qs[0].calls.cache.total
    ensures Possible(qs[|ms|], Enter(2)) && !Passes(qs[|ms|], Enter(2))
  {
    hide Possible, Passes, Moved;
    var c0, c1, q := NONE_OF_2, ONE_OF_2, Idle(ONE_OF_2, 0, {0});
    FirstTaken();
    OneMoreLooks(0, {}, 1);
    OneMoreLooks(1, {1}, 2);
    LastTaken();
    assert {} + {1} == {1} && {1} + {2} == {1, 2};
    assert multiset({0}) == multiset{0};
    assert q.calls == Calls(c1, {}, multiset{0});
    qs := [Idle(c0, 0, {}),
           Idle(c0, 1, {}).(paid := {0}),
           Idle(c0, 1, {}).(calls := Calls(c0, {0}, multiset{})),
           Idle(c1, 1, {}),
           q,
           q.(charged := 1, paid := {1}),
           q.(charged := 1, calls := Calls(c1, {1}, multiset{0})),
           q.(charged := 2, paid := {2}, calls := Calls(c1, {1}, multiset{0})),
           q.(charged := 2, calls := Calls(c1, {1, 2}, multiset{0})),
           q.(charged := 2, calls := Calls(BOTH_OF_2, {2}, multiset{0, 1}))];
    ms := [Pay(0), Look(0), Enter(0), Refund(0), Pay(1), Look(1), Pay(2), Look(2), Enter(1)];
    forall i: nat | i < |ms| ensures MoveAt(qs, ms, i) {
      assert Moves(qs[i], ms[i], qs[i + 1]);
    }
  }
}
