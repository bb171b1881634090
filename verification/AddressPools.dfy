/**
 Pools of virtual address ranges (mm0's addr.c over idpool.c): address_new hands out the
 lowest free range, address_del takes one back.
 */
module AddressPools {
  import opened Basics
  import opened Bitmaps

  /** Page i of the pool belongs to a range that was handed out. */
  ghost predicate Covered(live: map<nat, nat>, i: nat) {
    exists a :: a in live && a <= i < a + live[a]
  }

  ghost predicate Disjoint(live: map<nat, nat>, limit: nat) {
    && (forall a :: a in live ==> live[a] >= 1 && a + live[a] <= limit)
    && (forall a, b :: a in live && b in live && a < b ==> a + live[a] <= b)
  }

  /** Exactly the pages of live ranges are marked. */
  ghost predicate Marks(words: seq<bv32>, live: map<nat, nat>) {
    forall i {:trigger Bit(words, i)} :: 0 <= i < |words| * WORD_BITS ==> (Bit(words, i) <==> Covered(live, i))
  }

  lemma GrowMarks(was: seq<bv32>, now: seq<bv32>, live: map<nat, nat>, a: nat, n: nat, limit: nat)
    requires n >= 1 && a + n <= limit && Fits(was, limit) && Marks(was, live) && Disjoint(live, limit)
    requires FreeRun(was, a, n) && Changed(was, now, a, n, true)
    ensures a !in live && Marks(now, live[a := n]) && Disjoint(live[a := n], limit)
  {
    hide Bit;
    forall i | a <= i < a + n ensures !Covered(live, i) { assert !Bit(was, i); }
    forall x | x in live ensures x + live[x] <= a || a + n <= x {
      assert Covered(live, x);
      assert x <= a < x + live[x] ==> Covered(live, a);
    }
    var live' := live[a := n];
    forall i: nat | i < |now| * WORD_BITS ensures Bit(now, i) <==> Covered(live', i) {
      assert Covered(live', i) <==> Covered(live, i) || a <= i < a + n by {
        if Covered(live, i) { var x :| x in live && x <= i < x + live[x]; assert x in live' && live'[x] == live[x]; }
        if a <= i < a + n { assert a in live' && live'[a] == n; }
      }
    }
  }

  lemma ShrinkMarks(was: seq<bv32>, now: seq<bv32>, live: map<nat, nat>, a: nat, limit: nat)
    requires a in live && Fits(was, limit) && Marks(was, live) && Disjoint(live, limit) && Changed(was, now, a, live[a], false)
    ensures FullRun(was, a, live[a]) && Marks(now, live - {a}) && Disjoint(live - {a}, limit)
  {
    hide Bit;
    var live' := live - {a};
    forall i | a <= i < a + live[a] ensures Bit(was, i) { assert Covered(live, i); }
    forall i: nat | i < |now| * WORD_BITS ensures Bit(now, i) <==> Covered(live', i) {
      if Covered(live', i) {
        var x :| x in live' && x <= i < x + live'[x];
        assert x in live && live'[x] == live[x];
        assert Covered(live, i);
      }
      if Covered(live, i) && !(a <= i < a + live[a]) {
        var x :| x in live && x <= i < x + live[x];
        assert x in live' && live'[x] == live[x];
      }
    }
  }

  class AddressPool {
    const start: nat
    const end: nat
    const words: array<bv32>
    /** History: the ranges handed out and not yet returned, first page to length. */
    ghost var live: map<nat, nat>

    ghost predicate Valid()
      reads this, words
    {
      start <= end && Fits(words[..], end - start) && Disjoint(live, end - start) && Marks(words[..], live)
    }

    /** address_pool_init over the pages [start, end). */
    constructor (start: nat, end: nat)
      requires start <= end
      ensures Valid() && live == map[] && this.start == start && this.end == end && fresh(words)
    {
      this.start := start;
      this.end := end;
      words := new bv32[(end - start) / WORD_BITS + 1](i => 0);
      live := map[];
      new;
      ZeroMarks(words[..]);
    }

    /** address_new: the lowest free range of n pages, or None if there is none. A request for no
        pages gets none; its search reads the memory behind the bitmap. */
    method New(n: nat, beyond: seq<bv32>) returns (r: Option<nat>)
      requires Valid() && (n == 0 ==> EmptySearchEnds(words[..] + beyond, end - start, 0))
      modifies this, words
      ensures Valid()
      ensures r.None? <==> n == 0 || forall f :: 0 <= f && f + n <= end - start ==> !FreeRun(old(words[..]), f, n)
      ensures r.None? ==> live == old(live)
      ensures r.Some? ==> start <= r.value && r.value + n <= end && r.value - start !in old(live) && live == old(live)[r.value - start := n]
      ensures r.Some? ==> FreeRun(old(words[..]), r.value - start, n) && forall f :: 0 <= f < r.value - start ==> !FreeRun(old(words[..]), f, n)
    {
      hide Bit;
      var pfn := FindAndSetContig(words, beyond, end - start, n);
      if pfn < 0 { return None; }
      GrowMarks(old(words[..]), words[..], live, pfn, n, end - start);
      live := live[pfn := n];
      r := Some(start + pfn);
    }

    /** address_del. A range that was handed out comes back. One past the bitmap is refused. Any
        other is cleared up to its first free page, which leaves the pool sound exactly if that
        is the first page. */
    method Del(addr: nat, n: nat) returns (ok: bool, ghost k: nat)
      requires Valid() && start <= addr
      modifies this, words
      ensures ok <==> Fits(words[..], addr - start + n) && FullRun(old(words[..]), addr - start, n)
      ensures addr - start in old(live) && old(live)[addr - start] == n ==> ok && Valid() && live == old(live) - {addr - start}
      ensures !(addr - start in old(live) && old(live)[addr - start] == n) ==> live == old(live)
      ensures !Fits(words[..], addr - start + n) ==> words[..] == old(words[..]) && Valid()
      ensures Fits(words[..], addr - start + n) && !(addr - start in old(live) && old(live)[addr - start] == n) ==>
                && (Valid() <==> n == 0 || !Covered(live, addr - start))
                && k <= n && FullRun(old(words[..]), addr - start, k) && Changed(old(words[..]), words[..], addr - start, k, false)
                && (k < n ==> !Bit(old(words[..]), addr - start + k))
    {
      hide Bit;
      var pfn := addr - start;
      if words.Length * WORD_BITS < pfn + n { return false, 0; }
      ghost var was := words[..];
      var ret: int;
      ret, k := ClearContig(words, pfn, n);
      ok := ret == 0;
      if pfn in live && live[pfn] == n {
        ShrinkMarks(was, words[..], live, pfn, end - start);
        live := live - {pfn};
      } else {
        StrayClear(was, words[..], live, pfn, n, k);
      }
    }

    /** A pool never marks a page behind its end, so address_new of no pages searches past the
        bitmap. */
    lemma NoPagesLeavesBitmap()
      requires Valid()
      ensures !EmptySearchEnds(words[..], end - start, 0)
    {
      hide Bit;
      EmptySearchIff(words[..], end - start, 0);
      forall j | end - start <= j < words.Length * WORD_BITS ensures !Bit(words[..], j) {
        assert !Covered(live, j);
      }
    }
  }

  /** Clearing k pages keeps the marks exactly if there was none to clear. */
  lemma StrayClear(was: seq<bv32>, now: seq<bv32>, live: map<nat, nat>, a: nat, n: nat, k: nat)
    requires Fits(was, a + n) && Marks(was, live) && k <= n && FullRun(was, a, k) && Changed(was, now, a, k, false)
    requires k < n ==> !Bit(was, a + k)
    ensures Marks(now, live) <==> n == 0 || !Covered(live, a)
  {
    hide Bit;
    if n > 0 {
      var first := Bit(was, a);
      assert first <==> k > 0;
      assert Bit(now, a) <==> first && k == 0;
    }
  }

  /** Of a range of two pages only the first is returned: the call succeeds, and the page can be
      handed out again while the range is still live. */
  method HalfReturned() returns (p: AddressPool, ok: bool)
    ensures ok && p.live == map[0 := 2] && !p.Valid() && Fits(p.words[..], 1) && !Bit(p.words[..], 0)
  {
    hide Bit;
    p := new AddressPool(0, 8);
    NoneSetYet(p);
    var a := p.New(2, []);
    assert Covered(p.live, 0);
    assert Bit(p.words[..], 0);
    ghost var k;
    ok, k := p.Del(0, 1);
  }

  lemma NoneSetYet(p: AddressPool)
    requires p.Valid() && p.live == map[] && p.start == 0 && p.end == 8
    ensures Fits(p.words[..], 8) && FreeRun(p.words[..], 0, 2)
  {
    hide Bit;
    forall i | 0 <= i < 2 ensures !Bit(p.words[..], i) { assert !Covered(p.live, i); }
  }

  lemma ZeroMarks(words: seq<bv32>)
    requires forall i :: 0 <= i < |words| ==> words[i] == 0
    ensures Marks(words, map[])
  {
    NoneSet(words);
  }
}
