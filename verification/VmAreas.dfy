/**
 A task's list of vmas under mmap and munmap (mm0's mmap.c and munmap.c). The list need
 not be ordered: what counts is which page has which attributes.
 */
module VmAreas {

  import opened Basics
  import ListInsert

  /** A vm_area over the pages [start, end); `off` is the file page of its first page and
      `chain` names its stack of objects. */
  datatype Vma = Vma(start: nat, end: nat, off: int, flags: nat, chain: seq<nat>)

  /** What a page is mapped to. */
  datatype Attr = Attr(flags: nat, filePage: int, chain: seq<nat>)

  const ENOMEM := -12

  predicate Has(v: Vma, p: nat) {
    v.start <= p < v.end
  }

  function AttrOf(v: Vma, p: nat): Attr {
    Attr(v.flags, v.off + p - v.start, v.chain)
  }

  /** Page p is mapped to a. */
  ghost predicate Covers(list: seq<Vma>, p: nat, a: Attr) {
    exists i :: 0 <= i < |list| && Has(list[i], p) && a == AttrOf(list[i], p)
  }

  /** set_intersection of [a, b) and [c, d). */
  predicate Intersects(a: nat, b: nat, c: nat, d: nat) {
    !(b <= c || a >= d)
  }

  predicate Apart(v: Vma, w: Vma) {
    !Intersects(v.start, v.end, w.start, w.end)
  }

  predicate ApartFrom(v: Vma, list: seq<Vma>) {
    forall i :: 0 <= i < |list| ==> Apart(v, list[i])
  }

  /** Vmas are non-empty and pairwise disjoint. */
  predicate Valid(list: seq<Vma>) {
    && (forall i :: 0 <= i < |list| ==> list[i].start < list[i].end)
    && (forall i, j :: 0 <= i < j < |list| ==> Apart(list[i], list[j]))
  }

  // ---------------------------------------------------------------------------
  // Unmapping
  // ---------------------------------------------------------------------------

  /** What vma_unmap leaves of one vma: split (upper half first), shrunk, or nothing. */
  function Pieces(v: Vma, from: nat, upto: nat): seq<Vma> {
    if !Intersects(from, upto, v.start, v.end) then [v]
    else if v.start < from && v.end > upto then
      [v.(start := upto, off := v.off + upto - v.start), v.(end := from)]
    else if v.start < from then [v.(end := from)]
    else if v.end > upto then [v.(start := upto, off := v.off + upto - v.start)]
    else []
  }

  function Unmapped(list: seq<Vma>, from: nat, upto: nat): seq<Vma> {
    if list == [] then [] else Unmapped(list[..|list| - 1], from, upto) + Pieces(list[|list| - 1], from, upto)
  }

  lemma CoversJoin(a: seq<Vma>, b: seq<Vma>, p: nat, x: Attr)
    ensures Covers(a + b, p, x) <==> Covers(a, p, x) || Covers(b, p, x)
  {
    if Covers(a, p, x) {
      var i :| 0 <= i < |a| && Has(a[i], p) && x == AttrOf(a[i], p);
      assert (a + b)[i] == a[i];
    }
    if Covers(b, p, x) {
      var i :| 0 <= i < |b| && Has(b[i], p) && x == AttrOf(b[i], p);
      assert (a + b)[|a| + i] == b[i];
    }
  }

  lemma PiecesExact(v: Vma, from: nat, upto: nat, p: nat, x: Attr)
    requires v.start < v.end && from <= upto
    ensures Covers(Pieces(v, from, upto), p, x) <==> Covers([v], p, x) && !(from <= p < upto)
  {
    var ps := Pieces(v, from, upto);
    if Covers([v], p, x) && !(from <= p < upto) {
      assert Has([v][0], p);
      assert exists i :: 0 <= i < |ps| && Has(ps[i], p) && x == AttrOf(ps[i], p) by {
        if Has(ps[0], p) { assert x == AttrOf(ps[0], p); } else { assert Has(ps[1], p) && x == AttrOf(ps[1], p); }
      }
    }
    if Covers(ps, p, x) {
      var i :| 0 <= i < |ps| && Has(ps[i], p) && x == AttrOf(ps[i], p);
      assert Has([v][0], p) && x == AttrOf([v][0], p);
    }
  }

  /** Unmapping removes exactly the pages of the range; every other page keeps its flags,
      file page and objects. */
  lemma {:induction false} UnmappedExact(list: seq<Vma>, from: nat, upto: nat, p: nat, x: Attr)
    requires Valid(list) && from <= upto
    ensures Covers(Unmapped(list, from, upto), p, x) <==> Covers(list, p, x) && !(from <= p < upto)
    decreases |list|
  {
    if list != [] {
      var k := |list| - 1;
      UnmappedExact(list[..k], from, upto, p, x);
      PiecesExact(list[k], from, upto, p, x);
      CoversJoin(Unmapped(list[..k], from, upto), Pieces(list[k], from, upto), p, x);
      CoversJoin(list[..k], [list[k]], p, x);
      assert list[..k] + [list[k]] == list;
    }
  }

  lemma PiecesInside(v: Vma, from: nat, upto: nat)
    requires v.start < v.end && from <= upto
    ensures Valid(Pieces(v, from, upto))
    ensures forall i :: 0 <= i < |Pieces(v, from, upto)| ==>
              v.start <= Pieces(v, from, upto)[i].start && Pieces(v, from, upto)[i].end <= v.end && !Intersects(from, upto, Pieces(v, from, upto)[i].start, Pieces(v, from, upto)[i].end)
  {
  }

  /** Pieces stay inside the vmas they come from, so what was apart stays apart. */
  lemma {:induction false} UnmappedApart(list: seq<Vma>, from: nat, upto: nat, v: Vma)
    requires Valid(list) && from <= upto && v.start < v.end
    requires ApartFrom(v, list) || (v.start == from && v.end == upto)
    ensures ApartFrom(v, Unmapped(list, from, upto))
    decreases |list|
  {
    if list != [] {
      UnmappedApart(list[..|list| - 1], from, upto, v);
      PiecesInside(list[|list| - 1], from, upto);
    }
  }

  lemma JoinValid(a: seq<Vma>, b: seq<Vma>)
    requires Valid(a) && Valid(b) && forall i :: 0 <= i < |b| ==> ApartFrom(b[i], a)
    ensures Valid(a + b)
  {
  }

  lemma {:induction false} UnmappedValid(list: seq<Vma>, from: nat, upto: nat)
    requires Valid(list) && from <= upto
    ensures Valid(Unmapped(list, from, upto))
    decreases |list|
  {
    if list != [] {
      var k := |list| - 1;
      UnmappedValid(list[..k], from, upto);
      PiecesInside(list[k], from, upto);
      var ps := Pieces(list[k], from, upto);
      forall i | 0 <= i < |ps| ensures ApartFrom(ps[i], Unmapped(list[..k], from, upto)) {
        assert ApartFrom(ps[i], list[..k]);
        UnmappedApart(list[..k], from, upto, ps[i]);
      }
      JoinValid(Unmapped(list[..k], from, upto), ps);
    }
  }

  /** A range strictly inside a vma meets no other one. */
  lemma InsideMeetsNoOther(list: seq<Vma>, k: nat, from: nat, upto: nat)
    requires Valid(list) && from <= upto && k < |list| && list[k].start < from && upto < list[k].end
    ensures forall i :: 0 <= i < |list| && i != k ==> !Intersects(from, upto, list[i].start, list[i].end)
  {
    forall i | 0 <= i < |list| && i != k ensures !Intersects(from, upto, list[i].start, list[i].end) {
      assert Apart(list[i], list[k]) || Apart(list[k], list[i]);
    }
  }

  lemma {:induction false} NothingToUnmap(list: seq<Vma>, from: nat, upto: nat)
    requires forall i :: 0 <= i < |list| ==> !Intersects(from, upto, list[i].start, list[i].end)
    ensures Unmapped(list, from, upto) == list
    decreases |list|
  {
    if list != [] {
      NothingToUnmap(list[..|list| - 1], from, upto);
      assert list[..|list| - 1] + [list[|list| - 1]] == list;
    }
  }

  // ---------------------------------------------------------------------------
  // Inserting
  // ---------------------------------------------------------------------------

  function Starts(list: seq<Vma>): seq<nat> {
    seq(|list|, i requires 0 <= i < |list| => list[i].start)
  }

  /** Where task_insert_vma puts a vma, scanning from position i on. */
  function Place(list: seq<Vma>, v: Vma, i: nat): (k: nat)
    requires i < |list|
    ensures i <= k <= |list|
  {
    ListInsert.Place(Starts(list), v.start, i)
  }

  function Inserted(list: seq<Vma>, v: Vma): seq<Vma> {
    if list == [] then [v] else var k := Place(list, v, 0); list[..k] + [v] + list[k..]
  }

  lemma InsertedExact(list: seq<Vma>, v: Vma, p: nat, x: Attr)
    ensures Covers(Inserted(list, v), p, x) <==> Covers(list, p, x) || (Has(v, p) && x == AttrOf(v, p))
  {
    var k := if list == [] then 0 else Place(list, v, 0);
    CoversJoin(list[..k] + [v], list[k..], p, x);
    CoversJoin(list[..k], [v], p, x);
    CoversJoin(list[..k], list[k..], p, x);
    assert list[..k] + list[k..] == list && list[..k] + [v] + list[k..] == Inserted(list, v);
    assert Covers([v], p, x) <==> Has([v][0], p) && x == AttrOf([v][0], p);
  }

  lemma InsertedValid(list: seq<Vma>, v: Vma)
    requires Valid(list) && v.start < v.end && ApartFrom(v, list)
    ensures Valid(Inserted(list, v))
  {
  }

  /** The list is meant to be ordered; an insertion keeps it so exactly if the new vma
      is above the first one or there is at most one. */
  lemma InsertedInOrder(list: seq<Vma>, v: Vma)
    requires Valid(list) && v.start < v.end && ApartFrom(v, list) && ListInsert.Sorted(Starts(list))
    ensures ListInsert.Sorted(Starts(Inserted(list, v))) <==> |list| <= 1 || v.start > list[0].start
  {
    var keys := Starts(list);
    assert v.start !in keys by {
      forall i | 0 <= i < |keys| ensures keys[i] != v.start { assert Apart(v, list[i]); }
    }
    ListInsert.InsertKeepsOrder(keys, v.start);
    assert Starts(Inserted(list, v)) == ListInsert.Inserted(keys, v.start);
  }

  /** The list after the unmap-then-insert of do_mmap. */
  function Remapped(list: seq<Vma>, v: Vma): seq<Vma> {
    Inserted(Unmapped(list, v.start, v.end), v)
  }

  lemma RemappedValid(list: seq<Vma>, v: Vma)
    requires Valid(list) && v.start < v.end
    ensures ApartFrom(v, Unmapped(list, v.start, v.end)) && Valid(Unmapped(list, v.start, v.end)) && Valid(Remapped(list, v))
  {
    UnmappedValid(list, v.start, v.end);
    UnmappedApart(list, v.start, v.end, v);
    InsertedValid(Unmapped(list, v.start, v.end), v);
  }

  // ---------------------------------------------------------------------------
  // Failures
  // ---------------------------------------------------------------------------

  /** Which allocations succeed: the vma of a split, the new vma, its link, and the link to
      devzero that a shm file gets as well. */
  datatype Memory = Memory(split: bool, vma: bool, link: bool, zeroLink: bool)

  datatype Op = Mmap(v: Vma, shm: bool, m: Memory) | Munmap(from: nat, upto: nat, m: Memory)

  /** How far a call gets: nothing done, only the range unmapped, or all done. */
  datatype Stage = Refused | OnlyUnmaps | Completes

  predicate NeedsSplit(list: seq<Vma>, from: nat, upto: nat) {
    exists i :: 0 <= i < |list| && list[i].start < from && upto < list[i].end
  }

  function StageOf(list: seq<Vma>, op: Op): Stage {
    match op
    case Mmap(v, shm, m) =>
      if !m.split && NeedsSplit(list, v.start, v.end) then Refused
      else if !m.vma || !m.link || (shm && !m.zeroLink) then OnlyUnmaps
      else Completes
    case Munmap(from, upto, m) => if !m.split && NeedsSplit(list, from, upto) then Refused else Completes
  }

  function Effect(list: seq<Vma>, op: Op): seq<Vma> {
    if StageOf(list, op) == Refused then list
    else
      match op
      case Mmap(v, _, _) => if StageOf(list, op) == Completes then Remapped(list, v) else Unmapped(list, v.start, v.end)
      case Munmap(from, upto, _) => Unmapped(list, from, upto)
  }

  predicate Sane(op: Op) {
    match op
    case Mmap(v, _, _) => v.start < v.end
    case Munmap(from, upto, _) => from <= upto
  }

  predicate Meets(list: seq<Vma>, from: nat, upto: nat) {
    exists i :: 0 <= i < |list| && Intersects(from, upto, list[i].start, list[i].end)
  }

  ghost predicate SamePages(a: seq<Vma>, b: seq<Vma>) {
    forall p, x :: Covers(a, p, x) <==> Covers(b, p, x)
  }

  /** A failed mmap leaves every page as it was exactly if it was refused before it unmapped
      anything, or there was nothing to unmap. */
  lemma FailedMmapIff(list: seq<Vma>, v: Vma, shm: bool, m: Memory)
    requires Valid(list) && v.start < v.end && StageOf(list, Mmap(v, shm, m)) != Completes
    ensures SamePages(Effect(list, Mmap(v, shm, m)), list) <==>
            (!m.split && NeedsSplit(list, v.start, v.end)) || !Meets(list, v.start, v.end)
  {
    hide Valid;
    var after := Effect(list, Mmap(v, shm, m));
    if !m.split && NeedsSplit(list, v.start, v.end) {
      assert after == list;
    } else if !Meets(list, v.start, v.end) {
      NothingToUnmap(list, v.start, v.end);
    } else {
      var i :| 0 <= i < |list| && Intersects(v.start, v.end, list[i].start, list[i].end);
      LostPage(list, v.start, v.end, i);
    }
  }

  /** The first common page of the range and a vma in it is lost. */
  lemma LostPage(list: seq<Vma>, from: nat, upto: nat, i: nat)
    requires Valid(list) && from < upto && i < |list| && Intersects(from, upto, list[i].start, list[i].end)
    ensures !SamePages(Unmapped(list, from, upto), list)
  {
    var p := if from < list[i].start then list[i].start else from;
    assert Has(list[i], p);
    assert Covers(list, p, AttrOf(list[i], p));
    UnmappedExact(list, from, upto, p, AttrOf(list[i], p));
  }

  /** do_mmap over [2, 6) with pages 0 to 3 mapped and no memory for the new vma: it fails,
      and pages 2 and 3 are gone. */
  lemma FailedMmapLosesPages()
    ensures var was := [Vma(0, 4, 0, 0, [])];
            var op := Mmap(Vma(2, 6, 0, 0, []), false, Memory(true, false, true, true));
            && Valid(was) && Sane(op) && StageOf(was, op) == OnlyUnmaps
            && Effect(was, op) == [Vma(0, 2, 0, 0, [])] && !SamePages(Effect(was, op), was)
  {
    var was := [Vma(0, 4, 0, 0, [])];
    assert was[..0] == [] && Unmapped(was[..0], 2, 6) == [];
    LostPage(was, 2, 6, 0);
  }

  // ---------------------------------------------------------------------------
  // Runs
  // ---------------------------------------------------------------------------

  function AfterOps(ops: seq<Op>): seq<Vma> {
    if ops == [] then [] else Effect(AfterOps(ops[..|ops| - 1]), ops[|ops| - 1])
  }

  /** The same history on a flat map from pages to attributes. */
  ghost function Flat(ops: seq<Op>): imap<nat, Attr> {
    if ops == [] then imap[]
    else
      var m, op := Flat(ops[..|ops| - 1]), ops[|ops| - 1];
      var stage := StageOf(AfterOps(ops[..|ops| - 1]), op);
      if stage == Refused then m
      else
        match op
        case Mmap(v, _, _) =>
          imap p: nat | (p in m && !Has(v, p)) || (stage == Completes && Has(v, p)) :: if Has(v, p) then AttrOf(v, p) else m[p]
        case Munmap(from, upto, _) => imap p: nat | p in m && !(from <= p < upto) :: m[p]
  }

  lemma EffectExact(list: seq<Vma>, op: Op, p: nat, x: Attr)
    requires Valid(list) && Sane(op)
    ensures Valid(Effect(list, op))
    ensures StageOf(list, op) == Refused ==> (Covers(Effect(list, op), p, x) <==> Covers(list, p, x))
    ensures StageOf(list, op) != Refused && op.Munmap? ==>
              (Covers(Effect(list, op), p, x) <==> Covers(list, p, x) && !(op.from <= p < op.upto))
    ensures StageOf(list, op) != Refused && op.Mmap? ==>
              (Covers(Effect(list, op), p, x) <==>
               (Covers(list, p, x) && !Has(op.v, p)) || (StageOf(list, op) == Completes && Has(op.v, p) && x == AttrOf(op.v, p)))
  {
    hide Valid, Covers, Inserted, Unmapped;
    match op
    case Mmap(v, _, _) =>
      RemappedValid(list, v);
      UnmappedExact(list, v.start, v.end, p, x);
      InsertedExact(Unmapped(list, v.start, v.end), v, p, x);
    case Munmap(from, upto, _) =>
      UnmappedValid(list, from, upto);
      UnmappedExact(list, from, upto, p, x);
  }

  /** Over every run, failing calls included, the vmas stay disjoint and show the flat map,
      whatever the order of the list has become. */
  lemma {:induction false} RunsAreFlat(ops: seq<Op>, p: nat, x: Attr)
    requires forall i :: 0 <= i < |ops| ==> Sane(ops[i])
    ensures Valid(AfterOps(ops))
    ensures Covers(AfterOps(ops), p, x) <==> p in Flat(ops) && Flat(ops)[p] == x
    decreases |ops|
  {
    hide Effect, StageOf;
    if ops != [] {
      var k := |ops| - 1;
      RunsAreFlat(ops[..k], p, x);
      assert Sane(ops[k]);
      EffectExact(AfterOps(ops[..k]), ops[k], p, x);
    }
  }

  // ---------------------------------------------------------------------------
  // The operations as they run
  // ---------------------------------------------------------------------------

  lemma UnmappedSnoc(list: seq<Vma>, k: nat, from: nat, upto: nat)
    requires k < |list|
    ensures Unmapped(list[..k + 1], from, upto) == Unmapped(list[..k], from, upto) + Pieces(list[k], from, upto)
    ensures !Intersects(from, upto, list[k].start, list[k].end) ==> Pieces(list[k], from, upto) == [list[k]]
  {
    assert list[..k + 1][..k] == list[..k];
  }

  lemma SpliceFacts(a: seq<Vma>, b: seq<Vma>, k: nat)
    requires k < |b|
    ensures var l := a + b[k..]; l[|a|] == b[k] && l[..|a|] == a && l[|a| + 1..] == b[k + 1..] && l == a + [b[k]] + b[k + 1..]
  {
  }

  /** A failed split has nothing to undo. */
  lemma SplitChangesNothing(list: seq<Vma>, k: nat, from: nat, upto: nat)
    requires Valid(list) && from <= upto && k < |list| && list[k].start < from && upto < list[k].end
    ensures Unmapped(list[..k], from, upto) + list[k..] == list
  {
    InsideMeetsNoOther(list, k, from, upto);
    NothingToUnmap(list[..k], from, upto);
  }

  class TaskVmas {
    var list: seq<Vma>
    const mapStart: nat
    const mapEnd: nat

    /** do_munmap with vma_unmap, vma_split, vma_shrink and vma_destroy_single. Only a split
        needs memory. */
    method DoMunmap(from: nat, upto: nat, memory: bool) returns (r: int)
      requires Valid(list) && from <= upto
      modifies `list
      ensures Valid(list)
      ensures r == 0 ==> list == Unmapped(old(list), from, upto)
      ensures r != 0 ==> r == ENOMEM && list == old(list)
      ensures r != 0 <==> !memory && NeedsSplit(old(list), from, upto)
    {
      hide Pieces, Unmapped, Valid;
      ghost var was, done, k := list, [], 0;
      var i := 0;
      UnmappedValid(was, from, upto);
      NothingToUnmap(was[..0], from, upto);
      while i < |list|
        invariant k <= |was| && done == Unmapped(was[..k], from, upto) && list == done + was[k..] && i == |done|
        invariant !memory ==> forall j :: 0 <= j < k ==> !(was[j].start < from && upto < was[j].end)
        decreases |was| - k
      {
        UnmappedSnoc(was, k, from, upto);
        SpliceFacts(done, was, k);
        var n := 1;
        if Intersects(from, upto, list[i].start, list[i].end) {
          r, n := UnmapVma(i, from, upto, memory);
          if r < 0 {
            SplitChangesNothing(was, k, from, upto);
            return;
          }
        }
        done := done + Pieces(was[k], from, upto);
        i := i + n;
        k := k + 1;
      }
      assert was[..k] == was && list == done;
      r := 0;
    }

    /** vma_unmap on the i-th vma: split, shrink or destroy. Returns what is left of it. */
    method UnmapVma(i: nat, from: nat, upto: nat, memory: bool) returns (r: int, n: nat)
      requires i < |list| && from <= upto && Intersects(from, upto, list[i].start, list[i].end)
      modifies `list
      ensures r != 0 <==> !memory && old(list)[i].start < from && upto < old(list)[i].end
      ensures r != 0 ==> r == ENOMEM && list == old(list)
      ensures r == 0 ==> list == old(list)[..i] + Pieces(old(list)[i], from, upto) + old(list)[i + 1..] && n == |Pieces(old(list)[i], from, upto)|
    {
      var v := list[i];
      r, n := 0, 1;
      if v.start < from && v.end > upto {
        if !memory { return ENOMEM, 1; }
        // The new vma takes the upper part and goes in front of the old one.
        var upper := v.(start := upto, off := v.off + upto - v.start);
        list := list[..i] + [upper] + list[i..];
        list := list[i + 1 := v.(end := from)];
        n := 2;
      } else if v.start < from {
        assert from < v.end;
        list := list[i := v.(end := from)];
      } else if v.end > upto {
        assert upto > v.start;
        list := list[i := v.(start := upto, off := v.off + (upto - v.start))];
      } else {
        list := list[..i] + list[i + 1..];
        n := 0;
      }
    }

    /** task_insert_vma: its intersection checks never fire on a vma apart from the list. */
    method InsertVma(v: Vma)
      requires Valid(list) && v.start < v.end && ApartFrom(v, list)
      modifies `list
      ensures list == Inserted(old(list), v) && Valid(list)
    {
      InsertedValid(list, v);
      if list == [] {
        list := [v];
        return;
      }
      var i := 0;
      while true
        invariant list == old(list) && i < |list| && Place(list, v, 0) == Place(list, v, i)
        decreases |list| - i
      {
        var before := list[i];
        if i == |list| - 1 {
          assert !Intersects(v.start, v.end, before.start, before.end);
          if v.start > before.start {
            list := list[..i + 1] + [v] + list[i + 1..];
          } else {
            assert v.start < before.start;
            list := list[..i] + [v] + list[i..];
          }
          return;
        }
        var after := list[i + 1];
        if before.start < v.start && after.start > v.start {
          assert !Intersects(v.start, v.end, before.start, before.end);
          assert !Intersects(v.start, v.end, after.start, after.end);
          list := list[..i + 1] + [v] + list[i + 1..];
          return;
        }
        i := i + 1;
      }
    }

    /** The end of do_mmap: whatever is in the way goes, then the new vma comes in, if there is
        memory for it. What is gone stays gone if there is not. */
    method MapAt(v: Vma, shm: bool, m: Memory) returns (r: int)
      requires Valid(list) && v.start < v.end
      modifies `list
      ensures Valid(list) && list == Effect(old(list), Mmap(v, shm, m))
      ensures r == if StageOf(old(list), Mmap(v, shm, m)) == Completes then 0 else ENOMEM
    {
      hide Valid, Unmapped, Inserted, NeedsSplit;
      RemappedValid(list, v);
      r := DoMunmap(v.start, v.end, m.split);
      if r < 0 { return; }
      if !m.vma { return ENOMEM; }
      if !m.link { return ENOMEM; }
      if shm && !m.zeroLink { return ENOMEM; }
      InsertVma(v);
    }

    /** vma_intersection. */
    method AnyIntersects(from: nat, upto: nat) returns (r: bool)
      ensures r <==> exists i :: 0 <= i < |list| && Intersects(from, upto, list[i].start, list[i].end)
    {
      var i := 0;
      while i < |list|
        invariant i <= |list| && forall j :: 0 <= j < i ==> !Intersects(from, upto, list[j].start, list[j].end)
      {
        if Intersects(from, upto, list[i].start, list[i].end) { return true; }
        i := i + 1;
      }
      r := false;
    }

    /** A region of n pages directly behind vma i ends in time and is free. */
    ghost predicate Fits(i: nat, n: nat)
      requires i < |list|
      reads this
    {
      && list[i].end + n <= mapEnd
      && forall j :: 0 <= j < |list| ==> !Intersects(list[i].end, list[i].end + n, list[j].start, list[j].end)
    }

    /** find_unmapped_area: the region behind the first vma that leaves room for it. */
    method FindUnmappedArea(n: nat) returns (r: Option<nat>)
      requires mapStart <= mapEnd
      ensures r.None? <==> n > mapEnd - mapStart || (list != [] && forall i :: 0 <= i < |list| ==> !Fits(i, n))
      ensures r.Some? ==> r.value + n <= mapEnd && forall j :: 0 <= j < |list| ==> !Intersects(r.value, r.value + n, list[j].start, list[j].end)
      ensures r.Some? && list != [] ==> exists i :: 0 <= i < |list| && Fits(i, n) && r.value == list[i].end && forall j :: 0 <= j < i ==> !Fits(j, n)
    {
      if n > mapEnd - mapStart { return None; }
      if list == [] { return Some(mapStart); }
      var i := 0;
      while i < |list|
        invariant i <= |list| && forall j :: 0 <= j < i ==> !Fits(j, n)
      {
        var start := list[i].end;
        if start + n <= mapEnd {
          var taken := AnyIntersects(start, start + n);
          if !taken {
            assert Fits(i, n);
            return Some(start);
          }
        }
        i := i + 1;
      }
      r := None;
    }
  }

  /** A region that find_unmapped_area returns displaces nothing. */
  lemma FreshRegionKeepsAll(list: seq<Vma>, v: Vma)
    requires Valid(list) && v.start < v.end && ApartFrom(v, list)
    ensures Unmapped(list, v.start, v.end) == list && Remapped(list, v) == Inserted(list, v)
  {
    NothingToUnmap(list, v.start, v.end);
  }
}
