/**
 The pager's copy-on-write world: vm_objects, vmas with their object chains,
 page frames and page table entries, and the invariant that ties them together.

 A vma's chain lists the objects it maps from front to back: shadows first, one
 file or devzero object last. Every list the pager threads through its structures is
 a sequence here: `links` is an object's link_list (a link is named by its vma, since
 an object occurs at most once in a chain) and `shadowers` is its shdw_list.
 */
module ShadowWorld {
  import opened Basics

  type ObjId = nat
  type VmaId = nat
  type Frame = nat
  type Page = seq<Byte>

  /** What an object is: an anonymous shadow, a vfs file (with the contents that its
      pager reads in on demand and its opener count) or devzero. */
  datatype Kind =
    | Shadow
    | VfsFile(contents: map<nat, Page>, openers: nat)
    | DevZero

  /** A vm_object. `pages` maps page offsets to the frames of its page cache; devzero
      keeps its single zero page at offset 0. */
  datatype Obj = Obj(
    kind: Kind,
    writable: bool,
    orig: Option<ObjId>,
    pages: map<nat, Frame>,
    npages: int,
    links: seq<VmaId>,
    nlinks: int,
    shadowers: seq<ObjId>,
    shadows: int)

  /** A struct page together with the bytes of the frame it describes. */
  datatype PageFrame = PageFrame(owner: ObjId, offset: nat, data: Page)

  datatype Pte = Pte(frame: Frame, writable: bool)

  /** A private vma mapping the file pages [lo, hi). Page table entries are indexed
      by file offset, which is the virtual page number up to a constant per vma. */
  datatype Vma = Vma(lo: nat, hi: nat, chain: seq<ObjId>, ptes: map<nat, Pte>)

  datatype World = World(objs: map<ObjId, Obj>, vmas: map<VmaId, Vma>, frames: map<Frame, PageFrame>)

  // ---------------------------------------------------------------------------
  // Lists without repetition
  // ---------------------------------------------------------------------------

  /** The list without x (list_remove). */
  function Without(s: seq<nat>, x: nat): (r: seq<nat>)
    ensures forall y :: y in r <==> y in s && y != x
    ensures x !in s ==> r == s
    ensures |r| <= |s|
    ensures NoDup(s) ==> NoDup(r)
    ensures NoDup(s) && x in s ==> |r| == |s| - 1
  {
    if s == [] then []
    else if s[0] == x then Without(s[1..], x)
    else
      var rest := Without(s[1..], x);
      assert NoDup(s) ==> s[0] !in s[1..] && NoDup(s[1..]) && s[0] !in rest;
      [s[0]] + rest
  }

  /** Removing the element at a known position splices the list there. */
  lemma {:induction false} WithoutAt(s: seq<nat>, k: nat)
    requires NoDup(s) && k < |s|
    ensures Without(s, s[k]) == s[..k] + s[k + 1..]
  {
    hide NoDup, Without;
    NoDupTail(s);
    if k == 0 {
      WithoutHead(s);
    } else {
      WithoutAt(s[1..], k - 1);
      HeadDiffers(s, k);
      WithoutStep(s, s[k]);
      SpliceTail(s, k);
    }
  }

  lemma WithoutHead(s: seq<nat>)
    requires s != [] && s[0] !in s[1..]
    ensures Without(s, s[0]) == s[1..]
  {
  }

  lemma WithoutStep(s: seq<nat>, x: nat)
    requires s != [] && s[0] != x
    ensures Without(s, x) == [s[0]] + Without(s[1..], x)
  {
  }

  lemma NoDupTail(s: seq<nat>)
    requires NoDup(s) && s != []
    ensures NoDup(s[1..]) && s[0] !in s[1..] && s[..0] + s[1..] == s[1..]
  {
  }

  lemma HeadDiffers(s: seq<nat>, k: nat)
    requires NoDup(s) && 0 < k < |s|
    ensures s[0] != s[k] && s[1..][k - 1] == s[k]
  {
  }

  lemma SpliceTail(s: seq<nat>, k: nat)
    requires 0 < k < |s|
    ensures [s[0]] + (s[1..][..k - 1] + s[1..][k..]) == s[..k] + s[k + 1..]
  {
  }

  // ---------------------------------------------------------------------------
  // Page lookup along a chain
  // ---------------------------------------------------------------------------

  /** Where a lookup ends: in a resident frame, on disk in a file that would read
      the page in, or nowhere (the pager's "could not find the faulty page" bug). */
  datatype Source = Resident(frame: Frame) | OnDisk(file: ObjId) | Missing

  /** A shadow's pager only finds resident pages; file and devzero pagers find all. */
  predicate Supplies(obj: Obj, off: nat) {
    !obj.kind.Shadow? || off in obj.pages
  }

  /** The page cache slot that serves an offset: devzero serves all from slot 0. */
  function Slot(obj: Obj, off: nat): nat {
    if obj.kind.DevZero? then 0 else off
  }

  function Resolve(w: World, chain: seq<ObjId>, off: nat): Source {
    if chain == [] then Missing
    else if chain[0] !in w.objs || !Supplies(w.objs[chain[0]], off) then Resolve(w, chain[1..], off)
    else
      var obj := w.objs[chain[0]];
      if Slot(obj, off) in obj.pages then Resident(obj.pages[Slot(obj, off)]) else OnDisk(chain[0])
  }

  /** The bytes behind a source. */
  function Bytes(w: World, src: Source, off: nat): Page {
    match src
    case Resident(f) => if f in w.frames then w.frames[f].data else []
    case OnDisk(o) =>
      if o in w.objs && w.objs[o].kind.VfsFile? && off in w.objs[o].kind.contents
      then w.objs[o].kind.contents[off] else []
    case Missing => []
  }

  /** What a vma shows at a file offset. */
  function View(w: World, v: VmaId, off: nat): Page
    requires v in w.vmas
  {
    Bytes(w, Resolve(w, w.vmas[v].chain, off), off)
  }

  // ---------------------------------------------------------------------------
  // The invariant of every run
  // ---------------------------------------------------------------------------

  /** File pages that a vma may map from an object at the back of its chain. */
  ghost predicate InFile(obj: Obj, lo: nat, hi: nat) {
    obj.kind.VfsFile? ==> forall x :: lo <= x < hi ==> x in obj.kind.contents
  }

  ghost predicate PagesWithin(obj: Obj, lo: nat, hi: nat) {
    obj.kind.Shadow? ==> forall x :: x in obj.pages ==> lo <= x < hi
  }

  /** Position i of a chain: a live object that knows the link, shadows its successor
      (the last one is no shadow) and is read-only unless it is the front. */
  ghost predicate LinkOk(objs: map<ObjId, Obj>, v: VmaId, a: Vma, i: nat)
    requires i < |a.chain|
  {
    && a.chain[i] in objs
    && var obj := objs[a.chain[i]];
       && v in obj.links
       && (0 < i ==> !obj.writable)
       && (if i + 1 < |a.chain| then obj.orig == Some(a.chain[i + 1]) else !obj.kind.Shadow?)
       && PagesWithin(obj, a.lo, a.hi)
       && InFile(obj, a.lo, a.hi)
  }

  ghost predicate VmaOk(objs: map<ObjId, Obj>, v: VmaId, a: Vma) {
    && NoDup(a.chain)
    && (forall i {:trigger LinkOk(objs, v, a, i)} :: 0 <= i < |a.chain| ==> LinkOk(objs, v, a, i))
  }

  /** nlinks is the length of link_list, and every link is in the chain of its vma. */
  ghost predicate LinksOk(vmas: map<VmaId, Vma>, o: ObjId, obj: Obj) {
    && NoDup(obj.links) && obj.nlinks == |obj.links|
    && (forall v :: v in obj.links ==> v in vmas && o in vmas[v].chain)
  }

  /** shadows is the length of shdw_list, which holds exactly the objects whose
      orig_obj this is. */
  ghost predicate ShadowersOk(objs: map<ObjId, Obj>, o: ObjId, obj: Obj) {
    && NoDup(obj.shadowers) && obj.shadows == |obj.shadowers|
    && (forall s :: s in obj.shadowers ==> s in objs && objs[s].orig == Some(o))
    && (obj.orig.Some? ==> obj.orig.value in objs && o in objs[obj.orig.value].shadowers)
  }

  ghost predicate ShapeOk(obj: Obj) {
    && (obj.kind.Shadow? <==> obj.orig.Some?)
    && (obj.kind.Shadow? ==> obj.links != [])
    && (!obj.kind.DevZero? ==> obj.npages == |obj.pages|)
    && (obj.kind.DevZero? ==> obj.pages.Keys == {0})
    && (obj.writable ==> obj.kind.Shadow? && obj.nlinks == 1)
  }

  ghost predicate ObjOk(objs: map<ObjId, Obj>, vmas: map<VmaId, Vma>, o: ObjId)
    requires o in objs
  {
    LinksOk(vmas, o, objs[o]) && ShadowersOk(objs, o, objs[o]) && ShapeOk(objs[o])
  }

  /** Each cached page is a frame that names its owner back. */
  ghost predicate CacheOk(frames: map<Frame, PageFrame>, o: ObjId, obj: Obj) {
    forall x :: x in obj.pages ==>
      obj.pages[x] in frames && frames[obj.pages[x]].owner == o && frames[obj.pages[x]].offset == x
  }

  /** No frame leaks: it is cached by the object it names. */
  ghost predicate FrameOk(objs: map<ObjId, Obj>, f: Frame, p: PageFrame) {
    p.owner in objs && p.offset in objs[p.owner].pages && objs[p.owner].pages[p.offset] == f
  }

  ghost predicate VmasOk(w: World) {
    forall v {:trigger VmaOk(w.objs, v, w.vmas[v])} :: v in w.vmas ==> VmaOk(w.objs, v, w.vmas[v])
  }

  ghost predicate ObjsOk(w: World) {
    forall o {:trigger ObjOk(w.objs, w.vmas, o)} :: o in w.objs ==> ObjOk(w.objs, w.vmas, o)
  }

  ghost predicate PagesOk(w: World) {
    && (forall o {:trigger CacheOk(w.frames, o, w.objs[o])} :: o in w.objs ==> CacheOk(w.frames, o, w.objs[o]))
    && (forall f {:trigger FrameOk(w.objs, f, w.frames[f])} :: f in w.frames ==> FrameOk(w.objs, f, w.frames[f]))
  }

  ghost predicate Inv(w: World) {
    VmasOk(w) && ObjsOk(w) && PagesOk(w)
  }

  /** No mappings yet: only files and devzero, unlinked. */
  ghost predicate Init(w: World) {
    && w.vmas == map[]
    && (forall o :: o in w.objs ==>
          var obj := w.objs[o];
          && !obj.kind.Shadow? && !obj.writable && obj.orig == None
          && obj.links == [] && obj.nlinks == 0 && obj.shadowers == [] && obj.shadows == 0
          && (obj.kind.DevZero? ==> obj.pages.Keys == {0})
          && (obj.kind.VfsFile? ==> obj.npages == |obj.pages|))
    && PagesOk(w)
  }

  // ---------------------------------------------------------------------------
  // Page table entries
  // ---------------------------------------------------------------------------

  /** Entries not claimed to be current: none, all of one vma, or a single one. */
  datatype Stale = Nothing | AllOf(vma: VmaId) | One(vma: VmaId, off: nat)

  predicate IsStale(ex: Stale, v: VmaId, off: nat) {
    match ex
    case Nothing => false
    case AllOf(x) => v == x
    case One(x, y) => v == x && off == y
  }

  /** A writable entry names a page of the vma's own writable front shadow. */
  ghost predicate WritablePtesOwned(objs: map<ObjId, Obj>, a: Vma) {
    forall x :: x in a.ptes && a.ptes[x].writable ==>
      && a.chain != [] && a.chain[0] in objs
      && objs[a.chain[0]].writable
      && x in objs[a.chain[0]].pages
      && objs[a.chain[0]].pages[x] == a.ptes[x].frame
  }

  ghost predicate WritesOwned(w: World, ex: Stale) {
    forall v {:trigger WritablePtesOwned(w.objs, w.vmas[v])} :: v in w.vmas && ex != AllOf(v) ==>
      WritablePtesOwned(w.objs, w.vmas[v])
  }

  /** The source of a page in a vma; Missing where there is no such vma. */
  function Src(w: World, v: VmaId, x: nat): Source {
    if v in w.vmas then Resolve(w, w.vmas[v].chain, x) else Missing
  }

  /** A present entry names the very frame that the chain lookup returns. */
  ghost predicate PteCurrent(w: World, v: VmaId, x: nat)
    requires v in w.vmas && x in w.vmas[v].ptes
  {
    Src(w, v, x) == Resident(w.vmas[v].ptes[x].frame)
  }

  ghost predicate PtesCurrent(w: World, ex: Stale) {
    forall v, x {:trigger PteCurrent(w, v, x)} :: v in w.vmas && x in w.vmas[v].ptes && !IsStale(ex, v, x) ==> PteCurrent(w, v, x)
  }

  // ---------------------------------------------------------------------------
  // First consequences
  // ---------------------------------------------------------------------------

  lemma InitInv(w: World)
    requires Init(w)
    ensures Inv(w) && WritesOwned(w, Nothing) && PtesCurrent(w, Nothing)
  {
  }

  /** A shadow is directly in front of its original in every chain that holds it,
      and only there is it recorded: no chain holds one without the other. */
  lemma ShadowInFront(w: World, s: ObjId, v: VmaId) returns (i: nat)
    requires Inv(w) && s in w.objs && w.objs[s].orig.Some? && v in w.vmas && s in w.vmas[v].chain
    ensures i + 1 < |w.vmas[v].chain|
    ensures w.vmas[v].chain[i] == s && w.vmas[v].chain[i + 1] == w.objs[s].orig.value
  {
    var c := w.vmas[v].chain;
    i :| 0 <= i < |c| && c[i] == s;
    assert VmaOk(w.objs, v, w.vmas[v]) && ObjOk(w.objs, w.vmas, s);
    assert LinkOk(w.objs, v, w.vmas[v], i);
  }

  /** The links of a shadow are among the links of the object it shadows. */
  lemma LinksFlowBack(w: World, s: ObjId, o: ObjId)
    requires Inv(w) && s in w.objs && w.objs[s].orig == Some(o)
    ensures o in w.objs && forall v :: v in w.objs[s].links ==> v in w.objs[o].links
  {
    assert ObjOk(w.objs, w.vmas, s);
    forall v | v in w.objs[s].links ensures v in w.objs[o].links {
      assert VmaOk(w.objs, v, w.vmas[v]);
      var i := ShadowInFront(w, s, v);
      assert LinkOk(w.objs, v, w.vmas[v], i + 1);
    }
  }

  /** A chain that resolves to a frame resolves to one that is allocated. */
  lemma {:induction false} ResolveSound(w: World, c: seq<ObjId>, off: nat)
    requires Inv(w)
    requires forall i :: 0 <= i < |c| ==> c[i] in w.objs
    ensures Resolve(w, c, off).Resident? ==>
              var f := Resolve(w, c, off).frame;
              f in w.frames && w.frames[f].owner in c
              && (w.frames[f].offset == off || w.objs[w.frames[f].owner].kind.DevZero?)
    ensures Resolve(w, c, off).OnDisk? ==> Resolve(w, c, off).file in c && w.objs[Resolve(w, c, off).file].kind.VfsFile?
  {
    if c != [] {
      assert CacheOk(w.frames, c[0], w.objs[c[0]]) && ObjOk(w.objs, w.vmas, c[0]);
      if !Supplies(w.objs[c[0]], off) {
        ResolveSound(w, c[1..], off);
      }
    }
  }

  /** A lookup in a live vma never falls off the end of its chain. */
  lemma {:induction false} ResolveFinds(w: World, c: seq<ObjId>, off: nat)
    requires c != [] && forall i :: 0 <= i < |c| ==> c[i] in w.objs
    requires !w.objs[c[|c| - 1]].kind.Shadow?
    ensures !Resolve(w, c, off).Missing?
  {
    if !Supplies(w.objs[c[0]], off) {
      ResolveFinds(w, c[1..], off);
    }
  }
}
