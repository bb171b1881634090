/**
 What each operation of the fault handler does to the world, as functions of the
 world before. Identifiers that an allocator would hand out (vmas, objects, frames)
 are parameters.
 */
module ShadowSteps {
  import opened Basics
  import opened ShadowWorld

  // ---------------------------------------------------------------------------
  // Mapping and page-in
  // ---------------------------------------------------------------------------

  /** A file or devzero object can back the pages [lo, hi) of a new vma. */
  ghost predicate CanMmap(w: World, v: VmaId, base: ObjId, lo: nat, hi: nat) {
    && v !in w.vmas
    && base in w.objs && !w.objs[base].kind.Shadow?
    && InFile(w.objs[base], lo, hi)
  }

  function Mmap(w: World, v: VmaId, base: ObjId, lo: nat, hi: nat): World
    requires base in w.objs
  {
    var b := w.objs[base];
    w.(objs := w.objs[base := b.(links := [v] + b.links, nlinks := b.nlinks + 1)],
       vmas := w.vmas[v := Vma(lo, hi, [base], map[])])
  }

  /** file_page_in: reads one page of a file into a new frame. */
  function PageIn(w: World, o: ObjId, off: nat, f: Frame): World
    requires o in w.objs && w.objs[o].kind.VfsFile? && off in w.objs[o].kind.contents
  {
    var obj := w.objs[o];
    w.(objs := w.objs[o := obj.(pages := obj.pages[off := f], npages := obj.npages + 1)],
       frames := w.frames[f := PageFrame(o, off, obj.kind.contents[off])])
  }

  /** Asks the objects of a chain in turn for a page; only a file has work to do. */
  function Fetch(w: World, v: VmaId, off: nat, f: Frame): World
    requires v in w.vmas
  {
    match Resolve(w, w.vmas[v].chain, off)
    case OnDisk(o) =>
      if o in w.objs && w.objs[o].kind.VfsFile? && off in w.objs[o].kind.contents then PageIn(w, o, off, f) else w
    case _ => w
  }

  // ---------------------------------------------------------------------------
  // Copy on write
  // ---------------------------------------------------------------------------

  function NewShadow(w: World, v: VmaId, s: ObjId): World
    requires v in w.vmas && w.vmas[v].chain != [] && w.vmas[v].chain[0] in w.objs
  {
    var a := w.vmas[v];
    var t := a.chain[0];
    var top := w.objs[t];
    w.(objs := w.objs[t := top.(shadowers := [s] + top.shadowers, shadows := top.shadows + 1)]
               [s := Obj(Shadow, true, Some(t), map[], 0, [v], 1, [], 0)],
       vmas := w.vmas[v := a.(chain := [s] + a.chain)])
  }

  function AddPage(w: World, v: VmaId, off: nat, f: Frame, data: Page): World
    requires v in w.vmas && w.vmas[v].chain != [] && w.vmas[v].chain[0] in w.objs
  {
    var t := w.vmas[v].chain[0];
    var top := w.objs[t];
    w.(objs := w.objs[t := top.(pages := top.pages[off := f], npages := top.npages + 1)],
       frames := w.frames[f := PageFrame(t, off, data)])
  }

  function SetPte(w: World, v: VmaId, off: nat, pte: Pte): World
    requires v in w.vmas
  {
    w.(vmas := w.vmas[v := w.vmas[v].(ptes := w.vmas[v].ptes[off := pte])])
  }

  /** vm_object_is_droppable: equal page counts over a shadow. */
  predicate Droppable(shadow: Obj, original: Obj) {
    shadow.npages == original.npages && original.kind.Shadow?
  }

  /** vm_object_is_subset, which the fault handler does not consult. */
  predicate Covers(shadow: Obj, original: Obj) {
    forall x :: x in original.pages ==> x in shadow.pages
  }

  /** The world in which v has a writable front object, created if need be. */
  function Fronted(w: World, v: VmaId, s: ObjId): World
    requires v in w.vmas && w.vmas[v].chain != [] && w.vmas[v].chain[0] in w.objs
  {
    if w.objs[w.vmas[v].chain[0]].writable then w else NewShadow(w, v, s)
  }

  /** The world after the writable front object of v got its own copy of a page. */
  function WithFrontPage(w: World, v: VmaId, off: nat, s: ObjId, fin: Frame, fcow: Frame): World
    requires v in w.vmas && w.vmas[v].chain != [] && w.vmas[v].chain[0] in w.objs
  {
    var w1 := Fetch(Fronted(w, v, s), v, off, fin);
    if w1.vmas[v].chain[0] in w1.objs then AddPage(w1, v, off, fcow, View(w1, v, off)) else w1
  }

  /** The test after a copy: do the counts say that the second object is redundant? */
  predicate DropFires(w: World, v: VmaId)
    requires v in w.vmas
  {
    var c := w.vmas[v].chain;
    && 3 <= |c| && c[0] in w.objs && c[1] in w.objs && c[2] in w.objs
    && Droppable(w.objs[c[0]], w.objs[c[1]])
  }

  /** A page table hit on an existing writable page returns before the drop test. */
  predicate AlreadyWritable(w: World, v: VmaId, off: nat)
    requires v in w.vmas
  {
    var c := w.vmas[v].chain;
    c != [] && c[0] in w.objs && w.objs[c[0]].writable && off in w.objs[c[0]].pages
  }

  function CopyOnWrite(w: World, v: VmaId, off: nat, s: ObjId, fin: Frame, fcow: Frame): World
    requires v in w.vmas && w.vmas[v].chain != [] && w.vmas[v].chain[0] in w.objs
  {
    if AlreadyWritable(w, v, off) then w
    else
      var w1 := WithFrontPage(w, v, off, s, fin, fcow);
      if v in w1.vmas && DropFires(w1, v) then DropSecond(w1, v) else w1
  }

  // ---------------------------------------------------------------------------
  // Dropping, deleting, merging
  // ---------------------------------------------------------------------------

  /** vm_object_delete: the object and the frames it still owns. */
  function Delete(w: World, o: ObjId): World {
    w.(objs := map q | q in w.objs && q != o :: w.objs[q],
       frames := map f | f in w.frames && w.frames[f].owner != o :: w.frames[f])
  }

  /** A redundant shadow: one link left and one shadow in front. */
  predicate Mergeable(obj: Obj) {
    obj.kind.Shadow? && obj.nlinks == 1 && obj.shadows == 1
  }

  /** The pages of a redundant shadow that the shadow in front of it lacks. */
  function Lacking(front: Obj, red: Obj): map<nat, Frame> {
    map x | x in red.pages && x !in front.pages :: red.pages[x]
  }

  /** The pages of both, those of the front where both have one. */
  function Union(fp: map<nat, Frame>, rp: map<nat, Frame>): map<nat, Frame> {
    map x | x in fp.Keys + rp.Keys :: if x in fp then fp[x] else rp[x]
  }

  /** The front shadow after it took over those pages and the original. */
  function Absorb(front: Obj, red: Obj): Obj {
    front.(pages := Union(front.pages, red.pages), npages := front.npages + |Lacking(front, red)|, orig := red.orig)
  }

  /** Frames after the move: the moved ones change owner, the rest of r's are freed. */
  function Rehome(frames: map<Frame, PageFrame>, r: ObjId, s: ObjId, kept: map<nat, Frame>): map<Frame, PageFrame> {
    map f | f in frames && !(frames[f].owner == r && frames[f].offset in kept) ::
      if frames[f].owner == r then frames[f].(owner := s) else frames[f]
  }

  /** vma_merge_object: moves the pages the front shadow lacks, then unlinks and
      deletes the redundant object. */
  function Merge(w: World, r: ObjId): World
    requires r in w.objs && w.objs[r].links != [] && w.objs[r].shadowers != [] && w.objs[r].orig.Some?
    requires w.objs[r].links[0] in w.vmas && w.objs[r].shadowers[0] in w.objs && w.objs[r].orig.value in w.objs
  {
    var red := w.objs[r];
    var s, v, n := red.shadowers[0], red.links[0], red.orig.value;
    var front, next := w.objs[s], w.objs[n];
    World(map o | o in w.objs && o != r ::
            if o == s then Absorb(front, red)
            else if o == n then next.(shadowers := [s] + Without(next.shadowers, r))
            else w.objs[o],
          w.vmas[v := w.vmas[v].(chain := Without(w.vmas[v].chain, r))],
          Rehome(w.frames, r, s, front.pages))
  }

  /** The merge that vma_drop_merge_delete ends with. */
  function Collapse(w: World, d: ObjId): World {
    if d in w.objs && Mergeable(w.objs[d]) && w.objs[d].links != [] && w.objs[d].shadowers != [] && w.objs[d].orig.Some?
       && w.objs[d].links[0] in w.vmas && w.objs[d].shadowers[0] in w.objs && w.objs[d].orig.value in w.objs
    then Merge(w, d) else w
  }

  /** vma_drop_merge_delete on the second link: the front shadow now shadows the third object. */
  function Unhook(w: World, v: VmaId): World
    requires v in w.vmas && 3 <= |w.vmas[v].chain|
    requires forall i :: 0 <= i < 3 ==> w.vmas[v].chain[i] in w.objs
  {
    var a := w.vmas[v];
    var p, d, n := a.chain[0], a.chain[1], a.chain[2];
    var front, was, next := w.objs[p], w.objs[d], w.objs[n];
    var dropped := was.(links := Without(was.links, v), nlinks := was.nlinks - 1,
                        shadowers := Without(was.shadowers, p), shadows := was.shadows - 1);
    var next' := if dropped.nlinks == 0 then next.(shadowers := [p] + Without(next.shadowers, d))
                 else next.(shadowers := [p] + next.shadowers, shadows := next.shadows + 1);
    w.(objs := map o | o in w.objs ::
                 if o == d then dropped else if o == p then front.(orig := Some(n)) else if o == n then next' else w.objs[o],
       vmas := w.vmas[v := a.(chain := [p] + a.chain[2..])])
  }

  function DropSecond(w: World, v: VmaId): World
    requires v in w.vmas && 3 <= |w.vmas[v].chain|
    requires forall i :: 0 <= i < 3 ==> w.vmas[v].chain[i] in w.objs
  {
    var d := w.vmas[v].chain[1];
    var w1 := Unhook(w, v);
    if w.objs[d].nlinks == 1 then Delete(w1, d) else Collapse(w1, d)
  }

  /** vma_drop_merge_delete on the first link, as exit does. */
  function Unlink(w: World, v: VmaId): World
    requires v in w.vmas && w.vmas[v].chain != [] && w.vmas[v].chain[0] in w.objs
  {
    var a := w.vmas[v];
    var d := a.chain[0];
    var was := w.objs[d];
    var dropped := was.(links := Without(was.links, v), nlinks := was.nlinks - 1);
    var vmas' := w.vmas[v := a.(chain := a.chain[1..])];
    if dropped.nlinks == 0 && dropped.kind.Shadow? && 1 < |a.chain| && a.chain[1] in w.objs then
      var n := a.chain[1];
      var next := w.objs[n];
      var next' := next.(shadowers := Without(next.shadowers, d), shadows := next.shadows - 1);
      w.(objs := map o | o in w.objs :: if o == d then dropped else if o == n then next' else w.objs[o],
         vmas := vmas')
    else w.(objs := w.objs[d := dropped], vmas := vmas')
  }

  /** vm_object_is_deletable. */
  predicate Deletable(obj: Obj) {
    obj.nlinks == 0 && (obj.kind.Shadow? || (obj.kind.VfsFile? && obj.kind.openers == 0))
  }

  function DropFirst(w: World, v: VmaId): World
    requires v in w.vmas && w.vmas[v].chain != [] && w.vmas[v].chain[0] in w.objs
  {
    var d := w.vmas[v].chain[0];
    var w1 := Unlink(w, v);
    if Deletable(w1.objs[d]) then Delete(w1, d) else Collapse(w1, d)
  }

  /** vma_drop_merge_delete_all after n of its links are dropped, front to back. */
  function DropLinks(w: World, v: VmaId, n: nat): World {
    if n == 0 then w else DropNext(DropLinks(w, v, n - 1), v)
  }

  function DropNext(w: World, v: VmaId): World {
    if v in w.vmas && w.vmas[v].chain != [] && w.vmas[v].chain[0] in w.objs then DropFirst(w, v) else w
  }

  /** Exit and unmapping of a whole vma: all links go, then the vma. */
  function Exit(w: World, v: VmaId): World
    requires v in w.vmas
  {
    var w1 := DropLinks(w, v, |w.vmas[v].chain|);
    w1.(vmas := w1.vmas - {v})
  }

  // ---------------------------------------------------------------------------
  // Fork
  // ---------------------------------------------------------------------------

  /** vm_freeze_shadows for one vma. */
  function Freeze(w: World, v: VmaId): World
    requires v in w.vmas
  {
    var a := w.vmas[v];
    if a.chain == [] || a.chain[0] !in w.objs || !w.objs[a.chain[0]].writable || !w.objs[a.chain[0]].kind.Shadow? then w
    else
      var top := w.objs[a.chain[0]];
      w.(objs := w.objs[a.chain[0] := top.(writable := false)],
         vmas := w.vmas[v := a.(ptes := a.ptes + (map x | x in top.pages :: Pte(top.pages[x], false)))])
  }

  ghost predicate Frozen(w: World, v: VmaId)
    requires v in w.vmas
  {
    forall i :: 0 <= i < |w.vmas[v].chain| && w.vmas[v].chain[i] in w.objs ==> !w.objs[w.vmas[v].chain[i]].writable
  }

  /** vma_copy_links into a new vma, together with the copied page tables of the child. */
  function CopyLinks(w: World, v: VmaId, u: VmaId): World
    requires v in w.vmas
  {
    var a := w.vmas[v];
    w.(objs := map o | o in w.objs ::
                 if o in a.chain then w.objs[o].(links := [u] + w.objs[o].links, nlinks := w.objs[o].nlinks + 1)
                 else w.objs[o],
       vmas := w.vmas[u := a])
  }

  // ---------------------------------------------------------------------------
  // User accesses and faults
  // ---------------------------------------------------------------------------

  /** A store of byte b through a page table entry. */
  function Store(w: World, v: VmaId, off: nat, i: nat, b: Byte): World
    requires v in w.vmas && off in w.vmas[v].ptes
    requires w.vmas[v].ptes[off].frame in w.frames
  {
    var f := w.vmas[v].ptes[off].frame;
    var p := w.frames[f];
    if i < |p.data| then w.(frames := w.frames[f := p.(data := p.data[i := b])]) else w
  }

  datatype Reason = ReadAccess | WriteAccess | ExecAccess

  /** The frame that a completed fault maps. */
  function Found(w: World, v: VmaId, off: nat): Frame
    requires v in w.vmas
  {
    var r := Resolve(w, w.vmas[v].chain, off);
    if r.Resident? then r.frame else 0
  }

  /** __do_page_fault on a private vma. A read fault on a present page is a bug there. */
  function Fault(w: World, v: VmaId, off: nat, reason: Reason, s: ObjId, fin: Frame, fcow: Frame): World
    requires v in w.vmas && w.vmas[v].chain != [] && w.vmas[v].chain[0] in w.objs
  {
    var present := off in w.vmas[v].ptes;
    if reason == WriteAccess then
      var w1 := if present then w else Fetch(w, v, off, fin);
      if w1.vmas[v].chain[0] in w1.objs then
        var w2 := CopyOnWrite(w1, v, off, s, fin, fcow);
        if v in w2.vmas then SetPte(w2, v, off, Pte(Found(w2, v, off), true)) else w2
      else w1
    else
      var w1 := Fetch(w, v, off, fin);
      SetPte(w1, v, off, Pte(Found(w1, v, off), present && w.vmas[v].ptes[off].writable))
  }
}
