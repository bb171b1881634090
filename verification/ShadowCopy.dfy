/**
 Copy on write and page faults as a whole: what they keep in every case, and what they
 keep as long as the drop that follows a copy loses no page.
 */
module ShadowCopy {
  import opened Basics
  import opened ShadowWorld
  import opened ShadowSteps
  import opened ShadowInvariant
  import opened ShadowForkExit
  import opened ShadowViews
  import opened ShadowFaults

  // ---------------------------------------------------------------------------
  // Write faults and the drop test
  // ---------------------------------------------------------------------------

  /** The drop that a copy may trigger takes only covered pages. */
  ghost predicate CopyCovered(w: World, v: VmaId, off: nat, s: ObjId, fin: Frame, fcow: Frame)
    requires v in w.vmas && w.vmas[v].chain != [] && w.vmas[v].chain[0] in w.objs
  {
    AlreadyWritable(w, v, off) ||
    var w1 := WithFrontPage(w, v, off, s, fin, fcow);
    v in w1.vmas && (DropFires(w1, v) ==> CoveredDrop(w1, v))
  }

  /** Copy on write always leaves a sound world in which v owns the page. */
  lemma CopySound(w: World, v: VmaId, off: nat, s: ObjId, fin: Frame, fcow: Frame) returns (w': World)
    requires Inv(w) && CanCopy(w, v, off, s, fin, fcow)
    ensures w' == CopyOnWrite(w, v, off, s, fin, fcow)
    ensures Inv(w') && w'.vmas.Keys == w.vmas.Keys && AlreadyWritable(w', v, off)
    ensures Src(w', v, off) == Resident(w'.objs[w'.vmas[v].chain[0]].pages[off])
    ensures WritesOwned(w, Nothing) ==> WritesOwned(w', Nothing)
  {
    if AlreadyWritable(w, v, off) {
      w' := w;
      assert ObjOk(w.objs, w.vmas, w.vmas[v].chain[0]);
    } else {
      var w1 := FrontPageFacts(w, v, off, s, fin, fcow);
      if DropFires(w1, v) {
        CanUnhookFront(w1, v, off);
        DropSecondInv(w1, v);
        DropKeepsFront(w1, v, off);
        DropSecondUndisturbed(w1, v);
        w' := DropSecond(w1, v);
        if WritesOwned(w1, Nothing) { FrontsKeepWrites(w1, w', Nothing); }
      } else {
        w' := w1;
      }
    }
  }

  /** Unless the drop loses a page, nobody sees a difference. */
  lemma CopyViews(w: World, v: VmaId, off: nat, s: ObjId, fin: Frame, fcow: Frame)
    requires Inv(w) && CanCopy(w, v, off, s, fin, fcow) && CopyCovered(w, v, off, s, fin, fcow)
    ensures SameViews(w, CopyOnWrite(w, v, off, s, fin, fcow), Nothing)
    ensures PtesCurrent(w, Nothing) ==> PtesCurrent(CopyOnWrite(w, v, off, s, fin, fcow), One(v, off))
  {
    if AlreadyWritable(w, v, off) {
      if PtesCurrent(w, Nothing) {
        forall u, x | u in w.vmas && x in w.vmas[u].ptes && !IsStale(One(v, off), u, x) ensures PteCurrent(w, u, x) {}
      }
    } else {
      var w1 := FrontPageFacts(w, v, off, s, fin, fcow);
      if DropFires(w1, v) {
        CanUnhookFront(w1, v, off);
        CoveredDropFacts(w1, v);
        DropSecondUndisturbed(w1, v);
        ViewsTrans(w, w1, DropSecond(w1, v));
        if PtesCurrent(w, Nothing) { DropKeepsPtes(w1, v, off); }
      }
    }
  }

  lemma DropKeepsPtes(w: World, v: VmaId, off: nat)
    requires Inv(w) && CanUnhook(w, v) && CoveredDrop(w, v) && PtesCurrent(w, One(v, off))
    ensures PtesCurrent(DropSecond(w, v), One(v, off))
  {
    var w' := DropSecond(w, v);
    CoveredDropFacts(w, v);
    forall u, x | u in w'.vmas && x in w'.vmas[u].ptes && !IsStale(One(v, off), u, x) ensures PteCurrent(w', u, x) {
      assert PteCurrent(w, u, x) && Src(w', u, x) == Src(w, u, x);
    }
  }

  // ---------------------------------------------------------------------------
  // Files and devzero are never written
  // ---------------------------------------------------------------------------

  /** The page that a file or devzero object offers. */
  function Image(w: World, o: ObjId, x: nat): Page {
    Bytes(w, Resolve(w, [o], x), x)
  }

  ghost predicate SameImages(w: World, w': World) {
    && (forall o :: o in w'.objs && !w'.objs[o].kind.Shadow? ==> o in w.objs && w'.objs[o].kind == w.objs[o].kind)
    && (forall o, x {:trigger Image(w', o, x)} :: o in w'.objs && !w'.objs[o].kind.Shadow? ==> Image(w', o, x) == Image(w, o, x))
  }

  lemma BasesGiveImages(w: World, w': World)
    requires Inv(w) && Inv(w') && SameData(w, w') && BasesKept(w, w')
    ensures SameImages(w, w')
  {
    forall o, x | o in w'.objs && !w'.objs[o].kind.Shadow? ensures Image(w', o, x) == Image(w, o, x) {
      ResolveSound(w, [o], x);
      ResolveSound(w', [o], x);
    }
  }

  lemma ImagesTrans(w: World, w1: World, w': World)
    requires SameImages(w, w1) && SameImages(w1, w')
    ensures SameImages(w, w')
  {
    forall o, x | o in w'.objs && !w'.objs[o].kind.Shadow? ensures Image(w', o, x) == Image(w, o, x) {
      assert Image(w', o, x) == Image(w1, o, x) && Image(w1, o, x) == Image(w, o, x);
    }
  }

  lemma PageInImages(w: World, q: ObjId, off: nat, f: Frame)
    requires Inv(w) && f !in w.frames
    requires q in w.objs && w.objs[q].kind.VfsFile? && off in w.objs[q].kind.contents && off !in w.objs[q].pages
    ensures SameImages(w, PageIn(w, q, off, f))
  {
    var w' := PageIn(w, q, off, f);
    forall o, x | o in w'.objs && !w'.objs[o].kind.Shadow? ensures Image(w', o, x) == Image(w, o, x) {
      PageInResolve(w, q, off, f, [o], x);
      ResolveSound(w, [o], x);
    }
  }

  lemma FetchImages(w: World, v: VmaId, off: nat, f: Frame)
    requires Inv(w) && v in w.vmas && w.vmas[v].chain != [] && w.vmas[v].lo <= off < w.vmas[v].hi
    requires Src(w, v, off).OnDisk? ==> f !in w.frames
    ensures SameImages(w, Fetch(w, v, off, f))
  {
    FetchSource(w, v, off, f);
    if Src(w, v, off).OnDisk? {
      PageInImages(w, Src(w, v, off).file, off, f);
    }
  }

  lemma AddPageImages(w: World, v: VmaId, off: nat, f: Frame, data: Page)
    requires Inv(w) && FrontLacks(w, v, off) && f !in w.frames && w.vmas[v].lo <= off < w.vmas[v].hi
    ensures SameImages(w, AddPage(w, v, off, f, data))
  {
    assert ObjOk(w.objs, w.vmas, w.vmas[v].chain[0]);
    AddPageInv(w, v, off, f, data);
    BasesGiveImages(w, AddPage(w, v, off, f, data));
  }

  lemma FrontedImages(w: World, v: VmaId, off: nat, s: ObjId)
    requires Inv(w) && v in w.vmas && w.vmas[v].chain != [] && w.vmas[v].chain[0] in w.objs && s !in w.objs
    requires !AlreadyWritable(w, v, off)
    ensures SameImages(w, Fronted(w, v, s))
  {
    FrontedInv(w, v, off, s);
    BasesGiveImages(w, Fronted(w, v, s));
  }

  lemma FrontPageImages(w: World, v: VmaId, off: nat, s: ObjId, fin: Frame, fcow: Frame)
    requires Inv(w) && CanCopy(w, v, off, s, fin, fcow) && !AlreadyWritable(w, v, off)
    ensures SameImages(w, WithFrontPage(w, v, off, s, fin, fcow))
  {
    var w1 := FrontedReady(w, v, off, s, fin);
    FrontedImages(w, v, off, s);
    var w2 := FetchReady(w1, v, off, fin, fcow);
    FetchImages(w1, v, off, fin);
    AddPageImages(w2, v, off, fcow, View(w2, v, off));
    ImagesTrans(w, w1, w2);
    ImagesTrans(w, w2, WithFrontPage(w, v, off, s, fin, fcow));
  }

  lemma CopyImages(w: World, v: VmaId, off: nat, s: ObjId, fin: Frame, fcow: Frame)
    requires Inv(w) && CanCopy(w, v, off, s, fin, fcow)
    ensures SameImages(w, CopyOnWrite(w, v, off, s, fin, fcow))
  {
    if !AlreadyWritable(w, v, off) {
      var w1 := FrontPageFacts(w, v, off, s, fin, fcow);
      FrontPageImages(w, v, off, s, fin, fcow);
      if DropFires(w1, v) {
        CanUnhookFront(w1, v, off);
        DropSecondInv(w1, v);
        DropSecondUndisturbed(w1, v);
        BasesGiveImages(w1, DropSecond(w1, v));
        ImagesTrans(w, w1, DropSecond(w1, v));
      }
    }
  }

  lemma StoreImages(w: World, v: VmaId, off: nat, i: nat, b: Byte)
    requires Inv(w) && WritesOwned(w, Nothing) && v in w.vmas && off in w.vmas[v].ptes && w.vmas[v].ptes[off].writable
    requires w.vmas[v].ptes[off].frame in w.frames
    ensures SameImages(w, Store(w, v, off, i, b))
  {
    var w' := Store(w, v, off, i, b);
    assert WritablePtesOwned(w.objs, w.vmas[v]);
    var t := w.vmas[v].chain[0];
    assert ObjOk(w.objs, w.vmas, t) && CacheOk(w.frames, t, w.objs[t]);
    forall o, x | o in w'.objs && !w'.objs[o].kind.Shadow? ensures Image(w', o, x) == Image(w, o, x) {
      StoreResolve(w, v, off, i, b, [o], x);
      ResolveSound(w, [o], x);
    }
  }

  // ---------------------------------------------------------------------------
  // Faults
  // ---------------------------------------------------------------------------

  /** A fault inside the vma, with fresh identifiers for what it may allocate. */
  ghost predicate CanFault(w: World, v: VmaId, off: nat, reason: Reason, s: ObjId, fin: Frame, fcow: Frame) {
    && v in w.vmas && w.vmas[v].chain != [] && w.vmas[v].chain[0] in w.objs && w.vmas[v].lo <= off < w.vmas[v].hi
    && s !in w.objs && fin !in w.frames && fcow !in w.frames && fcow != fin
    && (reason == ReadAccess ==> off !in w.vmas[v].ptes)
  }

  /** The world before a write fault copies: a missing entry is read-faulted first. */
  function BeforeCopy(w: World, v: VmaId, off: nat, fin: Frame): World
    requires v in w.vmas
  {
    if off in w.vmas[v].ptes then w else Fetch(w, v, off, fin)
  }

  lemma BeforeCopyFacts(w: World, v: VmaId, off: nat, reason: Reason, s: ObjId, fin: Frame, fcow: Frame) returns (w': World)
    requires Inv(w) && CanFault(w, v, off, reason, s, fin, fcow)
    ensures w' == BeforeCopy(w, v, off, fin)
    ensures Inv(w') && CanCopy(w', v, off, s, fin, fcow) && w'.vmas == w.vmas
    ensures SameViews(w, w', Nothing) && SameImages(w, w')
    ensures PtesCurrent(w, Nothing) ==> PtesCurrent(w', Nothing)
    ensures WritesOwned(w, Nothing) ==> WritesOwned(w', Nothing)
  {
    w' := BeforeCopy(w, v, off, fin);
    if off !in w.vmas[v].ptes {
      FetchInv(w, v, off, fin);
      FetchViews(w, v, off, fin);
      FetchImages(w, v, off, fin);
      FetchSource(w, v, off, fin);
    }
  }

  ghost predicate FaultCovered(w: World, v: VmaId, off: nat, reason: Reason, s: ObjId, fin: Frame, fcow: Frame)
    requires v in w.vmas
  {
    var w1 := BeforeCopy(w, v, off, fin);
    reason == WriteAccess ==>
      w1.vmas[v].chain != [] && w1.vmas[v].chain[0] in w1.objs && CopyCovered(w1, v, off, s, fin, fcow)
  }

  lemma SetPteSources(w: World, v: VmaId, off: nat, pte: Pte)
    requires Inv(w) && v in w.vmas
    ensures SameSources(w, SetPte(w, v, off, pte), Nothing)
    ensures SameViews(w, SetPte(w, v, off, pte), Nothing)
    ensures SameImages(w, SetPte(w, v, off, pte))
  {
    var w' := SetPte(w, v, off, pte);
    SetPteInv(w, v, off, pte);
    SourcesUntouched(w, w');
    SourcesGiveViews(w, w', Nothing);
    BasesGiveImages(w, w');
  }

  /** Mapping the frame that the lookup returns makes the last stale entry current. */
  lemma SetPteCurrent(w: World, v: VmaId, off: nat, pte: Pte)
    requires Inv(w) && v in w.vmas && PtesCurrent(w, One(v, off)) && Src(w, v, off) == Resident(pte.frame)
    ensures PtesCurrent(SetPte(w, v, off, pte), Nothing)
  {
    var w' := SetPte(w, v, off, pte);
    SetPteSources(w, v, off, pte);
    forall u, x | u in w'.vmas && x in w'.vmas[u].ptes ensures PteCurrent(w', u, x) {
      assert Src(w', u, x) == Src(w, u, x);
      if !(u == v && x == off) { assert PteCurrent(w, u, x); }
    }
  }

  lemma SetPteWrites(w: World, v: VmaId, off: nat, pte: Pte)
    requires v in w.vmas && WritesOwned(w, Nothing)
    requires pte.writable ==> AlreadyWritable(w, v, off) && w.objs[w.vmas[v].chain[0]].pages[off] == pte.frame
    ensures WritesOwned(SetPte(w, v, off, pte), Nothing)
  {
    var w' := SetPte(w, v, off, pte);
    forall u | u in w'.vmas ensures WritablePtesOwned(w'.objs, w'.vmas[u]) {
      assert WritablePtesOwned(w.objs, w.vmas[u]);
    }
  }

  /** Every fault, whatever its drop does, leaves a sound world, unwritten files and
      writable entries that name the vma's own front pages only. */
  lemma FaultSound(w: World, v: VmaId, off: nat, reason: Reason, s: ObjId, fin: Frame, fcow: Frame) returns (w': World)
    requires Inv(w) && WritesOwned(w, Nothing) && CanFault(w, v, off, reason, s, fin, fcow)
    ensures w' == Fault(w, v, off, reason, s, fin, fcow)
    ensures Inv(w') && WritesOwned(w', Nothing) && SameImages(w, w') && w'.vmas.Keys == w.vmas.Keys
    ensures off in w'.vmas[v].ptes && (reason == WriteAccess ==> w'.vmas[v].ptes[off].writable)
  {
    if reason == WriteAccess {
      var w1 := BeforeCopyFacts(w, v, off, reason, s, fin, fcow);
      var w2 := CopySound(w1, v, off, s, fin, fcow);
      CopyImages(w1, v, off, s, fin, fcow);
      var pte := Pte(Found(w2, v, off), true);
      SetPteInv(w2, v, off, pte);
      SetPteWrites(w2, v, off, pte);
      SetPteSources(w2, v, off, pte);
      w' := SetPte(w2, v, off, pte);
      ImagesTrans(w, w1, w2);
      ImagesTrans(w, w2, w');
    } else {
      w' := ReadFaultSound(w, v, off, reason, s, fin, fcow);
    }
  }

  lemma ReadFaultSound(w: World, v: VmaId, off: nat, reason: Reason, s: ObjId, fin: Frame, fcow: Frame) returns (w': World)
    requires Inv(w) && WritesOwned(w, Nothing) && CanFault(w, v, off, reason, s, fin, fcow) && reason != WriteAccess
    ensures w' == Fault(w, v, off, reason, s, fin, fcow)
    ensures Inv(w') && WritesOwned(w', Nothing) && SameImages(w, w') && w'.vmas.Keys == w.vmas.Keys
    ensures off in w'.vmas[v].ptes && SameViews(w, w', Nothing)
    ensures PtesCurrent(w, Nothing) ==> PtesCurrent(w', Nothing)
  {
    var w1 := Fetch(w, v, off, fin);
    FetchInv(w, v, off, fin);
    FetchViews(w, v, off, fin);
    FetchImages(w, v, off, fin);
    var pte := Pte(Found(w1, v, off), off in w.vmas[v].ptes && w.vmas[v].ptes[off].writable);
    if pte.writable {
      assert WritablePtesOwned(w1.objs, w1.vmas[v]);
      assert ObjOk(w1.objs, w1.vmas, w1.vmas[v].chain[0]);
    }
    SetPteInv(w1, v, off, pte);
    SetPteWrites(w1, v, off, pte);
    SetPteSources(w1, v, off, pte);
    w' := SetPte(w1, v, off, pte);
    ImagesTrans(w, w1, w');
    ViewsTrans(w, w1, w');
    if PtesCurrent(w, Nothing) {
      forall u, x | u in w1.vmas && x in w1.vmas[u].ptes && !IsStale(One(v, off), u, x) ensures PteCurrent(w1, u, x) {}
      SetPteCurrent(w1, v, off, pte);
    }
  }

  /** A fault whose drop is covered is invisible, and leaves every entry current. */
  lemma FaultViews(w: World, v: VmaId, off: nat, reason: Reason, s: ObjId, fin: Frame, fcow: Frame) returns (w': World)
    requires Inv(w) && WritesOwned(w, Nothing) && CanFault(w, v, off, reason, s, fin, fcow)
    requires FaultCovered(w, v, off, reason, s, fin, fcow)
    ensures w' == Fault(w, v, off, reason, s, fin, fcow)
    ensures SameViews(w, w', Nothing)
    ensures PtesCurrent(w, Nothing) ==> PtesCurrent(w', Nothing)
  {
    if reason == WriteAccess {
      var w1 := BeforeCopyFacts(w, v, off, reason, s, fin, fcow);
      CopyViews(w1, v, off, s, fin, fcow);
      var w2 := CopySound(w1, v, off, s, fin, fcow);
      var pte := Pte(Found(w2, v, off), true);
      SetPteSources(w2, v, off, pte);
      w' := SetPte(w2, v, off, pte);
      ViewsTrans(w, w1, w2);
      ViewsTrans(w, w2, w');
      if PtesCurrent(w, Nothing) { SetPteCurrent(w2, v, off, pte); }
    } else {
      w' := ReadFaultSound(w, v, off, reason, s, fin, fcow);
    }
  }
}
