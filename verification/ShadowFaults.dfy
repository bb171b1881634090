/**
 Whole faults, exits, forks and stores: what every vma shows, which frames the page
 table entries name and who may write, across the complete operation.
 */
module ShadowFaults {
  import opened Basics
  import opened ShadowWorld
  import opened ShadowSteps
  import opened ShadowInvariant
  import opened ShadowForkExit
  import opened ShadowViews

  // ---------------------------------------------------------------------------
  // Writable fronts
  // ---------------------------------------------------------------------------

  /** A writable front object stays in front with all its pages. */
  ghost predicate FrontKept(w: World, w': World, u: VmaId)
    requires u in w.vmas && u in w'.vmas
  {
    var c, c' := w.vmas[u].chain, w'.vmas[u].chain;
    c != [] && c[0] in w.objs && w.objs[c[0]].writable ==>
      && c' != [] && c'[0] == c[0] && c[0] in w'.objs && w'.objs[c[0]].writable
      && forall x :: x in w.objs[c[0]].pages ==> x in w'.objs[c[0]].pages && w'.objs[c[0]].pages[x] == w.objs[c[0]].pages[x]
  }

  ghost predicate FrontsKept(w: World, w': World, ex: Stale) {
    forall u {:trigger FrontKept(w, w', u)} :: u in w.vmas && u in w'.vmas && ex != AllOf(u) ==> FrontKept(w, w', u)
  }

  /** Files and devzero keep their kind and their page caches. */
  ghost predicate BasesKept(w: World, w': World) {
    forall o :: o in w'.objs && !w'.objs[o].kind.Shadow? ==>
      o in w.objs && w'.objs[o].kind == w.objs[o].kind && w'.objs[o].pages == w.objs[o].pages
  }

  /** All that a drop promises about the vmas and files it does not touch. */
  ghost predicate Undisturbed(w: World, w': World, ex: Stale) {
    SameData(w, w') && SamePtes(w, w', ex) && FrontsKept(w, w', ex) && BasesKept(w, w')
  }

  lemma FrontsKeepWrites(w: World, w': World, ex: Stale)
    requires WritesOwned(w, ex) && SamePtes(w, w', ex) && FrontsKept(w, w', ex)
    ensures WritesOwned(w', ex)
  {
    forall u | u in w'.vmas && ex != AllOf(u) ensures WritablePtesOwned(w'.objs, w'.vmas[u]) {
      assert WritablePtesOwned(w.objs, w.vmas[u]) && FrontKept(w, w', u);
    }
  }

  lemma UndisturbedTrans(w: World, w1: World, w': World, ex: Stale)
    requires Undisturbed(w, w1, ex) && Undisturbed(w1, w', ex) && w1.vmas.Keys == w.vmas.Keys
    requires forall f :: f in w'.frames && f in w.frames ==> f in w1.frames
    requires forall o :: o in w'.objs && o in w.objs ==> o in w1.objs
    ensures Undisturbed(w, w', ex)
  {
    forall u | u in w.vmas && u in w'.vmas && ex != AllOf(u) ensures FrontKept(w, w', u) {
      assert FrontKept(w, w1, u) && FrontKept(w1, w', u);
    }
  }

  lemma UnhookUndisturbed(w: World, v: VmaId)
    requires Inv(w) && CanUnhook(w, v)
    ensures Undisturbed(w, Unhook(w, v), Nothing)
  {
    hide Unhook, Inv;
    var w' := Unhook(w, v);
    UnhookKeeps(w, v);
    forall u | u in w.vmas ensures FrontKept(w, w', u) {}
  }

  lemma UnhookKeeps(w: World, v: VmaId)
    requires CanUnhook(w, v)
    ensures var w' := Unhook(w, v);
            && w'.frames == w.frames && w'.vmas.Keys == w.vmas.Keys && (forall u :: u in w.vmas && u != v ==> w'.vmas[u] == w.vmas[u])
            && w'.vmas[v] == w.vmas[v].(chain := w'.vmas[v].chain) && w'.vmas[v].chain != [] && w'.vmas[v].chain[0] == w.vmas[v].chain[0]
            && w'.objs.Keys == w.objs.Keys
            && forall o :: o in w.objs ==>
                 w'.objs[o].kind == w.objs[o].kind && w'.objs[o].pages == w.objs[o].pages && w'.objs[o].writable == w.objs[o].writable
  {
    hide Without;
  }

  lemma DeleteUndisturbed(w: World, d: ObjId, ex: Stale)
    requires forall u :: u in w.vmas ==> d !in w.vmas[u].chain
    ensures Undisturbed(w, Delete(w, d), ex)
  {
    var w' := Delete(w, d);
    forall u | u in w.vmas ensures FrontKept(w, w', u) {
      var c := w.vmas[u].chain;
      if c != [] { assert c[0] in c; }
    }
  }

  lemma MergeUndisturbed(w: World, r: ObjId)
    requires Inv(w) && r in w.objs && Mergeable(w.objs[r])
    ensures Undisturbed(w, Collapse(w, r), Nothing)
    ensures Collapse(w, r).vmas.Keys == w.vmas.Keys
    ensures forall f :: f in Collapse(w, r).frames ==> f in w.frames
    ensures forall o :: o in Collapse(w, r).objs ==> o in w.objs
  {
    var s, v, n, k := MergeFacts(w, r);
    MergeEffect(w, r, s, v, n, k);
    MergeSources(w, r);
    var w' := Merge(w, r);
    assert VmaOk(w.objs, v, w.vmas[v]);
    MergeFrontOf(w, w', r, s, v, n, k);
    forall u | u in w.vmas ensures FrontKept(w, w', u) {
      MergeFront(w, w', r, s, v, n, u);
    }
    assert ObjOk(w.objs, w.vmas, s);
    forall o | o in w'.objs && !w'.objs[o].kind.Shadow? ensures w'.objs[o].pages == w.objs[o].pages {
      MergeLinkObj(w, w', r, s, v, n, o);
    }
  }

  lemma MergeFrontOf(w: World, w': World, r: ObjId, s: ObjId, v: VmaId, n: ObjId, k: nat)
    requires Merging(w, r, s, v, n, k) && Merged(w, w', r, s, v, n) && NoDup(w.vmas[v].chain)
    ensures w'.vmas[v].chain != [] && w'.vmas[v].chain[0] == w.vmas[v].chain[0] && w.vmas[v].chain[0] != r
  {
    SpliceAt(w.vmas[v].chain, k + 1);
  }

  lemma MergeFront(w: World, w': World, r: ObjId, s: ObjId, v: VmaId, n: ObjId, u: VmaId)
    requires r in w.objs && s in w.objs && n in w.objs && v in w.vmas && Merged(w, w', r, s, v, n) && s != n
    requires w'.vmas[v].chain != [] && w'.vmas[v].chain[0] == w.vmas[v].chain[0] && w.vmas[v].chain[0] != r
    requires u in w.vmas && (u != v ==> r !in w.vmas[u].chain)
    ensures FrontKept(w, w', u)
  {
    var c := w.vmas[u].chain;
    if c != [] && c[0] in w.objs {
      assert c[0] in c;
      MergeLinkObj(w, w', r, s, v, n, c[0]);
    }
  }

  lemma DropSecondUndisturbed(w: World, v: VmaId)
    requires Inv(w) && CanUnhook(w, v)
    ensures Undisturbed(w, DropSecond(w, v), Nothing) && DropSecond(w, v).vmas.Keys == w.vmas.Keys
  {
    var d := w.vmas[v].chain[1];
    var w1 := Unhook(w, v);
    UnhookUndisturbed(w, v);
    if w.objs[d].nlinks == 1 {
      UnhookGone(w, v);
      DeleteUndisturbed(w1, d, Nothing);
      UndisturbedTrans(w, w1, Delete(w1, d), Nothing);
    } else if Mergeable(w1.objs[d]) {
      UnhookInv(w, v);
      MergeUndisturbed(w1, d);
      UndisturbedTrans(w, w1, Collapse(w1, d), Nothing);
    }
  }

  // ---------------------------------------------------------------------------
  // Exit
  // ---------------------------------------------------------------------------

  lemma UnlinkUndisturbed(w: World, v: VmaId)
    requires Inv(w) && v in w.vmas && w.vmas[v].chain != [] && w.vmas[v].chain[0] in w.objs
    ensures Undisturbed(w, Unlink(w, v), AllOf(v)) && SameSources(w, Unlink(w, v), AllOf(v))
  {
    hide Unlink, Inv, Resolve;
    var w' := Unlink(w, v);
    UnlinkKeeps(w, v);
    forall u, x | u in w.vmas && u != v ensures Src(w', u, x) == Src(w, u, x) {
      ChainLive(w, u);
      ResolveKept(w, w', w.vmas[u].chain, x);
    }
    forall u | u in w.vmas && u != v ensures FrontKept(w, w', u) {}
  }

  lemma UnlinkKeeps(w: World, v: VmaId)
    requires v in w.vmas && w.vmas[v].chain != [] && w.vmas[v].chain[0] in w.objs
    ensures var w' := Unlink(w, v);
            && w'.frames == w.frames && w'.vmas.Keys == w.vmas.Keys && (forall u :: u in w.vmas && u != v ==> w'.vmas[u] == w.vmas[u])
            && w'.objs.Keys == w.objs.Keys
            && forall o :: o in w.objs ==>
                 w'.objs[o].kind == w.objs[o].kind && w'.objs[o].pages == w.objs[o].pages && w'.objs[o].writable == w.objs[o].writable
  {
  }

  /** The vma v may lose links; all other vmas keep their places, bytes and entries. */
  ghost predicate Calm(w: World, w': World, v: VmaId) {
    && Undisturbed(w, w', AllOf(v)) && SameSources(w, w', AllOf(v)) && w'.vmas.Keys == w.vmas.Keys
    && (forall f :: f in w'.frames ==> f in w.frames)
    && (forall o :: o in w'.objs ==> o in w.objs)
  }

  lemma CalmTrans(w: World, w1: World, w': World, v: VmaId)
    requires Calm(w, w1, v) && Calm(w1, w', v)
    ensures Calm(w, w', v)
  {
    UndisturbedTrans(w, w1, w', AllOf(v));
    SourcesTrans(w, w1, w', AllOf(v));
  }

  lemma CollapseCalm(w: World, d: ObjId, v: VmaId)
    requires Inv(w) && d in w.objs && Mergeable(w.objs[d])
    ensures Calm(w, Collapse(w, d), v)
  {
    var w' := Collapse(w, d);
    MergeUndisturbed(w, d);
    MergeSources(w, d);
    forall u, x | u in w.vmas && u in w'.vmas ensures Src(w', u, x) == Src(w, u, x) {}
    forall u | u in w.vmas && u in w'.vmas ensures FrontKept(w, w', u) {}
  }

  lemma DeleteCalm(w: World, d: ObjId, v: VmaId)
    requires forall u :: u in w.vmas ==> d !in w.vmas[u].chain
    requires forall u :: u in w.vmas ==> forall o :: o in w.vmas[u].chain ==> o in w.objs
    ensures Calm(w, Delete(w, d), v)
  {
    DeleteUndisturbed(w, d, AllOf(v));
    DeleteSources(w, d);
    forall u, x | u in w.vmas ensures Src(Delete(w, d), u, x) == Src(w, u, x) {}
  }

  lemma UnlinkCalm(w: World, v: VmaId)
    requires Inv(w) && v in w.vmas && w.vmas[v].chain != [] && w.vmas[v].chain[0] in w.objs
    ensures Calm(w, Unlink(w, v), v)
  {
    UnlinkUndisturbed(w, v);
  }

  /** One link dropped by an exiting vma disturbs no other vma. */
  lemma DropFirstCalm(w: World, v: VmaId)
    requires Inv(w) && v in w.vmas && w.vmas[v].chain != [] && w.vmas[v].chain[0] in w.objs
    ensures Calm(w, DropFirst(w, v), v)
  {
    var d := w.vmas[v].chain[0];
    var w1 := Unlink(w, v);
    UnlinkCalm(w, v);
    FrontFacts(w, v);
    assert ObjOk(w.objs, w.vmas, d);
    if Deletable(w1.objs[d]) {
      UnlinkGone(w, v);
      DeleteCalm(w1, d, v);
      CalmTrans(w, w1, Delete(w1, d), v);
    } else if Mergeable(w1.objs[d]) {
      UnlinkInv(w, v);
      CollapseCalm(w1, d, v);
      CalmTrans(w, w1, Collapse(w1, d), v);
    }
  }

  lemma UnlinkGone(w: World, v: VmaId)
    requires Inv(w) && v in w.vmas && w.vmas[v].chain != [] && w.vmas[v].chain[0] in w.objs
    requires w.objs[w.vmas[v].chain[0]].nlinks == 1
    ensures var w1 := Unlink(w, v);
            && (forall u :: u in w1.vmas ==> w.vmas[v].chain[0] !in w1.vmas[u].chain)
            && (forall u :: u in w1.vmas ==> forall o :: o in w1.vmas[u].chain ==> o in w1.objs)
  {
    var d := w.vmas[v].chain[0];
    var w1 := Unlink(w, v);
    FrontFacts(w, v);
    UnlinkVmas(w, v);
    assert ObjOk(w.objs, w.vmas, d);
    SingletonList(w.objs[d].links, v);
    forall u | u in w1.vmas ensures d !in w1.vmas[u].chain {
      if d in w1.vmas[u].chain { ChainHasLink(w1, d, u); }
    }
    forall u, o | u in w1.vmas && o in w1.vmas[u].chain ensures o in w1.objs {
      ChainHasLink(w1, o, u);
    }
  }

  lemma CalmRefl(w: World, v: VmaId)
    ensures Calm(w, w, v)
  {
    forall u | u in w.vmas ensures FrontKept(w, w, u) {}
  }

  lemma DropNextCalm(w: World, v: VmaId)
    requires Inv(w) && v in w.vmas && w.vmas[v].chain != []
    ensures Calm(w, DropNext(w, v), v)
  {
    FrontFacts(w, v);
    DropFirstCalm(w, v);
  }

  lemma {:induction false} DropLinksCalm(w: World, v: VmaId, n: nat) returns (w': World)
    requires Inv(w) && v in w.vmas && n <= |w.vmas[v].chain|
    ensures w' == DropLinks(w, v, n) && Calm(w, w', v)
    decreases n
  {
    hide DropNext, Inv, Calm;
    if n == 0 {
      w' := w;
      CalmRefl(w, v);
    } else {
      var w1 := DropLinksCalm(w, v, n - 1);
      var w2 := DropLinksInv(w, v, n - 1);
      DropNextCalm(w1, v);
      w' := DropNext(w1, v);
      CalmTrans(w, w1, w', v);
    }
  }

  /** Exit takes its own vma away and leaves every other one exactly as it was. */
  lemma ExitViews(w: World, v: VmaId)
    requires Inv(w) && v in w.vmas
    ensures SameViews(w, Exit(w, v), Nothing)
    ensures PtesCurrent(w, Nothing) ==> PtesCurrent(Exit(w, v), Nothing)
    ensures WritesOwned(w, Nothing) ==> WritesOwned(Exit(w, v), Nothing)
  {
    var n := |w.vmas[v].chain|;
    var w1 := DropLinksCalm(w, v, n);
    var w2 := DropLinksInv(w, v, n);
    var w' := Exit(w, v);
    ExitInv(w, v);
    forall u, x | u in w'.vmas ensures Src(w', u, x) == Src(w, u, x) {
      assert Src(w1, u, x) == Src(w, u, x);
      ChainLive(w1, u);
      ResolveKept(w1, w', w1.vmas[u].chain, x);
    }
    SourcesGiveViews(w, w', Nothing);
    if PtesCurrent(w, Nothing) { SourcesKeepPtes(w, w', Nothing); }
    if WritesOwned(w, Nothing) {
      forall u | u in w'.vmas ensures FrontKept(w, w', u) { assert FrontKept(w, w1, u); }
      FrontsKeepWrites(w, w', Nothing);
    }
  }

  // ---------------------------------------------------------------------------
  // Fork
  // ---------------------------------------------------------------------------

  lemma FreezeSources(w: World, v: VmaId)
    requires Inv(w) && v in w.vmas
    ensures SameSources(w, Freeze(w, v), Nothing) && SameData(w, Freeze(w, v))
  {
    SourcesUntouched(w, Freeze(w, v));
  }

  /** The entries a freeze adds name pages of the front shadow, read-only. */
  lemma FreezePtes(w: World, v: VmaId)
    requires Inv(w) && v in w.vmas && PtesCurrent(w, Nothing)
    ensures PtesCurrent(Freeze(w, v), Nothing)
  {
    var w' := Freeze(w, v);
    FreezeSources(w, v);
    forall u, x | u in w'.vmas && x in w'.vmas[u].ptes ensures PteCurrent(w', u, x) {
      assert Src(w', u, x) == Src(w, u, x);
      if x in w.vmas[u].ptes { assert PteCurrent(w, u, x); }
    }
  }

  lemma FreezeWrites(w: World, v: VmaId)
    requires Inv(w) && v in w.vmas && WritesOwned(w, Nothing)
    ensures WritesOwned(Freeze(w, v), Nothing)
  {
    var w' := Freeze(w, v);
    if Thaws(w, v) { WritableIsExclusive(w, w.vmas[v].chain[0], v); }
    forall u | u in w'.vmas ensures WritablePtesOwned(w'.objs, w'.vmas[u]) {
      assert WritablePtesOwned(w.objs, w.vmas[u]);
    }
  }

  lemma FreezeViews(w: World, v: VmaId)
    requires Inv(w) && v in w.vmas
    ensures SameViews(w, Freeze(w, v), Nothing)
  {
    FreezeSources(w, v);
    FreezeInv(w, v);
    SourcesGiveViews(w, Freeze(w, v), Nothing);
  }

  /** The copy shows what its parent shows; nobody else notices. */
  lemma CopyLinksViews(w: World, v: VmaId, u: VmaId)
    requires Inv(w) && v in w.vmas && u !in w.vmas && Frozen(w, v)
    ensures SameViews(w, CopyLinks(w, v, u), Nothing)
    ensures forall x :: View(CopyLinks(w, v, u), u, x) == View(w, v, x)
    ensures PtesCurrent(w, Nothing) ==> PtesCurrent(CopyLinks(w, v, u), Nothing)
    ensures WritesOwned(w, Nothing) ==> WritesOwned(CopyLinks(w, v, u), Nothing)
  {
    var w' := CopyLinks(w, v, u);
    SourcesUntouched(w, w');
    CopyLinksInv(w, v, u);
    SourcesGiveViews(w, w', Nothing);
    forall x ensures View(w', u, x) == View(w, v, x) && Src(w', u, x) == Src(w', v, x) {
      assert View(w', v, x) == View(w, v, x);
    }
    if PtesCurrent(w, Nothing) {
      forall y, x | y in w'.vmas && x in w'.vmas[y].ptes ensures PteCurrent(w', y, x) {
        var z := if y == u then v else y;
        assert PteCurrent(w, z, x) && Src(w', z, x) == Src(w, z, x);
      }
    }
    if WritesOwned(w, Nothing) {
      ChainLive(w, v);
      forall y | y in w'.vmas ensures WritablePtesOwned(w'.objs, w'.vmas[y]) {
        assert WritablePtesOwned(w.objs, w.vmas[if y == u then v else y]);
      }
    }
  }

  // ---------------------------------------------------------------------------
  // Stores
  // ---------------------------------------------------------------------------

  /** A writable entry names a frame that only this vma finds, at this offset. */
  lemma WritableFrameIsPrivate(w: World, v: VmaId, off: nat, u: VmaId, x: nat)
    requires Inv(w) && WritesOwned(w, Nothing) && v in w.vmas && off in w.vmas[v].ptes && w.vmas[v].ptes[off].writable
    requires u in w.vmas
    ensures w.vmas[v].ptes[off].frame in w.frames
    ensures Src(w, u, x) == Resident(w.vmas[v].ptes[off].frame) <==> u == v && x == off
  {
    assert WritablePtesOwned(w.objs, w.vmas[v]);
    var t := w.vmas[v].chain[0];
    assert ObjOk(w.objs, w.vmas, t) && CacheOk(w.frames, t, w.objs[t]);
    assert t in w.vmas[v].chain;
    WritableIsExclusive(w, t, v);
    ChainLive(w, u);
    ResolveSound(w, w.vmas[u].chain, x);
  }

  /** A store changes one byte of one page of one vma. */
  lemma StoreViews(w: World, v: VmaId, off: nat, i: nat, b: Byte, u: VmaId, x: nat)
    requires Inv(w) && WritesOwned(w, Nothing) && v in w.vmas && off in w.vmas[v].ptes && w.vmas[v].ptes[off].writable
    requires w.vmas[v].ptes[off].frame in w.frames && u in w.vmas
    ensures View(Store(w, v, off, i, b), u, x) ==
            if u == v && x == off && i < |View(w, u, x)| then View(w, u, x)[i := b] else View(w, u, x)
    ensures Src(Store(w, v, off, i, b), u, x) == Src(w, u, x)
  {
    WritableFrameIsPrivate(w, v, off, u, x);
    StoreResolve(w, v, off, i, b, w.vmas[u].chain, x);
  }

  lemma {:induction false} StoreResolve(w: World, v: VmaId, off: nat, i: nat, b: Byte, c: seq<ObjId>, x: nat)
    requires v in w.vmas && off in w.vmas[v].ptes && w.vmas[v].ptes[off].frame in w.frames
    ensures Resolve(Store(w, v, off, i, b), c, x) == Resolve(w, c, x)
  {
    if c != [] { StoreResolve(w, v, off, i, b, c[1..], x); }
  }

  lemma StorePtes(w: World, v: VmaId, off: nat, i: nat, b: Byte)
    requires Inv(w) && WritesOwned(w, Nothing) && v in w.vmas && off in w.vmas[v].ptes && w.vmas[v].ptes[off].writable
    requires w.vmas[v].ptes[off].frame in w.frames
    ensures WritesOwned(Store(w, v, off, i, b), Nothing)
    ensures PtesCurrent(w, Nothing) ==> PtesCurrent(Store(w, v, off, i, b), Nothing)
  {
    var w' := Store(w, v, off, i, b);
    forall u | u in w'.vmas ensures WritablePtesOwned(w'.objs, w'.vmas[u]) {
      assert WritablePtesOwned(w.objs, w.vmas[u]);
    }
    if PtesCurrent(w, Nothing) {
      forall u, x | u in w'.vmas && x in w'.vmas[u].ptes ensures PteCurrent(w', u, x) {
        assert PteCurrent(w, u, x);
        StoreViews(w, v, off, i, b, u, x);
      }
    }
  }

  // ---------------------------------------------------------------------------
  // Faults
  // ---------------------------------------------------------------------------

  lemma ViewsTrans(w: World, w1: World, w': World)
    requires SameViews(w, w1, Nothing) && SameViews(w1, w', Nothing) && w1.vmas.Keys == w.vmas.Keys
    ensures SameViews(w, w', Nothing)
  {
    forall u, x | u in w.vmas && u in w'.vmas ensures View(w', u, x) == View(w, u, x) {
      assert View(w', u, x) == View(w1, u, x) && View(w1, u, x) == View(w, u, x);
    }
  }

  /** What holds before a write fault of v at off is served. */
  ghost predicate CanCopy(w: World, v: VmaId, off: nat, s: ObjId, fin: Frame, fcow: Frame) {
    && v in w.vmas && w.vmas[v].chain != [] && w.vmas[v].chain[0] in w.objs && w.vmas[v].lo <= off < w.vmas[v].hi
    && s !in w.objs && fcow !in w.frames && fcow != fin
    && (Src(w, v, off).OnDisk? ==> fin !in w.frames)
  }

  /** v has a writable front object that has, or lacks, the page at off. */
  ghost predicate FrontLacks(w: World, v: VmaId, off: nat) {
    && v in w.vmas && w.vmas[v].chain != [] && w.vmas[v].chain[0] in w.objs
    && w.objs[w.vmas[v].chain[0]].writable && off !in w.objs[w.vmas[v].chain[0]].pages
  }

  lemma FrontedInv(w: World, v: VmaId, off: nat, s: ObjId)
    requires Inv(w) && v in w.vmas && w.vmas[v].chain != [] && w.vmas[v].chain[0] in w.objs && s !in w.objs
    requires !AlreadyWritable(w, v, off)
    ensures Inv(Fronted(w, v, s)) && FrontLacks(Fronted(w, v, s), v, off)
    ensures SameSources(w, Fronted(w, v, s), Nothing) && SameData(w, Fronted(w, v, s)) && SamePtes(w, Fronted(w, v, s), Nothing)
  {
    if !w.objs[w.vmas[v].chain[0]].writable {
      NewShadowInv(w, v, s);
      NewShadowViews(w, v, s);
    }
  }

  lemma FrontedWrites(w: World, v: VmaId, s: ObjId)
    requires Inv(w) && v in w.vmas && w.vmas[v].chain != [] && w.vmas[v].chain[0] in w.objs && s !in w.objs
    requires WritesOwned(w, Nothing)
    ensures WritesOwned(Fronted(w, v, s), Nothing)
  {
    if !w.objs[w.vmas[v].chain[0]].writable { NewShadowWrites(w, v, s); }
  }

  /** A page-in leaves the front of a vma alone. */
  lemma FetchFront(w: World, v: VmaId, off: nat, f: Frame)
    requires Inv(w) && FrontLacks(w, v, off)
    ensures FrontLacks(Fetch(w, v, off, f), v, off) && Fetch(w, v, off, f).vmas == w.vmas
  {
    assert ObjOk(w.objs, w.vmas, w.vmas[v].chain[0]);
  }

  lemma FetchResident(w: World, v: VmaId, off: nat, f: Frame)
    requires v in w.vmas && Src(w, v, off).Resident?
    ensures Fetch(w, v, off, f) == w
  {
  }

  /** The front object got the page: same views, and the copy's frame is what v finds. */
  lemma FrontPageFacts(w: World, v: VmaId, off: nat, s: ObjId, fin: Frame, fcow: Frame) returns (w': World)
    requires Inv(w) && CanCopy(w, v, off, s, fin, fcow) && !AlreadyWritable(w, v, off)
    ensures w' == WithFrontPage(w, v, off, s, fin, fcow)
    ensures Inv(w') && SameViews(w, w', Nothing) && w'.vmas.Keys == w.vmas.Keys
    ensures Src(w', v, off) == Resident(fcow) && AlreadyWritable(w', v, off)
    ensures w'.objs[w'.vmas[v].chain[0]].pages[off] == fcow
    ensures PtesCurrent(w, Nothing) ==> PtesCurrent(w', One(v, off))
    ensures WritesOwned(w, Nothing) ==> WritesOwned(w', Nothing)
  {
    var w1 := FrontedReady(w, v, off, s, fin);
    var w2 := FetchReady(w1, v, off, fin, fcow);
    AddPageViews(w2, v, off, fcow);
    AddPageInv(w2, v, off, fcow, View(w2, v, off));
    if WritesOwned(w2, Nothing) { AddPageWrites(w2, v, off, fcow, View(w2, v, off)); }
    w' := AddPage(w2, v, off, fcow, View(w2, v, off));
    ViewsTrans(w, w1, w2);
    ViewsTrans(w, w2, w');
  }

  lemma FrontedReady(w: World, v: VmaId, off: nat, s: ObjId, fin: Frame) returns (w': World)
    requires Inv(w) && v in w.vmas && w.vmas[v].chain != [] && w.vmas[v].chain[0] in w.objs && s !in w.objs
    requires !AlreadyWritable(w, v, off)
    ensures w' == Fronted(w, v, s) && Inv(w') && FrontLacks(w', v, off)
    ensures SameViews(w, w', Nothing) && w'.vmas.Keys == w.vmas.Keys && w'.frames == w.frames
    ensures Src(w', v, off) == Src(w, v, off) && w'.vmas[v].lo == w.vmas[v].lo && w'.vmas[v].hi == w.vmas[v].hi
    ensures PtesCurrent(w, Nothing) ==> PtesCurrent(w', Nothing)
    ensures WritesOwned(w, Nothing) ==> WritesOwned(w', Nothing)
  {
    w' := Fronted(w, v, s);
    FrontedInv(w, v, off, s);
    SourcesGiveViews(w, w', Nothing);
    if PtesCurrent(w, Nothing) { SourcesKeepPtes(w, w', Nothing); }
    if WritesOwned(w, Nothing) { FrontedWrites(w, v, s); }
    assert Src(w', v, off) == Src(w, v, off);
  }

  lemma FetchReady(w: World, v: VmaId, off: nat, fin: Frame, fcow: Frame) returns (w': World)
    requires Inv(w) && FrontLacks(w, v, off) && w.vmas[v].lo <= off < w.vmas[v].hi
    requires fcow !in w.frames && fcow != fin && (Src(w, v, off).OnDisk? ==> fin !in w.frames)
    ensures w' == Fetch(w, v, off, fin) && Inv(w') && FrontLacks(w', v, off) && fcow !in w'.frames
    ensures SameViews(w, w', Nothing) && w'.vmas == w.vmas
    ensures PtesCurrent(w, Nothing) ==> PtesCurrent(w', Nothing)
    ensures WritesOwned(w, Nothing) ==> WritesOwned(w', Nothing)
  {
    w' := Fetch(w, v, off, fin);
    FetchFront(w, v, off, fin);
    FetchSource(w, v, off, fin);
    if Src(w, v, off).OnDisk? {
      FetchInv(w, v, off, fin);
      FetchViews(w, v, off, fin);
    } else {
      FetchResident(w, v, off, fin);
    }
  }

  /** The drop that may follow a copy, when it loses no page. */
  lemma CoveredDropFacts(w: World, v: VmaId)
    requires Inv(w) && CanUnhook(w, v) && CoveredDrop(w, v)
    ensures SameSources(w, DropSecond(w, v), Nothing) && SameViews(w, DropSecond(w, v), Nothing)
    ensures SamePtes(w, DropSecond(w, v), Nothing)
  {
    var w' := DropSecond(w, v);
    DropSecondInv(w, v);
    DropSecondUndisturbed(w, v);
    forall u, x | u in w.vmas ensures Src(w', u, x) == Src(w, u, x) {
      DropSecondSource(w, v, u, x);
    }
    SourcesGiveViews(w, w', Nothing);
  }

  lemma CanUnhookFront(w: World, v: VmaId, off: nat)
    requires Inv(w) && v in w.vmas && AlreadyWritable(w, v, off) && DropFires(w, v)
    ensures CanUnhook(w, v)
  {
    ChainLive(w, v);
  }

  /** The front object keeps its page through a drop of the second. */
  lemma DropKeepsFront(w: World, v: VmaId, off: nat)
    requires Inv(w) && CanUnhook(w, v) && AlreadyWritable(w, v, off)
    ensures var w' := DropSecond(w, v);
            v in w'.vmas && AlreadyWritable(w', v, off) && Src(w', v, off) == Src(w, v, off)
            && w'.objs[w'.vmas[v].chain[0]].pages[off] == w.objs[w.vmas[v].chain[0]].pages[off]
  {
    DropSecondUndisturbed(w, v);
    DropSecondSource(w, v, v, off);
    assert FrontKept(w, DropSecond(w, v), v);
  }
}
