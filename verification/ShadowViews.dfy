/**
 What each operation of the fault handler does to the page that a vma finds at an
 offset, and so to what the vma shows and to its page table entries.
 */
module ShadowViews {
  import opened Basics
  import opened ShadowWorld
  import opened ShadowSteps
  import opened ShadowInvariant
  import opened ShadowForkExit

  /** Every vma but the exempted one still finds each page in the same place. */
  ghost predicate SameSources(w: World, w': World, ex: Stale) {
    forall u, x {:trigger Src(w', u, x)} :: u in w.vmas && u in w'.vmas && ex != AllOf(u) ==> Src(w', u, x) == Src(w, u, x)
  }

  /** Surviving frames and files keep their bytes. */
  ghost predicate SameData(w: World, w': World) {
    && (forall f :: f in w.frames && f in w'.frames ==> w'.frames[f].data == w.frames[f].data)
    && (forall o :: o in w.objs && o in w'.objs ==> w'.objs[o].kind == w.objs[o].kind)
  }

  ghost predicate SameViews(w: World, w': World, ex: Stale) {
    forall u, x {:trigger View(w', u, x)} :: u in w.vmas && u in w'.vmas && ex != AllOf(u) ==> View(w', u, x) == View(w, u, x)
  }

  /** Every vma but the exempted one keeps its range and its page table entries. */
  ghost predicate SamePtes(w: World, w': World, ex: Stale) {
    forall u :: u in w'.vmas && ex != AllOf(u) ==>
      && u in w.vmas && w'.vmas[u].ptes == w.vmas[u].ptes && w'.vmas[u].lo == w.vmas[u].lo && w'.vmas[u].hi == w.vmas[u].hi
  }

  /** Same places with the same bytes show the same pages. */
  lemma SourcesGiveViews(w: World, w': World, ex: Stale)
    requires Inv(w) && Inv(w') && SameSources(w, w', ex) && SameData(w, w')
    ensures SameViews(w, w', ex)
  {
    forall u, x | u in w.vmas && u in w'.vmas && ex != AllOf(u) ensures View(w', u, x) == View(w, u, x) {
      assert Src(w', u, x) == Src(w, u, x);
      ChainLive(w, u);
      ChainLive(w', u);
      ResolveSound(w, w.vmas[u].chain, x);
      ResolveSound(w', w'.vmas[u].chain, x);
    }
  }

  lemma SourcesKeepPtes(w: World, w': World, ex: Stale)
    requires PtesCurrent(w, ex) && SameSources(w, w', ex) && SamePtes(w, w', ex)
    ensures PtesCurrent(w', ex)
  {
    forall v, x | v in w'.vmas && x in w'.vmas[v].ptes && !IsStale(ex, v, x)
      ensures PteCurrent(w', v, x)
    {
      assert PteCurrent(w, v, x) && Src(w', v, x) == Src(w, v, x);
    }
  }

  /** Lookups depend on the kinds and page caches of the chain's objects only. */
  lemma {:induction false} ResolveKept(w: World, w': World, c: seq<ObjId>, x: nat)
    requires forall o :: o in c ==> o in w.objs && o in w'.objs && w'.objs[o].kind == w.objs[o].kind && w'.objs[o].pages == w.objs[o].pages
    ensures Resolve(w', c, x) == Resolve(w, c, x)
  {
    if c != [] {
      assert c[0] in c;
      ResolveKept(w, w', c[1..], x);
    }
  }

  /** Operations that change no chain and no page cache. */
  lemma SourcesUntouched(w: World, w': World)
    requires Inv(w)
    requires forall o :: o in w.objs ==> o in w'.objs && w'.objs[o].kind == w.objs[o].kind && w'.objs[o].pages == w.objs[o].pages
    requires forall u :: u in w.vmas && u in w'.vmas ==> w'.vmas[u].chain == w.vmas[u].chain
    ensures SameSources(w, w', Nothing)
  {
    forall u, x | u in w.vmas && u in w'.vmas ensures Src(w', u, x) == Src(w, u, x) {
      ChainLive(w, u);
      ResolveKept(w, w', w.vmas[u].chain, x);
    }
  }

  // ---------------------------------------------------------------------------
  // Page-in
  // ---------------------------------------------------------------------------

  lemma {:induction false} PageInResolve(w: World, o: ObjId, off: nat, f: Frame, c: seq<ObjId>, x: nat)
    requires o in w.objs && w.objs[o].kind.VfsFile? && off in w.objs[o].kind.contents && off !in w.objs[o].pages
    ensures Resolve(PageIn(w, o, off, f), c, x) ==
            if x == off && Resolve(w, c, x) == OnDisk(o) then Resident(f) else Resolve(w, c, x)
  {
    if c != [] {
      PageInResolve(w, o, off, f, c[1..], x);
    }
  }

  /** Reading a page in changes no view and no present entry. */
  lemma FetchViews(w: World, v: VmaId, off: nat, f: Frame)
    requires Inv(w) && v in w.vmas && w.vmas[v].chain != [] && f !in w.frames && w.vmas[v].lo <= off < w.vmas[v].hi
    ensures SameViews(w, Fetch(w, v, off, f), Nothing)
    ensures Src(Fetch(w, v, off, f), v, off).Resident?
    ensures PtesCurrent(w, Nothing) ==> PtesCurrent(Fetch(w, v, off, f), Nothing)
    ensures WritesOwned(w, Nothing) ==> WritesOwned(Fetch(w, v, off, f), Nothing)
  {
    var w' := Fetch(w, v, off, f);
    ChainLive(w, v);
    FetchSource(w, v, off, f);
    if Src(w, v, off).OnDisk? {
      var o := Src(w, v, off).file;
      PageInSource(w, o, off, f);
      if WritesOwned(w, Nothing) { PageInWrites(w, o, off, f); }
    }
  }

  /** A lookup in range ends in a frame or in a file that has the page. */
  lemma FetchSource(w: World, v: VmaId, off: nat, f: Frame)
    requires Inv(w) && v in w.vmas && w.vmas[v].chain != [] && w.vmas[v].lo <= off < w.vmas[v].hi
    ensures Src(w, v, off).Resident? || Src(w, v, off).OnDisk?
    ensures Src(w, v, off).OnDisk? ==>
              var o := Src(w, v, off).file;
              && o in w.objs && w.objs[o].kind.VfsFile? && off in w.objs[o].kind.contents && off !in w.objs[o].pages
              && Fetch(w, v, off, f) == PageIn(w, o, off, f) && Src(PageIn(w, o, off, f), v, off) == Resident(f)
  {
    var c := w.vmas[v].chain;
    ChainLive(w, v);
    assert VmaOk(w.objs, v, w.vmas[v]) && LinkOk(w.objs, v, w.vmas[v], |c| - 1);
    ResolveFinds(w, c, off);
    if Src(w, v, off).OnDisk? {
      OnDiskPage(w, c, off);
      var i :| 0 <= i < |c| && c[i] == Src(w, v, off).file;
      assert LinkOk(w.objs, v, w.vmas[v], i);
      PageInResolve(w, c[i], off, f, c, off);
    }
  }

  lemma PageInSource(w: World, o: ObjId, off: nat, f: Frame)
    requires Inv(w) && f !in w.frames
    requires o in w.objs && w.objs[o].kind.VfsFile? && off in w.objs[o].kind.contents && off !in w.objs[o].pages
    ensures SameViews(w, PageIn(w, o, off, f), Nothing)
    ensures PtesCurrent(w, Nothing) ==> PtesCurrent(PageIn(w, o, off, f), Nothing)
  {
    var w' := PageIn(w, o, off, f);
    forall u, x | u in w.vmas
      ensures View(w', u, x) == View(w, u, x)
      ensures Src(w, u, x).Resident? ==> Src(w', u, x) == Src(w, u, x)
    {
      PageInResolve(w, o, off, f, w.vmas[u].chain, x);
      ChainLive(w, u);
      ResolveSound(w, w.vmas[u].chain, x);
    }
    if PtesCurrent(w, Nothing) {
      forall u, x | u in w'.vmas && x in w'.vmas[u].ptes ensures PteCurrent(w', u, x) {
        assert PteCurrent(w, u, x);
      }
    }
  }

  lemma PageInWrites(w: World, o: ObjId, off: nat, f: Frame)
    requires ObjsOk(w) && WritesOwned(w, Nothing)
    requires o in w.objs && w.objs[o].kind.VfsFile? && off in w.objs[o].kind.contents && off !in w.objs[o].pages
    ensures WritesOwned(PageIn(w, o, off, f), Nothing)
  {
    var w' := PageIn(w, o, off, f);
    forall u | u in w'.vmas ensures WritablePtesOwned(w'.objs, w'.vmas[u]) {
      assert WritablePtesOwned(w.objs, w.vmas[u]);
    }
  }

  // ---------------------------------------------------------------------------
  // Copy on write
  // ---------------------------------------------------------------------------

  lemma NewShadowViews(w: World, v: VmaId, s: ObjId)
    requires Inv(w) && v in w.vmas && w.vmas[v].chain != [] && s !in w.objs
    requires w.vmas[v].chain[0] in w.objs && !w.objs[w.vmas[v].chain[0]].writable
    ensures SameSources(w, NewShadow(w, v, s), Nothing) && SameData(w, NewShadow(w, v, s))
  {
    var w' := NewShadow(w, v, s);
    forall u, x | u in w.vmas ensures Src(w', u, x) == Src(w, u, x) {
      var c := w.vmas[u].chain;
      ChainLive(w, u);
      ResolveKept(w, w', c, x);
      if u == v {
        assert ([s] + c)[1..] == c;
      }
    }
  }

  /** A front that is not writable has no writable entries, so pushing one is safe. */
  lemma NewShadowWrites(w: World, v: VmaId, s: ObjId)
    requires Inv(w) && WritesOwned(w, Nothing) && v in w.vmas && w.vmas[v].chain != [] && s !in w.objs
    requires w.vmas[v].chain[0] in w.objs && !w.objs[w.vmas[v].chain[0]].writable
    ensures WritesOwned(NewShadow(w, v, s), Nothing)
  {
    var w' := NewShadow(w, v, s);
    forall u | u in w'.vmas ensures WritablePtesOwned(w'.objs, w'.vmas[u]) {
      assert WritablePtesOwned(w.objs, w.vmas[u]);
    }
  }

  lemma AddPageSource(w: World, v: VmaId, off: nat, f: Frame, data: Page, u: VmaId, x: nat)
    requires Inv(w) && v in w.vmas && w.vmas[v].chain != [] && w.vmas[v].chain[0] in w.objs
    requires w.objs[w.vmas[v].chain[0]].writable && off !in w.objs[w.vmas[v].chain[0]].pages && u in w.vmas
    ensures Src(AddPage(w, v, off, f, data), u, x) == if u == v && x == off then Resident(f) else Src(w, u, x)
  {
    var w' := AddPage(w, v, off, f, data);
    var t := w.vmas[v].chain[0];
    var c := w.vmas[u].chain;
    ChainLive(w, u);
    ChainLive(w, v);
    WritableIsExclusive(w, t, v);
    if u != v {
      ResolveKept(w, w', c, x);
    } else {
      assert VmaOk(w.objs, v, w.vmas[v]);
      assert t !in c[1..];
      ResolveKept(w, w', c[1..], x);
    }
  }

  /** Copying a page to the front shadow: the same bytes from a new frame. */
  lemma AddPageViews(w: World, v: VmaId, off: nat, f: Frame)
    requires Inv(w) && v in w.vmas && w.vmas[v].chain != [] && f !in w.frames && w.vmas[v].chain[0] in w.objs
    requires w.objs[w.vmas[v].chain[0]].writable && off !in w.objs[w.vmas[v].chain[0]].pages
    ensures var w' := AddPage(w, v, off, f, View(w, v, off));
            SameViews(w, w', Nothing) && Src(w', v, off) == Resident(f)
    ensures PtesCurrent(w, Nothing) ==> PtesCurrent(AddPage(w, v, off, f, View(w, v, off)), One(v, off))
  {
    var w' := AddPage(w, v, off, f, View(w, v, off));
    AddPageSource(w, v, off, f, View(w, v, off), v, off);
    forall u, x | u in w.vmas ensures View(w', u, x) == View(w, u, x) {
      AddPageSource(w, v, off, f, View(w, v, off), u, x);
      ChainLive(w, u);
      ResolveSound(w, w.vmas[u].chain, x);
    }
    if PtesCurrent(w, Nothing) {
      forall u, x | u in w'.vmas && x in w'.vmas[u].ptes && !IsStale(One(v, off), u, x) ensures PteCurrent(w', u, x) {
        AddPageSource(w, v, off, f, View(w, v, off), u, x);
        assert PteCurrent(w, u, x);
      }
    }
  }

  lemma AddPageWrites(w: World, v: VmaId, off: nat, f: Frame, data: Page)
    requires WritesOwned(w, Nothing) && v in w.vmas && w.vmas[v].chain != [] && w.vmas[v].chain[0] in w.objs
    requires off !in w.objs[w.vmas[v].chain[0]].pages
    ensures WritesOwned(AddPage(w, v, off, f, data), Nothing)
  {
    var w' := AddPage(w, v, off, f, data);
    forall u | u in w'.vmas ensures WritablePtesOwned(w'.objs, w'.vmas[u]) {
      assert WritablePtesOwned(w.objs, w.vmas[u]);
    }
  }

  // ---------------------------------------------------------------------------
  // Dropping and merging
  // ---------------------------------------------------------------------------

  /** One step of a lookup. */
  lemma ResolveCons(w: World, o: ObjId, rest: seq<ObjId>, x: nat)
    requires o in w.objs
    ensures !Supplies(w.objs[o], x) ==> Resolve(w, [o] + rest, x) == Resolve(w, rest, x)
    ensures w.objs[o].kind.Shadow? && x in w.objs[o].pages ==> Resolve(w, [o] + rest, x) == Resident(w.objs[o].pages[x])
  {
    assert ([o] + rest)[1..] == rest;
  }

  /** Taking a shadow out from behind another one hides exactly its uncovered pages. */
  lemma ResolveWithout(w: World, p: ObjId, d: ObjId, rest: seq<ObjId>, x: nat)
    requires p in w.objs && d in w.objs && w.objs[p].kind.Shadow? && w.objs[d].kind.Shadow?
    ensures Resolve(w, [p] + rest, x) ==
            if x in w.objs[d].pages && x !in w.objs[p].pages then Resolve(w, rest, x) else Resolve(w, [p] + ([d] + rest), x)
  {
    ResolveCons(w, p, rest, x);
    ResolveCons(w, p, [d] + rest, x);
    ResolveCons(w, d, rest, x);
  }

  lemma UnhookKeepsPages(w: World, v: VmaId, o: ObjId)
    requires CanUnhook(w, v) && o in w.objs
    ensures var w' := Unhook(w, v); o in w'.objs && w'.objs[o].kind == w.objs[o].kind && w'.objs[o].pages == w.objs[o].pages
  {
  }

  /** Where v finds a page after its second link is gone: behind it, exactly for the
      pages that the second object had and the front lacks. */
  lemma UnhookSource(w: World, v: VmaId, u: VmaId, x: nat)
    requires Inv(w) && CanUnhook(w, v) && u in w.vmas
    ensures var c := w.vmas[v].chain;
            Src(Unhook(w, v), u, x) ==
            if u == v && x in w.objs[c[1]].pages && x !in w.objs[c[0]].pages then Resolve(w, c[2..], x) else Src(w, u, x)
  {
    var c := w.vmas[v].chain;
    var c' := if u == v then [c[0]] + c[2..] else w.vmas[u].chain;
    UnhookFacts(w, v);
    ChainLive(w, u);
    assert ObjOk(w.objs, w.vmas, c[0]);
    forall o | o in c' ensures o in w.objs { assert u == v ==> o in c; }
    UnhookResolve(w, v, c', x);
    if u == v {
      assert c == [c[0]] + ([c[1]] + c[2..]);
      ResolveWithout(w, c[0], c[1], c[2..], x);
    }
  }

  lemma UnhookResolve(w: World, v: VmaId, c: seq<ObjId>, x: nat)
    requires CanUnhook(w, v) && forall o :: o in c ==> o in w.objs
    ensures Resolve(Unhook(w, v), c, x) == Resolve(w, c, x)
  {
    forall o | o in c ensures o in w.objs && o in Unhook(w, v).objs
      && Unhook(w, v).objs[o].kind == w.objs[o].kind && Unhook(w, v).objs[o].pages == w.objs[o].pages
    {
      UnhookKeepsPages(w, v, o);
    }
    ResolveKept(w, Unhook(w, v), c, x);
  }

  lemma DeleteSources(w: World, d: ObjId)
    requires forall u :: u in w.vmas ==> d !in w.vmas[u].chain
    requires forall u :: u in w.vmas ==> forall o :: o in w.vmas[u].chain ==> o in w.objs
    ensures SameSources(w, Delete(w, d), Nothing) && SameData(w, Delete(w, d))
  {
    var w' := Delete(w, d);
    forall u, x | u in w.vmas ensures Src(w', u, x) == Src(w, u, x) {
      ResolveKept(w, w', w.vmas[u].chain, x);
    }
  }

  /** A common front part of two chains may be looked at separately. */
  lemma {:induction false} ResolvePrefix(w: World, w': World, pre: seq<ObjId>, c: seq<ObjId>, c': seq<ObjId>, x: nat)
    requires forall o :: o in pre ==> o in w.objs && o in w'.objs && w'.objs[o].kind == w.objs[o].kind && w'.objs[o].pages == w.objs[o].pages
    requires Resolve(w', c', x) == Resolve(w, c, x)
    ensures Resolve(w', pre + c', x) == Resolve(w, pre + c, x)
  {
    if pre == [] {
      assert pre + c == c && pre + c' == c';
    } else {
      ResolvePrefix(w, w', pre[1..], c, c', x);
      assert (pre + c)[1..] == pre[1..] + c && (pre + c')[1..] == pre[1..] + c';
      assert pre[0] in pre;
    }
  }

  /** The front shadow of a merge finds the pages of both objects. */
  lemma MergeResolve(w: World, w': World, r: ObjId, s: ObjId, v: VmaId, n: ObjId, rest: seq<ObjId>, x: nat)
    requires r in w.objs && s in w.objs && n in w.objs && v in w.vmas && Merged(w, w', r, s, v, n)
    requires r != s && s != n && w.objs[s].kind.Shadow? && w.objs[r].kind.Shadow?
    requires Resolve(w', rest, x) == Resolve(w, rest, x)
    ensures Resolve(w', [s] + rest, x) == Resolve(w, [s] + ([r] + rest), x)
  {
    ResolveCons(w', s, rest, x);
    ResolveCons(w, s, [r] + rest, x);
    ResolveCons(w, r, rest, x);
  }

  lemma MergeKeepsPages(w: World, w': World, r: ObjId, s: ObjId, v: VmaId, n: ObjId, c: seq<ObjId>, x: nat)
    requires r in w.objs && s in w.objs && n in w.objs && v in w.vmas && Merged(w, w', r, s, v, n)
    requires forall o :: o in c ==> o in w.objs && o != r && o != s
    ensures forall o :: o in c ==> o in w'.objs && w'.objs[o].kind == w.objs[o].kind && w'.objs[o].pages == w.objs[o].pages
    ensures Resolve(w', c, x) == Resolve(w, c, x)
  {
    forall o | o in c ensures o in w'.objs && w'.objs[o].kind == w.objs[o].kind && w'.objs[o].pages == w.objs[o].pages {
      MergeLinkObj(w, w', r, s, v, n, o);
    }
    ResolveKept(w, w', c, x);
  }

  /** A chain around two neighbours, and without the second of them. */
  lemma SplitAround(c: seq<ObjId>, k: nat)
    requires k + 1 < |c|
    ensures c == c[..k] + ([c[k]] + ([c[k + 1]] + c[k + 2..]))
    ensures c[..k + 1] + c[k + 2..] == c[..k] + ([c[k]] + c[k + 2..])
  {
  }

  lemma NoneAround(c: seq<ObjId>, k: nat, o: ObjId)
    requires NoDup(c) && k + 1 < |c| && (o in c[..k] || o in c[k + 2..])
    ensures o in c && o != c[k] && o != c[k + 1]
  {
    if o in c[..k] {
      var i :| 0 <= i < k && c[i] == o;
    } else {
      var i :| 0 <= i < |c| - k - 2 && c[k + 2..][i] == o;
      assert c[k + 2 + i] == o;
    }
  }

  lemma MergeSplitSource(w: World, w': World, r: ObjId, s: ObjId, v: VmaId, n: ObjId, pre: seq<ObjId>, rest: seq<ObjId>, x: nat)
    requires r in w.objs && s in w.objs && n in w.objs && v in w.vmas && Merged(w, w', r, s, v, n)
    requires r != s && s != n && w.objs[s].kind.Shadow? && w.objs[r].kind.Shadow?
    requires forall o :: o in pre || o in rest ==> o in w.objs && o != s && o != r
    ensures Resolve(w', pre + ([s] + rest), x) == Resolve(w, pre + ([s] + ([r] + rest)), x)
  {
    MergeKeepsPages(w, w', r, s, v, n, pre, x);
    MergeKeepsPages(w, w', r, s, v, n, rest, x);
    MergeResolve(w, w', r, s, v, n, rest, x);
    ResolvePrefix(w, w', pre, [s] + ([r] + rest), [s] + rest, x);
  }

  lemma MergeOwnSource(w: World, w': World, r: ObjId, s: ObjId, v: VmaId, n: ObjId, k: nat, x: nat)
    requires Merging(w, r, s, v, n, k) && Merged(w, w', r, s, v, n) && w.objs[s].kind.Shadow? && w.objs[r].kind.Shadow?
    requires NoDup(w.vmas[v].chain) && forall o :: o in w.vmas[v].chain ==> o in w.objs
    ensures Src(w', v, x) == Src(w, v, x)
  {
    var c := w.vmas[v].chain;
    SplitAround(c, k);
    WithoutAt(c, k + 1);
    forall o | o in c[..k] || o in c[k + 2..] ensures o in w.objs && o != s && o != r { NoneAround(c, k, o); }
    MergeSplitSource(w, w', r, s, v, n, c[..k], c[k + 2..], x);
  }

  /** Merging a redundant shadow moves no page of any vma. */
  lemma MergeSources(w: World, r: ObjId)
    requires Inv(w) && r in w.objs && Mergeable(w.objs[r])
    ensures SameSources(w, Collapse(w, r), Nothing) && SameData(w, Collapse(w, r)) && SamePtes(w, Collapse(w, r), Nothing)
  {
    var s, v, n, k := MergeFacts(w, r);
    MergeEffect(w, r, s, v, n, k);
    var w' := Merge(w, r);
    assert ObjOk(w.objs, w.vmas, s);
    forall u, x | u in w.vmas ensures Src(w', u, x) == Src(w, u, x) {
      ChainLive(w, u);
      if u == v {
        assert VmaOk(w.objs, v, w.vmas[v]);
        MergeOwnSource(w, w', r, s, v, n, k, x);
      } else {
        MergeKeepsPages(w, w', r, s, v, n, w.vmas[u].chain, x);
      }
    }
    forall o | o in w.objs && o in w'.objs ensures w'.objs[o].kind == w.objs[o].kind {
      MergeLinkObj(w, w', r, s, v, n, o);
    }
  }

  // ---------------------------------------------------------------------------
  // Drops as a whole
  // ---------------------------------------------------------------------------

  lemma SourcesTrans(w: World, w1: World, w': World, ex: Stale)
    requires SameSources(w, w1, ex) && SameSources(w1, w', ex) && w1.vmas.Keys == w.vmas.Keys
    ensures SameSources(w, w', ex)
  {
    forall u, x | u in w.vmas && u in w'.vmas && ex != AllOf(u) ensures Src(w', u, x) == Src(w, u, x) {
      assert Src(w', u, x) == Src(w1, u, x) && Src(w1, u, x) == Src(w, u, x);
    }
  }

  /** The object that a fault drops from v: covered means no page gets lost. */
  ghost predicate CoveredDrop(w: World, v: VmaId)
    requires v in w.vmas
  {
    var c := w.vmas[v].chain;
    3 <= |c| && c[0] in w.objs && c[1] in w.objs ==> Covers(w.objs[c[0]], w.objs[c[1]])
  }

  /** Dropping the second object of v leaves the places of all other vmas alone, and
      in v sends exactly its uncovered pages to the objects behind it. */
  lemma DropSecondSource(w: World, v: VmaId, u: VmaId, x: nat)
    requires Inv(w) && CanUnhook(w, v) && u in w.vmas
    ensures var c := w.vmas[v].chain;
            Src(DropSecond(w, v), u, x) ==
            if u == v && x in w.objs[c[1]].pages && x !in w.objs[c[0]].pages then Resolve(w, c[2..], x) else Src(w, u, x)
  {
    var d := w.vmas[v].chain[1];
    var w1 := Unhook(w, v);
    UnhookSource(w, v, u, x);
    if w.objs[d].nlinks == 1 {
      UnhookGone(w, v);
      DeleteSources(w1, d);
      assert Src(Delete(w1, d), u, x) == Src(w1, u, x);
    } else {
      UnhookInv(w, v);
      if Mergeable(w1.objs[d]) {
        MergeSources(w1, d);
        assert Src(Collapse(w1, d), u, x) == Src(w1, u, x);
      }
    }
  }

  /** An unhooked object without links is in no chain any more. */
  lemma UnhookGone(w: World, v: VmaId)
    requires Inv(w) && CanUnhook(w, v) && w.objs[w.vmas[v].chain[1]].nlinks == 1
    ensures var w1 := Unhook(w, v);
            && (forall u :: u in w1.vmas ==> w.vmas[v].chain[1] !in w1.vmas[u].chain)
            && (forall u :: u in w1.vmas ==> forall o :: o in w1.vmas[u].chain ==> o in w1.objs)
  {
    var d := w.vmas[v].chain[1];
    var w1 := Unhook(w, v);
    UnhookFacts(w, v);
    UnhookVmas(w, v);
    assert ObjOk(w.objs, w.vmas, d);
    SingletonList(w.objs[d].links, v);
    forall u | u in w1.vmas ensures d !in w1.vmas[u].chain {
      if d in w1.vmas[u].chain { ChainHasLink(w1, d, u); }
    }
    forall u, o | u in w1.vmas && o in w1.vmas[u].chain ensures o in w1.objs {
      ChainHasLink(w1, o, u);
    }
  }
}
