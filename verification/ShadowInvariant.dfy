/**
 Every operation of the fault handler keeps the invariant: exact link and shadow
 counts, chains that follow orig_obj, one writable object per chain and only at its
 front, and frames owned by exactly one live page cache slot.
 */
module ShadowInvariant {
  import opened Basics
  import opened ShadowWorld
  import opened ShadowSteps

  // ---------------------------------------------------------------------------
  // Framing
  // ---------------------------------------------------------------------------

  /** What a chain position needs of an object that changed. */
  ghost predicate SameForVma(x: Obj, y: Obj, v: VmaId) {
    && x.kind == y.kind && x.orig == y.orig && x.writable == y.writable
    && (x.pages == y.pages || !x.kind.Shadow?)
    && (v in x.links ==> v in y.links)
  }

  lemma VmaKept(objs: map<ObjId, Obj>, objs': map<ObjId, Obj>, v: VmaId, a: Vma)
    requires VmaOk(objs, v, a)
    requires forall o :: o in a.chain && o in objs ==> o in objs' && SameForVma(objs[o], objs'[o], v)
    ensures VmaOk(objs', v, a)
  {
    forall i | 0 <= i < |a.chain| ensures LinkOk(objs', v, a, i) {
      assert LinkOk(objs, v, a, i);
      assert a.chain[i] in a.chain;
    }
  }

  /** An object other than those an operation touches. */
  lemma ObjKept(w: World, w': World, o: ObjId)
    requires o in w.objs && ObjOk(w.objs, w.vmas, o)
    requires o in w'.objs && w'.objs[o] == w.objs[o]
    requires forall v :: v in w.objs[o].links ==> v in w'.vmas && o in w'.vmas[v].chain
    requires forall s :: s in w.objs[o].shadowers ==> s in w'.objs && w'.objs[s].orig == Some(o)
    requires w.objs[o].orig.Some? ==> w.objs[o].orig.value in w'.objs && o in w'.objs[w.objs[o].orig.value].shadowers
    ensures ObjOk(w'.objs, w'.vmas, o)
  {
  }

  /** Operations that leave every page cache alone. */
  lemma PagesKept(w: World, w': World)
    requires PagesOk(w) && w'.frames == w.frames
    requires forall o :: o in w.objs ==> o in w'.objs && w'.objs[o].pages == w.objs[o].pages
    requires forall o :: o in w'.objs && o !in w.objs ==> w'.objs[o].pages == map[]
    ensures PagesOk(w')
  {
    forall o | o in w'.objs ensures CacheOk(w'.frames, o, w'.objs[o]) {
      if o in w.objs { assert CacheOk(w.frames, o, w.objs[o]); }
    }
    forall f | f in w'.frames ensures FrameOk(w'.objs, f, w'.frames[f]) {
      assert FrameOk(w.objs, f, w.frames[f]);
    }
  }

  /** Operations that put one new frame into one page cache. */
  lemma PageGrows(w: World, w': World, o: ObjId, off: nat, f: Frame)
    requires ObjsOk(w) && PagesOk(w) && f !in w.frames && o in w.objs && off !in w.objs[o].pages
    requires w.objs[o].kind.DevZero? ==> off == 0
    requires w'.vmas == w.vmas && f in w'.frames && w'.frames == w.frames[f := PageFrame(o, off, w'.frames[f].data)]
    requires w'.objs == w.objs[o := w.objs[o].(pages := w.objs[o].pages[off := f], npages := w.objs[o].npages + 1)]
    ensures ObjsOk(w') && PagesOk(w')
  {
    forall q | q in w'.objs ensures ObjOk(w'.objs, w'.vmas, q) && CacheOk(w'.frames, q, w'.objs[q]) {
      assert ObjOk(w.objs, w.vmas, q) && CacheOk(w.frames, q, w.objs[q]);
    }
    forall g | g in w'.frames ensures FrameOk(w'.objs, g, w'.frames[g]) {
      if g != f { assert FrameOk(w.objs, g, w.frames[g]); }
    }
  }

  // ---------------------------------------------------------------------------
  // Mapping and page-in
  // ---------------------------------------------------------------------------

  lemma MmapVmas(w: World, v: VmaId, base: ObjId, lo: nat, hi: nat)
    requires VmasOk(w) && CanMmap(w, v, base, lo, hi) && !w.objs[base].writable
    ensures VmasOk(Mmap(w, v, base, lo, hi))
  {
    var w' := Mmap(w, v, base, lo, hi);
    forall u | u in w'.vmas ensures VmaOk(w'.objs, u, w'.vmas[u]) {
      if u != v {
        assert VmaOk(w.objs, u, w.vmas[u]);
        VmaKept(w.objs, w'.objs, u, w.vmas[u]);
      }
    }
  }

  lemma MmapObjs(w: World, v: VmaId, base: ObjId, lo: nat, hi: nat)
    requires ObjsOk(w) && CanMmap(w, v, base, lo, hi)
    ensures ObjsOk(Mmap(w, v, base, lo, hi))
  {
    var w' := Mmap(w, v, base, lo, hi);
    forall o | o in w'.objs ensures ObjOk(w'.objs, w'.vmas, o) {
      assert ObjOk(w.objs, w.vmas, o);
      if o != base { ObjKept(w, w', o); } else { assert v !in w.objs[base].links; }
    }
  }

  lemma MmapInv(w: World, v: VmaId, base: ObjId, lo: nat, hi: nat)
    requires Inv(w) && CanMmap(w, v, base, lo, hi)
    ensures Inv(Mmap(w, v, base, lo, hi))
  {
    assert ObjOk(w.objs, w.vmas, base);
    MmapVmas(w, v, base, lo, hi);
    MmapObjs(w, v, base, lo, hi);
    PagesKept(w, Mmap(w, v, base, lo, hi));
  }

  lemma PageInInv(w: World, o: ObjId, off: nat, f: Frame)
    requires Inv(w) && f !in w.frames
    requires o in w.objs && w.objs[o].kind.VfsFile? && off in w.objs[o].kind.contents && off !in w.objs[o].pages
    ensures Inv(PageIn(w, o, off, f))
  {
    var w' := PageIn(w, o, off, f);
    PageGrows(w, w', o, off, f);
    forall u | u in w'.vmas ensures VmaOk(w'.objs, u, w'.vmas[u]) {
      assert VmaOk(w.objs, u, w.vmas[u]);
      VmaKept(w.objs, w'.objs, u, w.vmas[u]);
    }
  }

  /** A lookup that ends on disk ends in a file page that is not resident. */
  lemma {:induction false} OnDiskPage(w: World, c: seq<ObjId>, off: nat)
    requires forall i :: 0 <= i < |c| ==> c[i] in w.objs && ShapeOk(w.objs[c[i]])
    requires Resolve(w, c, off).OnDisk?
    ensures Resolve(w, c, off).file in c && w.objs[Resolve(w, c, off).file].kind.VfsFile?
    ensures off !in w.objs[Resolve(w, c, off).file].pages
  {
    if c != [] && !Supplies(w.objs[c[0]], off) {
      OnDiskPage(w, c[1..], off);
    }
  }

  /** The objects of a chain are live and well-shaped. */
  lemma ChainLive(w: World, v: VmaId)
    requires Inv(w) && v in w.vmas
    ensures forall i :: 0 <= i < |w.vmas[v].chain| ==> w.vmas[v].chain[i] in w.objs && ShapeOk(w.objs[w.vmas[v].chain[i]])
  {
    assert VmaOk(w.objs, v, w.vmas[v]);
    forall i | 0 <= i < |w.vmas[v].chain| ensures w.vmas[v].chain[i] in w.objs && ShapeOk(w.objs[w.vmas[v].chain[i]]) {
      assert LinkOk(w.objs, v, w.vmas[v], i);
      assert ObjOk(w.objs, w.vmas, w.vmas[v].chain[i]);
    }
  }

  lemma FetchInv(w: World, v: VmaId, off: nat, f: Frame)
    requires Inv(w) && v in w.vmas && f !in w.frames
    ensures Inv(Fetch(w, v, off, f))
  {
    if Resolve(w, w.vmas[v].chain, off).OnDisk? {
      ChainLive(w, v);
      OnDiskPage(w, w.vmas[v].chain, off);
      var o := Resolve(w, w.vmas[v].chain, off).file;
      if off in w.objs[o].kind.contents {
        PageInInv(w, o, off, f);
      }
    }
  }

  // ---------------------------------------------------------------------------
  // Copy on write
  // ---------------------------------------------------------------------------

  lemma NewShadowVmas(w: World, v: VmaId, s: ObjId)
    requires VmasOk(w) && v in w.vmas && w.vmas[v].chain != [] && s !in w.objs
    requires w.vmas[v].chain[0] in w.objs && !w.objs[w.vmas[v].chain[0]].writable
    ensures VmasOk(NewShadow(w, v, s))
  {
    var w' := NewShadow(w, v, s);
    var a, a' := w.vmas[v], w'.vmas[v];
    forall u | u in w'.vmas ensures VmaOk(w'.objs, u, w'.vmas[u]) {
      assert VmaOk(w.objs, u, w.vmas[u]);
      if u != v {
        forall o | o in w.vmas[u].chain && o in w.objs ensures o in w'.objs && SameForVma(w.objs[o], w'.objs[o], u) {}
        VmaKept(w.objs, w'.objs, u, w.vmas[u]);
      } else {
        assert LinkOk(w.objs, v, a, 0);
        forall i | 0 <= i < |a'.chain| ensures LinkOk(w'.objs, v, a', i) && (i > 0 ==> a'.chain[i] != s) {
          if i > 0 {
            assert LinkOk(w.objs, v, a, i - 1);
          }
        }
      }
    }
  }

  lemma NewShadowObjs(w: World, v: VmaId, s: ObjId)
    requires ObjsOk(w) && v in w.vmas && w.vmas[v].chain != [] && s !in w.objs
    requires w.vmas[v].chain[0] in w.objs
    ensures ObjsOk(NewShadow(w, v, s))
  {
    var w' := NewShadow(w, v, s);
    var t := w.vmas[v].chain[0];
    forall o | o in w'.objs ensures ObjOk(w'.objs, w'.vmas, o) {
      if o != s {
        assert ObjOk(w.objs, w.vmas, o);
        if o != t { ObjKept(w, w', o); }
      } else {
        assert t in w'.objs && w'.objs[t].shadowers[0] == s;
      }
    }
  }

  lemma NewShadowInv(w: World, v: VmaId, s: ObjId)
    requires Inv(w) && v in w.vmas && w.vmas[v].chain != [] && s !in w.objs
    requires w.vmas[v].chain[0] in w.objs && !w.objs[w.vmas[v].chain[0]].writable
    ensures Inv(NewShadow(w, v, s))
  {
    NewShadowVmas(w, v, s);
    NewShadowObjs(w, v, s);
    PagesKept(w, NewShadow(w, v, s));
  }

  /** A writable object is linked by one vma only, at the front of its chain. */
  lemma WritableIsExclusive(w: World, o: ObjId, v: VmaId)
    requires Inv(w) && o in w.objs && w.objs[o].writable && v in w.vmas && o in w.vmas[v].chain
    ensures w.objs[o].links == [v] && w.vmas[v].chain[0] == o
    ensures forall u :: u in w.vmas && u != v ==> o !in w.vmas[u].chain
  {
    assert ObjOk(w.objs, w.vmas, o);
    forall u | u in w.vmas && o in w.vmas[u].chain ensures u in w.objs[o].links && w.vmas[u].chain[0] == o {
      assert VmaOk(w.objs, u, w.vmas[u]);
      var i :| 0 <= i < |w.vmas[u].chain| && w.vmas[u].chain[i] == o;
      assert LinkOk(w.objs, u, w.vmas[u], i);
    }
  }

  lemma AddPageVmas(w: World, v: VmaId, off: nat, f: Frame, data: Page)
    requires VmasOk(w) && v in w.vmas && w.vmas[v].chain != [] && w.vmas[v].chain[0] in w.objs
    requires off !in w.objs[w.vmas[v].chain[0]].pages && w.vmas[v].lo <= off < w.vmas[v].hi
    requires forall u :: u in w.vmas && u != v ==> w.vmas[v].chain[0] !in w.vmas[u].chain
    ensures VmasOk(AddPage(w, v, off, f, data))
  {
    var w' := AddPage(w, v, off, f, data);
    var a := w.vmas[v];
    forall u | u in w'.vmas ensures VmaOk(w'.objs, u, w'.vmas[u]) {
      assert VmaOk(w.objs, u, w.vmas[u]);
      if u != v {
        VmaKept(w.objs, w'.objs, u, w.vmas[u]);
      } else {
        forall i | 0 <= i < |a.chain| ensures LinkOk(w'.objs, v, a, i) {
          assert LinkOk(w.objs, v, a, i);
        }
      }
    }
  }

  lemma AddPageInv(w: World, v: VmaId, off: nat, f: Frame, data: Page)
    requires Inv(w) && v in w.vmas && w.vmas[v].chain != [] && f !in w.frames && w.vmas[v].chain[0] in w.objs
    requires w.objs[w.vmas[v].chain[0]].writable && off !in w.objs[w.vmas[v].chain[0]].pages
    requires w.vmas[v].lo <= off < w.vmas[v].hi
    ensures Inv(AddPage(w, v, off, f, data))
  {
    var w' := AddPage(w, v, off, f, data);
    WritableIsExclusive(w, w.vmas[v].chain[0], v);
    AddPageVmas(w, v, off, f, data);
    assert ObjOk(w.objs, w.vmas, w.vmas[v].chain[0]);
    PageGrows(w, w', w.vmas[v].chain[0], off, f);
  }

  lemma SetPteInv(w: World, v: VmaId, off: nat, pte: Pte)
    requires Inv(w) && v in w.vmas
    ensures Inv(SetPte(w, v, off, pte))
  {
    var w' := SetPte(w, v, off, pte);
    var a, a' := w.vmas[v], w'.vmas[v];
    forall u | u in w'.vmas ensures VmaOk(w'.objs, u, w'.vmas[u]) {
      assert VmaOk(w.objs, u, w.vmas[u]);
      if u == v {
        forall i | 0 <= i < |a'.chain| ensures LinkOk(w'.objs, v, a', i) {
          assert LinkOk(w.objs, v, a, i);
        }
      }
    }
    forall o | o in w'.objs ensures ObjOk(w'.objs, w'.vmas, o) {
      assert ObjOk(w.objs, w.vmas, o);
    }
    PagesKept(w, w');
  }

  // ---------------------------------------------------------------------------
  // Dropping a link
  // ---------------------------------------------------------------------------

  lemma SingletonList(l: seq<nat>, v: nat)
    requires NoDup(l) && l != [] && forall u :: u in l ==> u == v
    ensures l == [v]
  {
    assert l[0] in l;
    if |l| >= 2 {
      TwoDiffer(l);
      assert false;
    }
  }

  lemma TwoDiffer(l: seq<nat>)
    requires NoDup(l) && |l| >= 2
    ensures exists x, y :: x in l && y in l && x != y
  {
    assert l[0] in l && l[1] in l && l[0] != l[1];
  }

  /** An object with a single link is shadowed, if at all, by its predecessor there. */
  lemma SoleLinkShadower(w: World, s: ObjId, d: ObjId, v: VmaId) returns (i: nat)
    requires Inv(w) && s in w.objs && w.objs[s].orig == Some(d) && d in w.objs && w.objs[d].links == [v]
    ensures w.objs[s].links == [v] && v in w.vmas
    ensures i + 1 < |w.vmas[v].chain| && w.vmas[v].chain[i] == s && w.vmas[v].chain[i + 1] == d
  {
    assert ObjOk(w.objs, w.vmas, s) && ObjOk(w.objs, w.vmas, d);
    LinksFlowBack(w, s, d);
    SingletonList(w.objs[s].links, v);
    i := ShadowInFront(w, s, v);
  }

  lemma DeletePages(w: World, d: ObjId)
    requires PagesOk(w)
    ensures PagesOk(Delete(w, d))
  {
    var w' := Delete(w, d);
    forall o | o in w'.objs ensures CacheOk(w'.frames, o, w'.objs[o]) {
      assert CacheOk(w.frames, o, w.objs[o]);
    }
    forall f | f in w'.frames ensures FrameOk(w'.objs, f, w'.frames[f]) {
      assert FrameOk(w.objs, f, w.frames[f]);
    }
  }

  /** When the front object of v is writable, its second link may be unhooked. */
  ghost predicate CanUnhook(w: World, v: VmaId) {
    && v in w.vmas && 3 <= |w.vmas[v].chain|
    && (forall i :: 0 <= i < |w.vmas[v].chain| ==> w.vmas[v].chain[i] in w.objs)
    && w.objs[w.vmas[v].chain[0]].writable
  }

  lemma UnhookOwnVma(w: World, v: VmaId)
    requires CanUnhook(w, v) && VmaOk(w.objs, v, w.vmas[v])
    ensures VmaOk(Unhook(w, v).objs, v, Unhook(w, v).vmas[v])
  {
    var w' := Unhook(w, v);
    var a, a' := w.vmas[v], w'.vmas[v];
    assert LinkOk(w.objs, v, a, 0) && LinkOk(w.objs, v, a, 1) && LinkOk(w.objs, v, a, 2);
    forall i | 0 <= i < |a'.chain| ensures LinkOk(w'.objs, v, a', i) {
      if 0 < i {
        assert LinkOk(w.objs, v, a, i + 1);
        assert a'.chain[i] == a.chain[i + 1];
      }
    }
  }

  lemma UnhookVmas(w: World, v: VmaId)
    requires VmasOk(w) && CanUnhook(w, v)
    requires forall u :: u in w.vmas && u != v ==> w.vmas[v].chain[0] !in w.vmas[u].chain
    ensures VmasOk(Unhook(w, v))
  {
    var w' := Unhook(w, v);
    forall u | u in w'.vmas ensures VmaOk(w'.objs, u, w'.vmas[u]) {
      assert VmaOk(w.objs, u, w.vmas[u]);
      if u != v {
        VmaKept(w.objs, w'.objs, u, w.vmas[u]);
      } else {
        UnhookOwnVma(w, v);
      }
    }
  }

  /** What the invariant says about the first three objects of such a chain. */
  ghost predicate Hooked(w: World, v: VmaId) {
    && CanUnhook(w, v) && NoDup(w.vmas[v].chain)
    && var c := w.vmas[v].chain;
       && w.objs[c[0]].orig == Some(c[1]) && w.objs[c[1]].orig == Some(c[2]) && w.objs[c[1]].kind.Shadow?
       && w.objs[c[0]].links == [v] && v in w.objs[c[1]].links && v in w.objs[c[2]].links
       && c[0] in w.objs[c[1]].shadowers && c[1] in w.objs[c[2]].shadowers && c[0] !in w.objs[c[2]].shadowers
  }

  lemma UnhookFacts(w: World, v: VmaId)
    requires Inv(w) && CanUnhook(w, v)
    ensures Hooked(w, v)
    ensures forall u :: u in w.vmas && u != v ==> w.vmas[v].chain[0] !in w.vmas[u].chain
  {
    var c := w.vmas[v].chain;
    assert VmaOk(w.objs, v, w.vmas[v]);
    assert LinkOk(w.objs, v, w.vmas[v], 0) && LinkOk(w.objs, v, w.vmas[v], 1) && LinkOk(w.objs, v, w.vmas[v], 2);
    assert ObjOk(w.objs, w.vmas, c[0]) && ObjOk(w.objs, w.vmas, c[1]) && ObjOk(w.objs, w.vmas, c[2]);
    WritableIsExclusive(w, c[0], v);
  }

  lemma UnhookLinks(w: World, v: VmaId, o: ObjId)
    requires Hooked(w, v) && o in w.objs && LinksOk(w.vmas, o, w.objs[o])
    ensures LinksOk(Unhook(w, v).vmas, o, Unhook(w, v).objs[o])
  {
    var c, c' := w.vmas[v].chain, Unhook(w, v).vmas[v].chain;
    assert c == [c[0]] + [c[1]] + c[2..] && c' == [c[0]] + c[2..];
    assert o in c && o != c[1] ==> o in c';
  }

  lemma UnhookShadowers(w: World, v: VmaId, o: ObjId)
    requires Hooked(w, v) && o in w.objs && ShadowersOk(w.objs, o, w.objs[o])
    requires w.objs[w.vmas[v].chain[1]].nlinks == 1 ==> o != w.vmas[v].chain[1]
    ensures ShadowersOk(Unhook(w, v).objs, o, Unhook(w, v).objs[o])
  {
    var w' := Unhook(w, v);
    var c := w.vmas[v].chain;
    forall s | s in w'.objs[o].shadowers ensures s in w'.objs && w'.objs[s].orig == Some(o) {
    }
  }

  lemma UnhookObj(w: World, v: VmaId, o: ObjId)
    requires Hooked(w, v) && o in w.objs && ObjOk(w.objs, w.vmas, o)
    requires w.objs[w.vmas[v].chain[1]].nlinks == 1 ==> o != w.vmas[v].chain[1]
    ensures ObjOk(Unhook(w, v).objs, Unhook(w, v).vmas, o)
  {
    UnhookLinks(w, v, o);
    UnhookShadowers(w, v, o);
  }

  lemma UnhookObjs(w: World, v: VmaId)
    requires ObjsOk(w) && Hooked(w, v) && w.objs[w.vmas[v].chain[1]].nlinks != 1
    ensures ObjsOk(Unhook(w, v))
  {
    forall o | o in w.objs ensures ObjOk(Unhook(w, v).objs, Unhook(w, v).vmas, o) {
      assert ObjOk(w.objs, w.vmas, o);
      UnhookObj(w, v, o);
    }
    assert Unhook(w, v).objs.Keys == w.objs.Keys;
  }

  lemma UnhookPages(w: World, v: VmaId)
    requires PagesOk(w) && CanUnhook(w, v)
    ensures PagesOk(Unhook(w, v))
  {
    PagesKept(w, Unhook(w, v));
  }

  lemma UnhookInv(w: World, v: VmaId)
    requires Inv(w) && CanUnhook(w, v) && w.objs[w.vmas[v].chain[1]].nlinks != 1
    ensures Inv(Unhook(w, v))
  {
    UnhookFacts(w, v);
    UnhookVmas(w, v);
    UnhookObjs(w, v);
    UnhookPages(w, v);
  }

  /** The last link of the second object goes: its only shadow was the front. */
  lemma UnhookDeleteObj(w: World, v: VmaId, o: ObjId)
    requires Inv(w) && CanUnhook(w, v) && w.objs[w.vmas[v].chain[1]].nlinks == 1
    requires o in w.objs && o != w.vmas[v].chain[1]
    ensures var w' := Delete(Unhook(w, v), w.vmas[v].chain[1]); ObjOk(w'.objs, w'.vmas, o)
  {
    var d := w.vmas[v].chain[1];
    var w1 := Unhook(w, v);
    var w' := Delete(w1, d);
    UnhookFacts(w, v);
    assert ObjOk(w.objs, w.vmas, o) && ObjOk(w.objs, w.vmas, d);
    UnhookObj(w, v, o);
    SingletonList(w.objs[d].links, v);
    if w1.objs[o].orig == Some(d) {
      var i := SoleLinkShadower(w, o, d, v);
      assert false;
    }
    DeleteObj(w1, d, o);
  }

  /** Deleting an object that no other one names. */
  lemma DeleteObj(w: World, d: ObjId, o: ObjId)
    requires o in w.objs && o != d && ObjOk(w.objs, w.vmas, o)
    requires w.objs[o].orig != Some(d) && d !in w.objs[o].shadowers
    ensures ObjOk(Delete(w, d).objs, Delete(w, d).vmas, o)
  {
    ObjKept(w, Delete(w, d), o);
  }

  lemma DeleteVmas(w: World, d: ObjId)
    requires VmasOk(w) && forall u :: u in w.vmas ==> d !in w.vmas[u].chain
    ensures VmasOk(Delete(w, d))
  {
    var w' := Delete(w, d);
    forall u | u in w'.vmas ensures VmaOk(w'.objs, u, w'.vmas[u]) {
      assert VmaOk(w.objs, u, w.vmas[u]);
      VmaKept(w.objs, w'.objs, u, w.vmas[u]);
    }
  }

  /** An object in a chain knows the link. */
  lemma ChainHasLink(w: World, d: ObjId, v: VmaId)
    requires VmasOk(w) && v in w.vmas && d in w.vmas[v].chain
    ensures d in w.objs && v in w.objs[d].links
  {
    var i :| 0 <= i < |w.vmas[v].chain| && w.vmas[v].chain[i] == d;
    assert VmaOk(w.objs, v, w.vmas[v]) && LinkOk(w.objs, v, w.vmas[v], i);
  }

  lemma UnhookDeleteInv(w: World, v: VmaId)
    requires Inv(w) && CanUnhook(w, v) && w.objs[w.vmas[v].chain[1]].nlinks == 1
    ensures Inv(Delete(Unhook(w, v), w.vmas[v].chain[1]))
  {
    var d := w.vmas[v].chain[1];
    var w1 := Unhook(w, v);
    UnhookFacts(w, v);
    UnhookVmas(w, v);
    UnhookPages(w, v);
    assert ObjOk(w.objs, w.vmas, d);
    SingletonList(w.objs[d].links, v);
    forall u | u in w1.vmas ensures d !in w1.vmas[u].chain {
      if d in w1.vmas[u].chain { ChainHasLink(w1, d, u); }
    }
    DeleteVmas(w1, d);
    DeletePages(w1, d);
    forall o | o in w.objs && o != d ensures ObjOk(Delete(w1, d).objs, Delete(w1, d).vmas, o) {
      UnhookDeleteObj(w, v, o);
    }
  }

  // ---------------------------------------------------------------------------
  // Merging
  // ---------------------------------------------------------------------------

  /** The redundant object r sits between its front shadow and its original in the
      chain of its one remaining vma, and the front shadow has no other link. */
  ghost predicate Merging(w: World, r: ObjId, s: ObjId, v: VmaId, n: ObjId, k: nat) {
    && r in w.objs && s in w.objs && n in w.objs && v in w.vmas && r != s && r != n && s != n
    && w.objs[r].links == [v] && w.objs[r].shadowers == [s] && w.objs[r].orig == Some(n)
    && w.objs[s].links == [v] && w.objs[s].orig == Some(r)
    && r in w.objs[n].shadowers && s !in w.objs[n].shadowers
    && k + 2 < |w.vmas[v].chain|
    && w.vmas[v].chain[k] == s && w.vmas[v].chain[k + 1] == r && w.vmas[v].chain[k + 2] == n
  }

  /** vma_merge_object finds its front shadow and its last link in the same vma. */
  lemma MergeFacts(w: World, r: ObjId) returns (s: ObjId, v: VmaId, n: ObjId, k: nat)
    requires Inv(w) && r in w.objs && Mergeable(w.objs[r])
    ensures Merging(w, r, s, v, n, k)
    ensures forall u :: u in w.vmas && u != v ==> r !in w.vmas[u].chain && s !in w.vmas[u].chain
    ensures forall o :: o in w.objs && o != s ==> w.objs[o].orig != Some(r)
  {
    assert ObjOk(w.objs, w.vmas, r);
    s, v, n := w.objs[r].shadowers[0], w.objs[r].links[0], w.objs[r].orig.value;
    assert s in w.objs[r].shadowers;
    k := SoleLinkShadower(w, s, r, v);
    assert ObjOk(w.objs, w.vmas, s) && ObjOk(w.objs, w.vmas, n);
    assert VmaOk(w.objs, v, w.vmas[v]);
    assert LinkOk(w.objs, v, w.vmas[v], k) && LinkOk(w.objs, v, w.vmas[v], k + 1);
    forall u | u in w.vmas && u != v ensures r !in w.vmas[u].chain && s !in w.vmas[u].chain {
      if r in w.vmas[u].chain { ChainHasLink(w, r, u); }
      if s in w.vmas[u].chain { ChainHasLink(w, s, u); }
    }
    forall o | o in w.objs && o != s ensures w.objs[o].orig != Some(r) {
      assert ObjOk(w.objs, w.vmas, o);
    }
  }

  /** What a merge leaves of the structure, field by field. */
  ghost predicate Merged(w: World, w': World, r: ObjId, s: ObjId, v: VmaId, n: ObjId)
    requires r in w.objs && s in w.objs && n in w.objs && v in w.vmas
  {
    && s in w'.objs && n in w'.objs && r !in w'.objs
    && (forall o :: o in w.objs && o != r ==> o in w'.objs)
    && (forall o :: o in w'.objs ==> o in w.objs)
    && (forall o :: o in w'.objs && o != s && o != n ==> w'.objs[o] == w.objs[o])
    && w'.objs[s] == Absorb(w.objs[s], w.objs[r])
    && w'.objs[n] == w.objs[n].(shadowers := [s] + Without(w.objs[n].shadowers, r))
    && w'.vmas.Keys == w.vmas.Keys
    && (forall u :: u in w.vmas && u != v ==> w'.vmas[u] == w.vmas[u])
    && w'.vmas[v] == w.vmas[v].(chain := Without(w.vmas[v].chain, r))
  }

  lemma MergeEffect(w: World, r: ObjId, s: ObjId, v: VmaId, n: ObjId, k: nat)
    requires Merging(w, r, s, v, n, k)
    ensures Merged(w, Merge(w, r), r, s, v, n)
  {
  }

  /** c' is c without its position m. */
  ghost predicate Spliced(c: seq<ObjId>, c': seq<ObjId>, m: nat) {
    && m < |c| && |c'| == |c| - 1
    && (forall i :: 0 <= i < m ==> c'[i] == c[i])
    && (forall i :: m <= i < |c'| ==> c'[i] == c[i + 1])
    && (forall j :: 0 <= j < |c| && j != m ==> c[j] != c[m])
  }

  lemma SpliceAt(c: seq<ObjId>, m: nat)
    requires NoDup(c) && m < |c|
    ensures Spliced(c, Without(c, c[m]), m)
  {
    hide Without, NoDup, Spliced;
    WithoutAt(c, m);
    SplicedIs(c, m);
  }

  lemma SplicedIs(c: seq<ObjId>, m: nat)
    requires NoDup(c) && m < |c|
    ensures Spliced(c, c[..m] + c[m + 1..], m)
  {
    var r := c[..m] + c[m + 1..];
    forall i | 0 <= i < |r| ensures r[i] == if i < m then c[i] else c[i + 1] {}
  }

  /** An object of the merged chain keeps all that its chain position needs. */
  lemma MergeLinkObj(w: World, w': World, r: ObjId, s: ObjId, v: VmaId, n: ObjId, o: ObjId)
    requires r in w.objs && s in w.objs && n in w.objs && v in w.vmas && Merged(w, w', r, s, v, n)
    requires o in w.objs && o != r
    ensures w'.objs[o].links == w.objs[o].links && w'.objs[o].writable == w.objs[o].writable
    ensures w'.objs[o].kind == w.objs[o].kind && w'.objs[o].orig == (if o == s then w.objs[r].orig else w.objs[o].orig)
    ensures o != s ==> w'.objs[o].pages == w.objs[o].pages
    ensures o == s ==> forall x :: x in w'.objs[o].pages <==> x in w.objs[s].pages || x in w.objs[r].pages
  {
  }

  lemma MergeLink(w: World, w': World, r: ObjId, s: ObjId, v: VmaId, n: ObjId, i: nat, j: nat)
    requires r in w.objs && s in w.objs && n in w.objs && v in w.vmas && Merged(w, w', r, s, v, n)
    requires i < |w'.vmas[v].chain| && j < |w.vmas[v].chain| && LinkOk(w.objs, v, w.vmas[v], j)
    requires var c, c' := w.vmas[v].chain, w'.vmas[v].chain;
             && c'[i] == c[j] && c[j] != r && (0 < i ==> 0 < j)
             && if c[j] == s then j + 1 < |c| && c[j + 1] == r && i + 1 < |c'| && w.objs[r].orig == Some(c'[i + 1])
                else (i + 1 < |c'| <==> j + 1 < |c|) && (i + 1 < |c'| ==> c'[i + 1] == c[j + 1])
    requires w.vmas[v].chain[j] == s ==> PagesWithin(w.objs[r], w.vmas[v].lo, w.vmas[v].hi) && w.objs[r].kind.Shadow?
    ensures LinkOk(w'.objs, v, w'.vmas[v], i)
  {
    MergeLinkObj(w, w', r, s, v, n, w.vmas[v].chain[j]);
  }

  lemma MergeOwnLinks(w: World, w': World, r: ObjId, s: ObjId, v: VmaId, n: ObjId, k: nat)
    requires Merging(w, r, s, v, n, k) && Merged(w, w', r, s, v, n) && w.objs[r].kind.Shadow?
    requires forall j {:trigger LinkOk(w.objs, v, w.vmas[v], j)} :: 0 <= j < |w.vmas[v].chain| ==>
               LinkOk(w.objs, v, w.vmas[v], j)
    requires Spliced(w.vmas[v].chain, w'.vmas[v].chain, k + 1)
    requires forall j :: 0 <= j < |w.vmas[v].chain| && w.vmas[v].chain[j] == s ==> j == k
    ensures forall i {:trigger LinkOk(w'.objs, v, w'.vmas[v], i)} :: 0 <= i < |w'.vmas[v].chain| ==>
              LinkOk(w'.objs, v, w'.vmas[v], i)
  {
    assert LinkOk(w.objs, v, w.vmas[v], k + 1);
    forall i | 0 <= i < |w'.vmas[v].chain| ensures LinkOk(w'.objs, v, w'.vmas[v], i) {
      var j := if i <= k then i else i + 1;
      assert LinkOk(w.objs, v, w.vmas[v], j);
      MergeLink(w, w', r, s, v, n, i, j);
    }
  }

  lemma MergeOwnVma(w: World, w': World, r: ObjId, s: ObjId, v: VmaId, n: ObjId, k: nat)
    requires Merging(w, r, s, v, n, k) && Merged(w, w', r, s, v, n)
    requires w.objs[r].kind.Shadow? && VmaOk(w.objs, v, w.vmas[v])
    ensures VmaOk(w'.objs, v, w'.vmas[v])
  {
    SpliceAt(w.vmas[v].chain, k + 1);
    MergeOwnLinks(w, w', r, s, v, n, k);
  }

  lemma MergeVmas(w: World, w': World, r: ObjId, s: ObjId, v: VmaId, n: ObjId, k: nat)
    requires VmasOk(w) && Merging(w, r, s, v, n, k) && Merged(w, w', r, s, v, n) && w.objs[r].kind.Shadow?
    requires forall u :: u in w.vmas && u != v ==> r !in w.vmas[u].chain && s !in w.vmas[u].chain
    ensures VmasOk(w')
  {
    forall u | u in w'.vmas ensures VmaOk(w'.objs, u, w'.vmas[u]) {
      assert VmaOk(w.objs, u, w.vmas[u]);
      if u != v {
        VmaKept(w.objs, w'.objs, u, w.vmas[u]);
      } else {
        MergeOwnVma(w, w', r, s, v, n, k);
      }
    }
  }

  lemma MergeShadowers(w: World, w': World, r: ObjId, s: ObjId, v: VmaId, n: ObjId, k: nat, o: ObjId)
    requires Merging(w, r, s, v, n, k) && Merged(w, w', r, s, v, n)
    requires o in w'.objs && ShadowersOk(w.objs, o, w.objs[o]) && (o != s ==> w.objs[o].orig != Some(r))
    ensures ShadowersOk(w'.objs, o, w'.objs[o])
  {
  }

  lemma MergeLinks(w: World, w': World, r: ObjId, s: ObjId, v: VmaId, n: ObjId, k: nat, o: ObjId)
    requires Merging(w, r, s, v, n, k) && Merged(w, w', r, s, v, n)
    requires o in w'.objs && LinksOk(w.vmas, o, w.objs[o])
    ensures LinksOk(w'.vmas, o, w'.objs[o])
  {
  }

  lemma UnionSize(front: Obj, red: Obj)
    ensures |Union(front.pages, red.pages)| == |front.pages| + |Lacking(front, red)|
  {
    var u, l := Union(front.pages, red.pages), Lacking(front, red);
    assert u.Keys == front.pages.Keys + l.Keys;
    DisjointSize(front.pages.Keys, l.Keys);
    assert |u| == |u.Keys| && |l| == |l.Keys| && |front.pages| == |front.pages.Keys|;
  }

  lemma DisjointSize(a: set<nat>, b: set<nat>)
    requires a !! b
    ensures |a + b| == |a| + |b|
  {
  }

  lemma AbsorbShape(front: Obj, red: Obj)
    requires ShapeOk(front) && front.kind.Shadow? && red.orig.Some?
    ensures ShapeOk(Absorb(front, red))
  {
    UnionSize(front, red);
  }

  lemma MergeObjs(w: World, w': World, r: ObjId, s: ObjId, v: VmaId, n: ObjId, k: nat)
    requires ObjsOk(w) && Merging(w, r, s, v, n, k) && Merged(w, w', r, s, v, n)
    requires forall o :: o in w.objs && o != s ==> w.objs[o].orig != Some(r)
    ensures ObjsOk(w')
  {
    forall o | o in w'.objs ensures ObjOk(w'.objs, w'.vmas, o) {
      assert ObjOk(w.objs, w.vmas, o);
      MergeShadowers(w, w', r, s, v, n, k, o);
      MergeLinks(w, w', r, s, v, n, k, o);
      if o == s { AbsorbShape(w.objs[s], w.objs[r]); }
    }
  }

  lemma AbsorbCache(frames: map<Frame, PageFrame>, r: ObjId, s: ObjId, front: Obj, red: Obj)
    requires r != s && CacheOk(frames, r, red) && CacheOk(frames, s, front)
    ensures CacheOk(Rehome(frames, r, s, front.pages), s, Absorb(front, red))
  {
  }

  lemma MergeCaches(w: World, w': World, r: ObjId, s: ObjId, v: VmaId, n: ObjId)
    requires r in w.objs && s in w.objs && n in w.objs && v in w.vmas && r != s && s != n && r != n
    requires Merged(w, w', r, s, v, n) && PagesOk(w) && w'.frames == Rehome(w.frames, r, s, w.objs[s].pages)
    ensures forall o {:trigger CacheOk(w'.frames, o, w'.objs[o])} :: o in w'.objs ==> CacheOk(w'.frames, o, w'.objs[o])
  {
    assert CacheOk(w.frames, r, w.objs[r]) && CacheOk(w.frames, s, w.objs[s]);
    AbsorbCache(w.frames, r, s, w.objs[s], w.objs[r]);
    forall o | o in w'.objs && o != s ensures CacheOk(w'.frames, o, w'.objs[o]) {
      assert CacheOk(w.frames, o, w.objs[o]) && w'.objs[o].pages == w.objs[o].pages;
    }
  }

  lemma MergeFrames(w: World, w': World, r: ObjId, s: ObjId, v: VmaId, n: ObjId)
    requires r in w.objs && s in w.objs && n in w.objs && v in w.vmas && r != s && s != n && r != n
    requires Merged(w, w', r, s, v, n) && PagesOk(w) && w'.frames == Rehome(w.frames, r, s, w.objs[s].pages)
    ensures forall f {:trigger FrameOk(w'.objs, f, w'.frames[f])} :: f in w'.frames ==> FrameOk(w'.objs, f, w'.frames[f])
  {
    forall f | f in w'.frames ensures FrameOk(w'.objs, f, w'.frames[f]) {
      assert FrameOk(w.objs, f, w.frames[f]);
      MergeLinkObj(w, w', r, s, v, n, w'.frames[f].owner);
    }
  }

  lemma MergeInv(w: World, r: ObjId)
    requires Inv(w) && r in w.objs && Mergeable(w.objs[r])
    ensures Inv(Collapse(w, r))
  {
    var s, v, n, k := MergeFacts(w, r);
    MergeEffect(w, r, s, v, n, k);
    MergeVmas(w, Merge(w, r), r, s, v, n, k);
    MergeObjs(w, Merge(w, r), r, s, v, n, k);
    MergeCaches(w, Merge(w, r), r, s, v, n);
    MergeFrames(w, Merge(w, r), r, s, v, n);
  }
}
