/**
 Exactly when the drop after a copy on write loses pages. The handler compares page
 counts only, so a shadow can be dropped although the front lacks one of its pages.
 */
module ShadowLoss {
  import opened Basics
  import opened ShadowWorld
  import opened ShadowSteps
  import opened ShadowInvariant
  import opened ShadowForkExit
  import opened ShadowViews
  import opened ShadowFaults
  import opened ShadowCopy

  /** Read off the world before the fault: either a frozen front shadow holds exactly one
      page and it is not the faulting one, or the second shadow holds one page more than
      the writable front and not just the front's pages and the faulting one. */
  ghost predicate DropLoses(w: World, v: VmaId, off: nat)
    requires v in w.vmas && w.vmas[v].chain != [] && w.vmas[v].chain[0] in w.objs
  {
    var c := w.vmas[v].chain;
    var top := w.objs[c[0]];
    if top.writable then
      && off !in top.pages && 3 <= |c| && c[1] in w.objs && w.objs[c[1]].kind.Shadow?
      && w.objs[c[1]].npages == top.npages + 1
      && exists x :: x in w.objs[c[1]].pages && x != off && x !in top.pages
    else
      top.kind.Shadow? && top.npages == 1 && off !in top.pages
  }

  /** Shadows other than the front of v keep their pages; no object changes its kind. */
  ghost predicate ShadowsKept(w: World, w': World, front: ObjId) {
    && (forall o :: o in w.objs ==> o in w'.objs && w'.objs[o].kind == w.objs[o].kind)
    && (forall o :: o in w.objs && w.objs[o].kind.Shadow? && o != front ==>
          w'.objs[o].pages == w.objs[o].pages && w'.objs[o].npages == w.objs[o].npages)
  }

  /** The front object of v has these pages. */
  ghost predicate FrontHas(w: World, v: VmaId, pages: set<nat>, npages: int) {
    && v in w.vmas && w.vmas[v].chain != [] && w.vmas[v].chain[0] in w.objs
    && w.objs[w.vmas[v].chain[0]].pages.Keys == pages && w.objs[w.vmas[v].chain[0]].npages == npages
  }

  /** Chain and front object after the copy; the other shadows keep their pages. */
  lemma FrontPageShape(w: World, v: VmaId, off: nat, s: ObjId, fin: Frame, fcow: Frame) returns (w1: World)
    requires Inv(w) && CanCopy(w, v, off, s, fin, fcow) && !AlreadyWritable(w, v, off)
    ensures w1 == WithFrontPage(w, v, off, s, fin, fcow)
    ensures var top := w.objs[w.vmas[v].chain[0]];
            && FrontHas(w1, v, (if top.writable then top.pages.Keys else {}) + {off}, (if top.writable then top.npages else 0) + 1)
            && w1.vmas[v].chain == if top.writable then w.vmas[v].chain else [s] + w.vmas[v].chain
    ensures ShadowsKept(w, w1, w1.vmas[v].chain[0])
  {
    var top := w.objs[w.vmas[v].chain[0]];
    var wf := FrontedReady(w, v, off, s, fin);
    FrontedShape(w, v, s);
    var wr := FetchReady(wf, v, off, fin, fcow);
    FetchKeepsShadows(wf, v, off, fin);
    w1 := AddPage(wr, v, off, fcow, View(wr, v, off));
    AddPageShape(wr, v, off, fcow, View(wr, v, off));
    assert ObjOk(wf.objs, wf.vmas, wf.vmas[v].chain[0]);
  }

  lemma FrontedShape(w: World, v: VmaId, s: ObjId)
    requires v in w.vmas && w.vmas[v].chain != [] && w.vmas[v].chain[0] in w.objs && s !in w.objs
    ensures var top := w.objs[w.vmas[v].chain[0]];
            var w' := Fronted(w, v, s);
            && FrontHas(w', v, if top.writable then top.pages.Keys else {}, if top.writable then top.npages else 0)
            && w'.vmas[v].chain == (if top.writable then w.vmas[v].chain else [s] + w.vmas[v].chain)
            && ShadowsKept(w, w', w'.vmas[v].chain[0])
  {
  }

  lemma AddPageShape(w: World, v: VmaId, off: nat, f: Frame, data: Page)
    requires v in w.vmas && w.vmas[v].chain != [] && w.vmas[v].chain[0] in w.objs
    ensures var top := w.objs[w.vmas[v].chain[0]];
            var w' := AddPage(w, v, off, f, data);
            FrontHas(w', v, top.pages.Keys + {off}, top.npages + 1) && ShadowsKept(w, w', w.vmas[v].chain[0])
  {
  }

  /** The copy itself moves the faulting page only. */
  lemma FrontPageSources(w: World, v: VmaId, off: nat, s: ObjId, fin: Frame, fcow: Frame, x: nat)
    requires Inv(w) && CanCopy(w, v, off, s, fin, fcow) && !AlreadyWritable(w, v, off) && x != off
    ensures Src(WithFrontPage(w, v, off, s, fin, fcow), v, x) == Src(w, v, x)
  {
    FrontedInv(w, v, off, s);
    var wf := FrontedReady(w, v, off, s, fin);
    var wr := FetchReady(wf, v, off, fin, fcow);
    FetchKeepsShadows(wf, v, off, fin);
    AddPageSource(wr, v, off, fcow, View(wr, v, off), v, x);
    assert Src(wf, v, x) == Src(w, v, x);
  }

  lemma FetchKeepsShadows(w: World, v: VmaId, off: nat, fin: Frame)
    requires Inv(w) && v in w.vmas && w.vmas[v].chain != [] && w.vmas[v].lo <= off < w.vmas[v].hi
    ensures var w' := Fetch(w, v, off, fin);
            && w'.objs.Keys == w.objs.Keys
            && (forall o :: o in w.objs ==> w'.objs[o].kind == w.objs[o].kind)
            && (forall o :: o in w.objs && w.objs[o].kind.Shadow? ==> w'.objs[o] == w.objs[o])
            && (forall x :: x != off ==> Src(w', v, x) == Src(w, v, x))
  {
    FetchSource(w, v, off, fin);
    if Src(w, v, off).OnDisk? {
      forall x | x != off ensures Src(PageIn(w, Src(w, v, off).file, off, fin), v, x) == Src(w, v, x) {
        PageInResolve(w, Src(w, v, off).file, off, fin, w.vmas[v].chain, x);
      }
    }
  }

  /** The condition is exact: it holds just when a drop fires that is not covered. */
  lemma DropLosesExactly(w: World, v: VmaId, off: nat, s: ObjId, fin: Frame, fcow: Frame)
    requires Inv(w) && CanCopy(w, v, off, s, fin, fcow)
    ensures DropLoses(w, v, off) <==> !CopyCovered(w, v, off, s, fin, fcow)
  {
    if !AlreadyWritable(w, v, off) {
      var w1 := FrontPageShape(w, v, off, s, fin, fcow);
      ChainLive(w, v);
      assert VmaOk(w.objs, v, w.vmas[v]);
      if w.objs[w.vmas[v].chain[0]].writable { ThinFrontLoses(w, w1, v, off); } else { FrozenFrontLoses(w, w1, v, off, s); }
    }
  }

  lemma ThinFrontLoses(w: World, w1: World, v: VmaId, off: nat)
    requires v in w.vmas && w.vmas[v].chain != [] && NoDup(w.vmas[v].chain)
    requires forall i :: 0 <= i < |w.vmas[v].chain| ==> w.vmas[v].chain[i] in w.objs
    requires var top := w.objs[w.vmas[v].chain[0]]; top.writable && off !in top.pages && FrontHas(w1, v, top.pages.Keys + {off}, top.npages + 1)
    requires w1.vmas[v].chain == w.vmas[v].chain && ShadowsKept(w, w1, w.vmas[v].chain[0])
    ensures DropLoses(w, v, off) <==> DropFires(w1, v) && !CoveredDrop(w1, v)
  {
    var c := w.vmas[v].chain;
    if 3 <= |c| {
      assert w1.objs[c[1]].kind == w.objs[c[1]].kind && c[1] != c[0];
    }
  }

  lemma FrozenFrontLoses(w: World, w1: World, v: VmaId, off: nat, s: ObjId)
    requires v in w.vmas && w.vmas[v].chain != [] && VmaOk(w.objs, v, w.vmas[v]) && s !in w.objs
    requires forall i :: 0 <= i < |w.vmas[v].chain| ==> w.vmas[v].chain[i] in w.objs
    requires var top := w.objs[w.vmas[v].chain[0]]; !top.writable && ShapeOk(top)
    requires FrontHas(w1, v, {off}, 1) && w1.vmas[v].chain == [s] + w.vmas[v].chain && ShadowsKept(w, w1, s)
    ensures DropLoses(w, v, off) <==> DropFires(w1, v) && !CoveredDrop(w1, v)
  {
    var c := w.vmas[v].chain;
    var top := w.objs[c[0]];
    assert LinkOk(w.objs, v, w.vmas[v], 0);
    assert w1.vmas[v].chain[1] == c[0] && (1 < |c| ==> w1.vmas[v].chain[2] == c[1]);
    assert w1.objs[c[0]].kind == top.kind;
    if top.kind.Shadow? && top.npages == 1 { SingletonMap(top.pages); }
  }

  lemma SingletonMap(m: map<nat, Frame>)
    requires |m| == 1
    ensures exists x :: x in m && forall y :: y in m ==> y == x
  {
    var x :| x in m;
    forall y | y in m ensures y == x {
      assert |m.Keys - {x}| == 0;
    }
  }

  /** Copy on write changes where v finds some other page just when the drop loses one. */
  lemma CopyMovesPages(w: World, v: VmaId, off: nat, s: ObjId, fin: Frame, fcow: Frame)
    requires Inv(w) && CanCopy(w, v, off, s, fin, fcow)
    ensures (exists x :: x != off && Src(CopyOnWrite(w, v, off, s, fin, fcow), v, x) != Src(w, v, x)) <==> DropLoses(w, v, off)
  {
    DropLosesExactly(w, v, off, s, fin, fcow);
    if !AlreadyWritable(w, v, off) {
      var w1 := FrontPageShape(w, v, off, s, fin, fcow);
      var w0 := FrontPageFacts(w, v, off, s, fin, fcow);
      forall x | x != off ensures Src(w1, v, x) == Src(w, v, x) { FrontPageSources(w, v, off, s, fin, fcow, x); }
      if DropFires(w1, v) {
        CanUnhookFront(w1, v, off);
        DropMovesPages(w1, v, off);
      }
    }
  }

  lemma DropMovesPages(w: World, v: VmaId, off: nat)
    requires Inv(w) && CanUnhook(w, v) && AlreadyWritable(w, v, off)
    ensures (exists x :: x != off && Src(DropSecond(w, v), v, x) != Src(w, v, x)) <==> !CoveredDrop(w, v)
  {
    var c := w.vmas[v].chain;
    if !CoveredDrop(w, v) {
      var x :| x in w.objs[c[1]].pages && x !in w.objs[c[0]].pages;
      DropSecondSource(w, v, v, x);
      UncoveredElsewhere(w, v, x);
      assert x != off;
    } else {
      forall x ensures Src(DropSecond(w, v), v, x) == Src(w, v, x) { DropSecondSource(w, v, v, x); }
    }
  }

  /** A page found in the second object is not what the objects behind it supply. */
  lemma UncoveredElsewhere(w: World, v: VmaId, x: nat)
    requires Inv(w) && CanUnhook(w, v)
    requires x in w.objs[w.vmas[v].chain[1]].pages && x !in w.objs[w.vmas[v].chain[0]].pages
    ensures Src(w, v, x) == Resident(w.objs[w.vmas[v].chain[1]].pages[x])
    ensures Resolve(w, w.vmas[v].chain[2..], x) != Src(w, v, x)
  {
    var c := w.vmas[v].chain;
    assert VmaOk(w.objs, v, w.vmas[v]) && LinkOk(w.objs, v, w.vmas[v], 0) && LinkOk(w.objs, v, w.vmas[v], 1);
    assert ObjOk(w.objs, w.vmas, c[0]) && ObjOk(w.objs, w.vmas, c[1]) && CacheOk(w.frames, c[1], w.objs[c[1]]);
    assert w.objs[c[0]].kind.Shadow? && w.objs[c[1]].kind.Shadow?;
    assert c[1..][0] == c[1] && c[1..][1..] == c[2..];
    assert Resolve(w, c[1..], x) == Resident(w.objs[c[1]].pages[x]);
    ResolveSound(w, c[2..], x);
    assert c[1] !in c[2..];
  }

  /** Whatever the drop does to v, every other vma keeps all it shows. */
  lemma CopyKeepsOthers(w: World, v: VmaId, off: nat, s: ObjId, fin: Frame, fcow: Frame)
    requires Inv(w) && CanCopy(w, v, off, s, fin, fcow)
    ensures SameViews(w, CopyOnWrite(w, v, off, s, fin, fcow), AllOf(v))
  {
    if !AlreadyWritable(w, v, off) {
      var w1 := FrontPageFacts(w, v, off, s, fin, fcow);
      if DropFires(w1, v) {
        CanUnhookFront(w1, v, off);
        DropKeepsOthers(w1, v);
        var w' := DropSecond(w1, v);
        forall u, x | u in w.vmas && u in w'.vmas && u != v ensures View(w', u, x) == View(w, u, x) {
          assert View(w', u, x) == View(w1, u, x) && View(w1, u, x) == View(w, u, x);
        }
      }
    }
  }

  lemma DropKeepsOthers(w: World, v: VmaId)
    requires Inv(w) && CanUnhook(w, v)
    ensures SameViews(w, DropSecond(w, v), AllOf(v))
  {
    var w' := DropSecond(w, v);
    DropSecondInv(w, v);
    DropSecondUndisturbed(w, v);
    forall u, x | u in w.vmas && u != v ensures Src(w', u, x) == Src(w, u, x) { DropSecondSource(w, v, u, x); }
    SourcesGiveViews(w, w', AllOf(v));
  }

  // ---------------------------------------------------------------------------
  // Faults
  // ---------------------------------------------------------------------------

  /** A fault in v, lossy or not, is invisible to every other vma. */
  lemma FaultKeepsOthers(w: World, v: VmaId, off: nat, reason: Reason, s: ObjId, fin: Frame, fcow: Frame)
    requires Inv(w) && WritesOwned(w, Nothing) && CanFault(w, v, off, reason, s, fin, fcow)
    ensures SameViews(w, Fault(w, v, off, reason, s, fin, fcow), AllOf(v))
  {
    if reason == WriteAccess {
      var w1 := BeforeCopyFacts(w, v, off, reason, s, fin, fcow);
      CopyKeepsOthers(w1, v, off, s, fin, fcow);
      var w2 := CopySound(w1, v, off, s, fin, fcow);
      var pte := Pte(Found(w2, v, off), true);
      SetPteSources(w2, v, off, pte);
      var w' := SetPte(w2, v, off, pte);
      forall u, x | u in w.vmas && u in w'.vmas && u != v ensures View(w', u, x) == View(w, u, x) {
        assert View(w', u, x) == View(w2, u, x) && View(w2, u, x) == View(w1, u, x) && View(w1, u, x) == View(w, u, x);
      }
    } else {
      var w' := ReadFaultSound(w, v, off, reason, s, fin, fcow);
    }
  }

  /** A write fault in v moves other pages of v just when the drop loses one; no other
      fault does. */
  lemma FaultMovesPages(w: World, v: VmaId, off: nat, reason: Reason, s: ObjId, fin: Frame, fcow: Frame)
    requires Inv(w) && WritesOwned(w, Nothing) && CanFault(w, v, off, reason, s, fin, fcow)
    ensures (exists x :: x != off && Src(Fault(w, v, off, reason, s, fin, fcow), v, x) != Src(w, v, x))
            <==> (reason == WriteAccess && DropLoses(w, v, off))
    ensures FaultCovered(w, v, off, reason, s, fin, fcow) <==> !(reason == WriteAccess && DropLoses(w, v, off))
  {
    FetchKeepsShadows(w, v, off, fin);
    assert ObjOk(w.objs, w.vmas, w.vmas[v].chain[0]);
    if reason == WriteAccess {
      var w1 := BeforeCopyFacts(w, v, off, reason, s, fin, fcow);
      BeforeCopyLoss(w, v, off, reason, s, fin, fcow);
      CopyMovesPages(w1, v, off, s, fin, fcow);
      DropLosesExactly(w1, v, off, s, fin, fcow);
      var w2 := CopySound(w1, v, off, s, fin, fcow);
      SetPteSources(w2, v, off, Pte(Found(w2, v, off), true));
      forall x | x != off
        ensures Src(Fault(w, v, off, reason, s, fin, fcow), v, x) != Src(w, v, x) <==> Src(w2, v, x) != Src(w1, v, x)
      {
        assert Src(SetPte(w2, v, off, Pte(Found(w2, v, off), true)), v, x) == Src(w2, v, x);
      }
    } else {
      var w1 := Fetch(w, v, off, fin);
      FetchInv(w, v, off, fin);
      var pte := Pte(Found(w1, v, off), off in w.vmas[v].ptes && w.vmas[v].ptes[off].writable);
      SetPteSources(w1, v, off, pte);
      forall x | x != off ensures Src(Fault(w, v, off, reason, s, fin, fcow), v, x) == Src(w, v, x) {
        assert Src(SetPte(w1, v, off, pte), v, x) == Src(w1, v, x);
      }
    }
  }

  /** Reading the faulting page in first does not change the verdict. */
  lemma BeforeCopyLoss(w: World, v: VmaId, off: nat, reason: Reason, s: ObjId, fin: Frame, fcow: Frame)
    requires Inv(w) && CanFault(w, v, off, reason, s, fin, fcow)
    ensures var w1 := BeforeCopy(w, v, off, fin);
            && v in w1.vmas && w1.vmas[v].chain != [] && w1.vmas[v].chain[0] in w1.objs
            && (DropLoses(w1, v, off) <==> DropLoses(w, v, off))
            && (forall x :: x != off ==> Src(w1, v, x) == Src(w, v, x))
  {
    FetchKeepsShadows(w, v, off, fin);
    FetchSource(w, v, off, fin);
    var w1 := BeforeCopy(w, v, off, fin);
    assert ObjOk(w.objs, w.vmas, w.vmas[v].chain[0]);
    FetchKeepsWritable(w, v, off, fin);
  }

  lemma FetchKeepsWritable(w: World, v: VmaId, off: nat, fin: Frame)
    requires v in w.vmas
    ensures var w' := Fetch(w, v, off, fin);
            w'.vmas == w.vmas && forall o :: o in w.objs ==> o in w'.objs && w'.objs[o].writable == w.objs[o].writable
  {
  }
}
