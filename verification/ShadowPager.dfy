/**
 The fault handler as it runs: an object whose methods walk the chains and update
 objects, links, pages and entries one by one. Each method is proved to have the effect
 of its specification function; every internal BUG check is an assertion.
 */
module ShadowPager {
  import opened Basics
  import opened ShadowWorld
  import opened ShadowSteps
  import opened ShadowInvariant
  import opened ShadowForkExit
  import opened ShadowViews
  import opened ShadowFaults
  import opened ShadowCopy

  class Pager {
    var objs: map<ObjId, Obj>
    var vmas: map<VmaId, Vma>
    var frames: map<Frame, PageFrame>

    function Now(): World
      reads this
    {
      World(objs, vmas, frames)
    }

    // -------------------------------------------------------------------------
    // Lookups
    // -------------------------------------------------------------------------

    /** An object's page_in operation: a shadow only has what is resident, devzero has
        one page for all, a file reads the page into the frame `f`. */
    method PageInFrom(o: ObjId, off: nat, f: Frame) returns (page: Option<Frame>)
      requires o in objs && (objs[o].kind.DevZero? ==> 0 in objs[o].pages)
      requires objs[o].kind.VfsFile? && off !in objs[o].pages ==> off in objs[o].kind.contents
      modifies `objs, `frames
      ensures page.None? <==> !Supplies(old(objs[o]), off)
      ensures page.Some? && Slot(old(objs[o]), off) in old(objs[o].pages) ==> page.value == old(objs[o].pages)[Slot(old(objs[o]), off)]
      ensures page.None? || Slot(old(objs[o]), off) in old(objs[o].pages) ==> Now() == old(Now())
      ensures page.Some? && Slot(old(objs[o]), off) !in old(objs[o].pages) ==> page.value == f && Now() == PageIn(old(Now()), o, off, f)
    {
      var obj := objs[o];
      match obj.kind
      case DevZero => page := Some(obj.pages[0]);
      case Shadow => page := if off in obj.pages then Some(obj.pages[off]) else None;
      case VfsFile(contents, _) =>
        if off in obj.pages {
          page := Some(obj.pages[off]);
        } else {
          frames := frames[f := PageFrame(o, off, contents[off])];
          objs := objs[o := obj.(pages := obj.pages[off := f], npages := obj.npages + 1)];
          page := Some(f);
        }
    }

    /** Walks the chain of v from link `start` until an object supplies the page. */
    method Search(v: VmaId, start: nat, off: nat, f: Frame) returns (page: Frame)
      requires Inv(Now()) && v in vmas && start < |vmas[v].chain| && vmas[v].lo <= off < vmas[v].hi
      requires Src(Now(), v, off) == Resolve(Now(), vmas[v].chain[start..], off)
      modifies `objs, `frames
      ensures Now() == Fetch(old(Now()), v, off, f) && Src(Now(), v, off) == Resident(page)
    {
      ghost var w := Now();
      var c := vmas[v].chain;
      ChainLive(w, v);
      FetchSource(w, v, off, f);
      assert VmaOk(objs, v, vmas[v]);
      var i := start;
      while true
        invariant start <= i < |c| && Now() == w && vmas == old(vmas)
        invariant Src(w, v, off) == Resolve(w, c[i..], off)
        decreases |c| - i
      {
        assert LinkOk(objs, v, vmas[v], i) && ObjOk(objs, vmas, c[i]);
        assert c[i..][1..] == c[i + 1..];
        var found := PageInFrom(c[i], off, f);
        if found.Some? { return found.value; }
        assert i + 1 < |c|;
        i := i + 1;
      }
    }

    /** page_read_fault. */
    method ReadFault(v: VmaId, off: nat, f: Frame) returns (page: Frame)
      requires Inv(Now()) && v in vmas && vmas[v].chain != [] && vmas[v].lo <= off < vmas[v].hi
      modifies `objs, `frames
      ensures Now() == Fetch(old(Now()), v, off, f) && Src(Now(), v, off) == Resident(page)
    {
      assert vmas[v].chain[0..] == vmas[v].chain;
      page := Search(v, 0, off, f);
    }

    // -------------------------------------------------------------------------
    // Deleting, merging and dropping
    // -------------------------------------------------------------------------

    /** default_release_pages: frees the pages of an object one after the other. */
    method ReleasePages(o: ObjId)
      requires o in objs && PagesOk(Now()) && |objs[o].pages| <= objs[o].npages
      modifies `objs, `frames
      ensures frames == Freed(old(frames), o, {})
      ensures objs == old(objs)[o := WithPages(old(objs)[o], {})]
    {
      ghost var w := Now();
      var left := objs[o].pages.Keys;
      FreedNone(w, o);
      AllPages(objs[o]);
      while left != {}
        invariant left <= w.objs[o].pages.Keys
        invariant objs == w.objs[o := WithPages(w.objs[o], left)] && frames == Freed(w.frames, o, left)
        decreases |left|
      {
        var x :| x in left;
        FreedNext(w, o, left, x);
        OnePageLess(w.objs[o], left, x);
        var p := objs[o].pages[x];
        objs := objs[o := objs[o].(pages := objs[o].pages - {x}, npages := objs[o].npages - 1)];
        assert objs[o].npages >= 0;
        frames := frames - {p};
        left := left - {x};
      }
    }

    /** vm_object_delete. */
    method DeleteObject(o: ObjId)
      requires o in objs && PagesOk(Now()) && |objs[o].pages| <= objs[o].npages && Bare(Now(), o)
      modifies `objs, `frames
      ensures Now() == Delete(old(Now()), o)
    {
      ReleasePages(o);
      assert objs[o].nlinks == 0 && objs[o].shadows == 0;
      assert objs[o].shadowers == [] && objs[o].links == [] && objs[o].pages == map[];
      assert forall q :: q in objs ==> o !in objs[q].shadowers;
      objs := map q | q in objs && q != o :: objs[q];
      assert frames == Delete(old(Now()), o).frames;
    }

    /** vma_drop_link: takes the object out of the vma's list and the link off the object's. */
    method DropLink(v: VmaId, d: ObjId)
      requires v in vmas && d in objs
      modifies `objs, `vmas
      ensures vmas == old(vmas)[v := old(vmas)[v].(chain := Without(old(vmas)[v].chain, d))]
      ensures objs == old(objs)[d := old(objs)[d].(links := Without(old(objs)[d].links, v), nlinks := old(objs)[d].nlinks - 1)]
    {
      vmas := vmas[v := vmas[v].(chain := Without(vmas[v].chain, d))];
      objs := objs[d := objs[d].(links := Without(objs[d].links, v))];
      objs := objs[d := objs[d].(nlinks := objs[d].nlinks - 1)];
    }

    /** The loop of vma_merge_object: moves to s the pages of r that s lacks. */
    method MovePages(r: ObjId, s: ObjId)
      requires r in objs && s in objs && r != s && PagesOk(Now())
      modifies `objs, `frames
      ensures frames == Given(old(frames), r, s, old(objs)[s].pages, {})
      ensures Alike(old(objs), objs, {r, s})
      ensures objs[r] == old(objs)[r].(pages := Left(old(objs)[s].pages, old(objs)[r].pages, {}))
      ensures objs[s] == old(objs)[s].(pages := Gained(old(objs)[s].pages, old(objs)[r].pages, {}), npages := objs[s].npages)
      ensures objs[s].npages - |objs[s].pages| == old(objs)[s].npages - |old(objs)[s].pages|
    {
      ghost var w := Now();
      ghost var fp, rp := objs[s].pages, objs[r].pages;
      var todo := objs[r].pages.Keys;
      NoneGiven(w, r, s);
      NoneMoved(fp, rp);
      while todo != {}
        invariant todo <= rp.Keys && Alike(w.objs, objs, {r, s})
        invariant objs[r] == w.objs[r].(pages := Left(fp, rp, todo))
        invariant objs[s] == w.objs[s].(pages := Gained(fp, rp, todo), npages := objs[s].npages)
        invariant objs[s].npages - |objs[s].pages| == w.objs[s].npages - |fp|
        invariant frames == Given(w.frames, r, s, fp, todo)
        decreases |todo|
      {
        var x :| x in todo;
        MoveOne(fp, rp, todo, x);
        GiveOne(w, r, s, todo, x);
        if x !in objs[s].pages {
          MovePage(r, s, x);
        }
        todo := todo - {x};
      }
    }

    method MovePage(r: ObjId, s: ObjId, x: nat)
      requires r in objs && s in objs && r != s && x in objs[r].pages && x !in objs[s].pages && objs[r].pages[x] in frames
      modifies `objs, `frames
      ensures frames == old(frames)[old(objs)[r].pages[x] := old(frames)[old(objs)[r].pages[x]].(owner := s)]
      ensures Alike(old(objs), objs, {r, s})
      ensures objs[r] == old(objs)[r].(pages := map y | y in old(objs)[r].pages && y != x :: old(objs)[r].pages[y])
      ensures objs[s] == old(objs)[s].(pages := old(objs)[s].pages[x := old(objs)[r].pages[x]], npages := old(objs)[s].npages + 1)
      ensures |objs[s].pages| == |old(objs)[s].pages| + 1
    {
      var p := objs[r].pages[x];
      GrownSize(objs[s].pages, x, p);
      objs := objs[r := objs[r].(pages := map y | y in objs[r].pages && y != x :: objs[r].pages[y])];
      frames := frames[p := frames[p].(owner := s)];
      objs := objs[s := objs[s].(pages := objs[s].pages[x := p], npages := objs[s].npages + 1)];
    }

    /** The list work of vma_merge_object: r leaves the shadow lists and its last vma. */
    method SpliceOut(r: ObjId, s: ObjId)
      requires r in objs && s in objs && r != s && objs[r].shadowers == [s] && objs[r].shadows == 1
      requires objs[r].orig.Some? && objs[r].orig.value in objs && objs[r].orig.value != r && objs[r].orig.value != s
      requires |objs[r].links| == 1 && objs[r].links[0] in vmas && objs[r].nlinks == 1
      modifies `objs, `vmas
      ensures var n, v := old(objs)[r].orig.value, old(objs)[r].links[0];
              && Alike(old(objs), objs, {r, s, n})
              && objs[s] == old(objs)[s].(orig := Some(n))
              && objs[n] == old(objs)[n].(shadowers := [s] + Without(old(objs)[n].shadowers, r))
              && objs[r] == old(objs)[r].(links := [], nlinks := 0, shadowers := [], shadows := 0)
              && vmas == old(vmas)[v := old(vmas)[v].(chain := Without(old(vmas)[v].chain, r))]
    {
      objs := objs[r := objs[r].(shadowers := Without(objs[r].shadowers, s))];
      assert objs[r].shadowers == [];
      var n := objs[r].orig.value;
      objs := objs[n := objs[n].(shadowers := [s] + Without(objs[n].shadowers, r))];
      objs := objs[s := objs[s].(orig := Some(n))];
      DropLink(objs[r].links[0], r);
      objs := objs[r := objs[r].(shadows := objs[r].shadows - 1)];
      assert objs[r].shadows >= 0;
    }

    /** vma_merge_object. */
    method MergeObject(r: ObjId)
      requires Inv(Now()) && r in objs && Mergeable(objs[r])
      modifies this
      ensures Now() == Collapse(old(Now()), r)
    {
      ghost var w := Now();
      ghost var s0, v, n, k := MergeFacts(w, r);
      assert objs[r].nlinks == 1;
      assert objs[r].shadows == 1;
      var s := objs[r].shadowers[0];
      MovePages(r, s);
      AllMoved(w.objs[s], w.objs[r]);
      SpliceOut(r, s);
      UnmergedReady(w, Now(), r, s, v, n, k);
      DeleteObject(r);
    }

    /** A shadow drop: the second object leaves, the front one now shadows the third. */
    method DropBehindFront(v: VmaId)
      requires Inv(Now()) && CanUnhook(Now(), v)
      modifies `objs, `vmas
      ensures Now() == Unhook(old(Now()), v)
    {
      hide Unhook, Without;
      ghost var w := Now();
      UnhookFacts(w, v);
      SecondCounts(w, v);
      var p, d, n := vmas[v].chain[0], vmas[v].chain[1], vmas[v].chain[2];
      WithoutAt(vmas[v].chain, 1);
      DropLink(v, d);
      assert objs[p].kind.Shadow?;
      assert objs[p].writable;
      Rehook(p, d, n);
      UnhookIs(w, Now(), v);
    }

    /** Takes p off the shadow list of d and puts it on that of n; a d without links
        leaves that list at the same time. */
    method Rehook(p: ObjId, d: ObjId, n: ObjId)
      requires p in objs && d in objs && n in objs && p != d && d != n && p != n
      requires p in objs[d].shadowers && objs[d].shadows >= 1 && objs[d].orig == Some(n)
      modifies `objs
      ensures Alike(old(objs), objs, {p, d, n})
      ensures objs[p] == old(objs)[p].(orig := Some(n))
      ensures objs[d] == old(objs)[d].(shadowers := Without(old(objs)[d].shadowers, p), shadows := old(objs)[d].shadows - 1)
      ensures objs[n] == if old(objs)[d].nlinks == 0 then old(objs)[n].(shadowers := [p] + Without(old(objs)[n].shadowers, d))
                         else old(objs)[n].(shadowers := [p] + old(objs)[n].shadowers, shadows := old(objs)[n].shadows + 1)
    {
      hide Without;
      var front, dropped, next := objs[p], objs[d], objs[n];
      dropped := dropped.(shadows := dropped.shadows - 1);
      assert dropped.shadows >= 0;
      dropped := dropped.(shadowers := Without(dropped.shadowers, p));
      next := next.(shadowers := [p] + next.shadowers);
      front := front.(orig := Some(n));
      if dropped.nlinks == 0 {
        assert dropped.orig == Some(n);
        WithoutBehind(p, objs[n].shadowers, d);
        next := next.(shadowers := Without(next.shadowers, d));
      } else {
        next := next.(shadows := next.shadows + 1);
      }
      objs := objs[p := front][d := dropped][n := next];
    }

    /** An exit: the front object leaves, and with its last link it stops shadowing. */
    method DropFront(v: VmaId)
      requires Inv(Now()) && v in vmas && vmas[v].chain != [] && vmas[v].chain[0] in objs
      modifies `objs, `vmas
      ensures Now() == Unlink(old(Now()), v)
    {
      hide Unlink, Without, Inv;
      ghost var w := Now();
      FrontFacts(w, v);
      FrontCounts(w, v);
      var c := vmas[v].chain;
      var d := c[0];
      WithoutAt(c, 0);
      assert c[..0] + c[1..] == c[1..];
      DropLink(v, d);
      if objs[d].nlinks == 0 {
        if 1 < |c| && objs[d].kind.Shadow? {
          var n := c[1];
          assert objs[d].orig == Some(n);
          var next := objs[n].(shadows := objs[n].shadows - 1);
          assert next.shadows >= 0;
          objs := objs[n := next.(shadowers := Without(next.shadowers, d))];
        }
      }
      UnlinkIs(w, Now(), v);
    }

    /** What remains to do with a dropped object. */
    method Dispose(d: ObjId)
      requires d in objs && PagesOk(Now())
      requires Deletable(objs[d]) ==> |objs[d].pages| <= objs[d].npages
      requires objs[d].nlinks == 0 ==> Bare(Now(), d)
      requires Mergeable(objs[d]) ==> Inv(Now())
      modifies this
      ensures Now() == if Deletable(old(objs)[d]) then Delete(old(Now()), d) else Collapse(old(Now()), d)
    {
      if Deletable(objs[d]) {
        DeleteObject(d);
      } else if objs[d].kind.Shadow? && objs[d].nlinks == 1 && objs[d].shadows == 1 {
        MergeObject(d);
      }
    }

    /** vma_drop_merge_delete on a link that has another one in front of it. */
    method DropMergeDelete(v: VmaId)
      requires Inv(Now()) && CanUnhook(Now(), v)
      modifies this
      ensures Now() == DropSecond(old(Now()), v)
    {
      ghost var w := Now();
      var d := vmas[v].chain[1];
      UnhookFacts(w, v);
      assert ObjOk(objs, vmas, d);
      UnhookPages(w, v);
      if objs[d].nlinks == 1 { UnhookBare(w, v); } else { UnhookInv(w, v); }
      DropBehindFront(v);
      Dispose(d);
    }

    /** vma_drop_merge_delete on the first link. */
    method DropMergeDeleteFirst(v: VmaId)
      requires Inv(Now()) && v in vmas && vmas[v].chain != []
      modifies this
      ensures Now() == DropNext(old(Now()), v)
    {
      ghost var w := Now();
      var d := vmas[v].chain[0];
      FrontFacts(w, v);
      assert ObjOk(objs, vmas, d);
      UnlinkPages(w, v);
      if objs[d].nlinks == 1 { UnlinkBare(w, v); } else { UnlinkInv(w, v); }
      DropFront(v);
      Dispose(d);
    }

    /** One round of vma_drop_merge_delete_all; `w` is the world it started in. */
    method DropRound(v: VmaId, ghost w: World, ghost k: nat)
      requires Inv(w) && v in w.vmas && k < |w.vmas[v].chain| && Now() == DropLinks(w, v, k)
      modifies this
      ensures Now() == DropLinks(w, v, k + 1) && v in vmas && |vmas[v].chain| == |w.vmas[v].chain| - k - 1
    {
      ghost var cur := DropLinksInv(w, v, k);
      ghost var next := NextLink(w, v, k, cur);
      DropMergeDeleteFirst(v);
    }

    /** vma_drop_merge_delete_all: every link goes, front to back. */
    method DropMergeDeleteAll(v: VmaId)
      requires Inv(Now()) && v in vmas && vmas[v].chain != []
      modifies this
      ensures Now() == DropLinks(old(Now()), v, |old(vmas)[v].chain|) && v in vmas && vmas[v].chain == []
    {
      hide DropNext;
      ghost var w := Now();
      ghost var k := 0;
      while vmas[v].chain != []
        invariant k <= |w.vmas[v].chain| && Now() == DropLinks(w, v, k)
        invariant v in vmas && |vmas[v].chain| == |w.vmas[v].chain| - k
        decreases |w.vmas[v].chain| - k
      {
        DropRound(v, w, k);
        k := k + 1;
      }
    }

    /** vma_destroy_single, as exit does for every vma: all links, then the vma itself. */
    method DestroyVma(v: VmaId)
      requires Inv(Now()) && v in vmas && vmas[v].chain != []
      modifies this
      ensures Now() == Exit(old(Now()), v)
    {
      hide DropLinks;
      DropMergeDeleteAll(v);
      vmas := vmas - {v};
    }

    // -------------------------------------------------------------------------
    // Copy on write and faults
    // -------------------------------------------------------------------------

    /** A fresh writable shadow in front of the chain of v. */
    method PushShadow(v: VmaId, s: ObjId)
      requires v in vmas && vmas[v].chain != [] && vmas[v].chain[0] in objs && s !in objs
      modifies `objs, `vmas
      ensures Now() == NewShadow(old(Now()), v, s)
    {
      var t := vmas[v].chain[0];
      var shadow := Obj(Shadow, false, None, map[], 0, [v], 1, [], 0);
      shadow := shadow.(orig := Some(t), writable := true);
      var orig := objs[t].(shadows := objs[t].shadows + 1);
      vmas := vmas[v := vmas[v].(chain := [s] + vmas[v].chain)];
      orig := orig.(shadowers := [s] + orig.shadowers);
      objs := objs[t := orig][s := shadow];
    }

    /** copy_on_write. */
    method CopyOnWrite(v: VmaId, off: nat, s: ObjId, fin: Frame, fcow: Frame) returns (page: Frame)
      requires Inv(Now()) && CanCopy(Now(), v, off, s, fin, fcow)
      modifies this
      ensures Now() == ShadowSteps.CopyOnWrite(old(Now()), v, off, s, fin, fcow)
      ensures Src(Now(), v, off) == Resident(page)
    {
      hide WithFrontPage, DropSecond, DropFires, NewShadow;
      ghost var w := Now();
      ghost var w' := CopySound(w, v, off, s, fin, fcow);
      var t := vmas[v].chain[0];
      if !objs[t].writable {
        PushShadow(v, s);
      } else {
        assert ObjOk(objs, vmas, t);
        var found := PageInFrom(t, off, fin);
        if found.Some? { return found.value; }
      }
      ghost var w1 := FrontPageFacts(w, v, off, s, fin, fcow);
      page := AddFrontPage(v, off, fcow, fin, w, s);
      DropIfDroppable(v, off);
    }

    /** Finds the page behind the writable front of v and copies it to the front. */
    method AddFrontPage(v: VmaId, off: nat, fcow: Frame, fin: Frame, ghost w: World, ghost s: ObjId) returns (page: Frame)
      requires Inv(w) && CanCopy(w, v, off, s, fin, fcow) && !AlreadyWritable(w, v, off) && Now() == Fronted(w, v, s)
      modifies `objs, `frames
      ensures Now() == WithFrontPage(w, v, off, s, fin, fcow) && page == fcow
    {
      hide Fronted, Fetch;
      ghost var wf := FrontedReady(w, v, off, s, fin);
      ghost var wr := FetchReady(wf, v, off, fin, fcow);
      BehindFront(wf, v, off);
      var source := Search(v, 1, off, fin);
      FoundFrame(wr, v, off, source);
      var t := vmas[v].chain[0];
      frames := frames[fcow := PageFrame(t, off, frames[source].data)];
      objs := objs[t := objs[t].(pages := objs[t].pages[off := fcow], npages := objs[t].npages + 1)];
      page := fcow;
    }

    /** The collapse check after a copy. */
    method DropIfDroppable(v: VmaId, off: nat)
      requires Inv(Now()) && v in vmas && AlreadyWritable(Now(), v, off)
      modifies this
      ensures Now() == if DropFires(old(Now()), v) then DropSecond(old(Now()), v) else old(Now())
      ensures Src(Now(), v, off) == Src(old(Now()), v, off)
    {
      FrontHasNext(Now(), v);
      var front, next := vmas[v].chain[0], vmas[v].chain[1];
      if Droppable(objs[front], objs[next]) {
        CanUnhookFront(Now(), v, off);
        DropKeepsFront(Now(), v, off);
        DropMergeDelete(v);
      }
    }

    /** __do_page_fault on a private vma. */
    method Fault(v: VmaId, off: nat, reason: Reason, s: ObjId, fin: Frame, fcow: Frame) returns (page: Frame)
      requires Inv(Now()) && WritesOwned(Now(), Nothing) && CanFault(Now(), v, off, reason, s, fin, fcow)
      modifies this
      ensures Now() == ShadowSteps.Fault(old(Now()), v, off, reason, s, fin, fcow)
      ensures v in vmas && off in vmas[v].ptes && vmas[v].ptes[off].frame == page
    {
      var present := off in vmas[v].ptes;
      var writable := false;
      if reason == WriteAccess {
        ghost var w1 := BeforeCopyFacts(Now(), v, off, reason, s, fin, fcow);
        ghost var w2 := CopySound(w1, v, off, s, fin, fcow);
        if !present {
          page := ReadFault(v, off, fin);
        }
        page := CopyOnWrite(v, off, s, fin, fcow);
        writable := true;
      } else {
        writable := present && vmas[v].ptes[off].writable;
        page := ReadFault(v, off, fin);
      }
      vmas := vmas[v := vmas[v].(ptes := vmas[v].ptes[off := Pte(page, writable)])];
    }

    // -------------------------------------------------------------------------
    // Fork
    // -------------------------------------------------------------------------

    /** vm_freeze_shadows for one vma: the front shadow and all its pages go read-only. */
    method FreezeShadow(v: VmaId)
      requires Inv(Now()) && v in vmas && vmas[v].chain != []
      modifies `objs, `vmas
      ensures Now() == Freeze(old(Now()), v)
    {
      ghost var w := Now();
      ChainLive(w, v);
      var t := vmas[v].chain[0];
      if !(objs[t].kind.Shadow? && objs[t].writable) { return; }
      objs := objs[t := objs[t].(writable := false)];
      var ptes := RemapReadOnly(vmas[v].ptes, objs[t].pages);
      vmas := vmas[v := vmas[v].(ptes := ptes)];
    }

    /** Maps every page of an object read-only, one after the other. */
    method RemapReadOnly(entries: map<nat, Pte>, pages: map<nat, Frame>) returns (ptes: map<nat, Pte>)
      ensures ptes == entries + map x | x in pages :: Pte(pages[x], false)
    {
      ptes := entries;
      var left := pages.Keys;
      AllReadOnly(entries, pages);
      while left != {}
        invariant left <= pages.Keys && ptes == ReadOnly(entries, pages, left)
        decreases |left|
      {
        var x :| x in left;
        ReadOnlyNext(entries, pages, left, x);
        ptes := ptes[x := Pte(pages[x], false)];
        left := left - {x};
      }
    }

    /** vma_copy_links into the new vma u, which also gets the copied page tables. */
    method CopyLinks(v: VmaId, u: VmaId)
      requires Inv(Now()) && v in vmas && vmas[v].chain != [] && u !in vmas
      modifies `objs, `vmas
      ensures Now() == ShadowSteps.CopyLinks(old(Now()), v, u)
    {
      ghost var w := Now();
      ChainLive(w, v);
      assert VmaOk(objs, v, vmas[v]);
      var c := vmas[v].chain;
      vmas := vmas[u := vmas[v].(chain := [])];
      var i := 0;
      while i < |c|
        invariant i <= |c| && objs == Linked(w.objs, c[..i], u)
        invariant vmas == w.vmas[u := w.vmas[v].(chain := c[..i])]
      {
        LinkNext(w.objs, c, i, u);
        assert c[..i] + [c[i]] == c[..i + 1];
        objs := objs[c[i] := objs[c[i]].(links := [u] + objs[c[i]].links, nlinks := objs[c[i]].nlinks + 1)];
        vmas := vmas[u := vmas[u].(chain := vmas[u].chain + [c[i]])];
        i := i + 1;
      }
      assert c[..i] == c;
    }

    /** The memory side of fork: vm_freeze_shadows over the vmas of the parent, then
        task_copy_vmas. */
    method Fork(parent: seq<VmaId>, child: seq<VmaId>)
      requires Inv(Now()) && WritesOwned(Now(), Nothing) && CanFork(Now(), parent, child)
      modifies `objs, `vmas
      ensures Inv(Now()) && WritesOwned(Now(), Nothing) && Forked(old(Now()), Now(), parent, child, |child|)
      ensures old(PtesCurrent(Now(), Nothing)) ==> PtesCurrent(Now(), Nothing)
    {
      hide Freeze, ShadowSteps.CopyLinks;
      ghost var w := Now();
      var i := 0;
      while i < |parent|
        invariant 0 <= i <= |parent| && Inv(Now()) && WritesOwned(Now(), Nothing) && HalfFrozen(w, Now(), parent, i)
        invariant PtesCurrent(w, Nothing) ==> PtesCurrent(Now(), Nothing)
      {
        FreezeNext(w, Now(), parent, i);
        FreezeShadow(parent[i]);
        i := i + 1;
      }
      ForkStarts(w, Now(), parent, child);
      i := 0;
      while i < |child|
        invariant 0 <= i <= |child| && Inv(Now()) && WritesOwned(Now(), Nothing) && Forked(w, Now(), parent, child, i)
        invariant PtesCurrent(w, Nothing) ==> PtesCurrent(Now(), Nothing)
      {
        ForkNext(w, Now(), parent, child, i);
        CopyLinks(parent[i], child[i]);
        i := i + 1;
      }
    }
  }

  /** The same objects, equal but for those in `ex`. */
  ghost predicate Alike(a: map<ObjId, Obj>, b: map<ObjId, Obj>, ex: set<ObjId>) {
    a.Keys == b.Keys && forall o :: o in a && o !in ex ==> b[o] == a[o]
  }

  lemma SameObjs(a: map<ObjId, Obj>, b: map<ObjId, Obj>)
    requires a.Keys == b.Keys && forall o :: o in a ==> a[o] == b[o]
    ensures a == b
  {
  }

  lemma NextLink(w: World, v: VmaId, k: nat, cur: World) returns (next: World)
    requires Inv(w) && v in w.vmas && k < |w.vmas[v].chain| && cur == DropLinks(w, v, k)
    ensures next == DropNext(cur, v) && next == DropLinks(w, v, k + 1)
    ensures Inv(next) && v in next.vmas && |next.vmas[v].chain| == |w.vmas[v].chain| - k - 1
  {
    next := DropLinksInv(w, v, k + 1);
  }

  /** What DropFront relies on about the first two objects of a chain. */
  lemma FrontCounts(w: World, v: VmaId)
    requires Inv(w) && v in w.vmas && w.vmas[v].chain != []
    ensures var c := w.vmas[v].chain;
            && NoDup(c) && c[0] in w.objs && (1 < |c| ==> c[1] in w.objs && c[1] != c[0] && w.objs[c[0]].orig == Some(c[1]) && w.objs[c[1]].shadows >= 1)
  {
    var c := w.vmas[v].chain;
    ChainLive(w, v);
    assert VmaOk(w.objs, v, w.vmas[v]) && LinkOk(w.objs, v, w.vmas[v], 0);
    assert ObjOk(w.objs, w.vmas, c[0]);
    if 1 < |c| { assert ObjOk(w.objs, w.vmas, c[1]); }
  }

  /** Unlink, told field by field. */
  lemma UnlinkIs(w: World, w': World, v: VmaId)
    requires v in w.vmas && w.vmas[v].chain != [] && w.vmas[v].chain[0] in w.objs
    requires 1 < |w.vmas[v].chain| ==> w.vmas[v].chain[1] in w.objs && w.vmas[v].chain[1] != w.vmas[v].chain[0]
    requires w'.frames == w.frames && w'.vmas == w.vmas[v := w.vmas[v].(chain := w.vmas[v].chain[1..])]
    requires var c := w.vmas[v].chain;
             var was := w.objs[c[0]];
             var dropped := was.(links := Without(was.links, v), nlinks := was.nlinks - 1);
             if was.nlinks - 1 == 0 && was.kind.Shadow? && 1 < |c| then
               var next := w.objs[c[1]];
               w'.objs == w.objs[c[0] := dropped][c[1] := next.(shadows := next.shadows - 1, shadowers := Without(next.shadowers, c[0]))]
             else w'.objs == w.objs[c[0] := dropped]
    ensures w' == Unlink(w, v)
  {
    hide Without;
    SameObjs(w'.objs, Unlink(w, v).objs);
  }

  lemma SecondCounts(w: World, v: VmaId)
    requires Inv(w) && Hooked(w, v)
    ensures w.objs[w.vmas[v].chain[0]].kind.Shadow? && w.objs[w.vmas[v].chain[1]].shadows >= 1
  {
    assert ObjOk(w.objs, w.vmas, w.vmas[v].chain[0]) && ObjOk(w.objs, w.vmas, w.vmas[v].chain[1]);
  }

  lemma WithoutBehind(p: nat, l: seq<nat>, d: nat)
    requires p != d
    ensures Without([p] + l, d) == [p] + Without(l, d)
  {
    assert ([p] + l)[1..] == l;
  }

  /** Unhook, told field by field. */
  lemma UnhookIs(w: World, w': World, v: VmaId)
    requires Hooked(w, v) && v in w.vmas && 3 <= |w.vmas[v].chain|
    requires forall i :: 0 <= i < 3 ==> w.vmas[v].chain[i] in w.objs
    requires w'.frames == w.frames && w'.vmas == w.vmas[v := w.vmas[v].(chain := w.vmas[v].chain[..1] + w.vmas[v].chain[2..])]
    requires var p, d, n := w.vmas[v].chain[0], w.vmas[v].chain[1], w.vmas[v].chain[2];
             var was, next := w.objs[d], w.objs[n];
             && Alike(w.objs, w'.objs, {p, d, n})
             && w'.objs[p] == w.objs[p].(orig := Some(n))
             && w'.objs[d] == was.(links := Without(was.links, v), nlinks := was.nlinks - 1,
                                   shadowers := Without(was.shadowers, p), shadows := was.shadows - 1)
             && w'.objs[n] == if was.nlinks - 1 == 0 then next.(shadowers := [p] + Without(next.shadowers, d))
                              else next.(shadowers := [p] + next.shadowers, shadows := next.shadows + 1)
    ensures w' == Unhook(w, v)
  {
    hide Without;
    assert w.vmas[v].chain[..1] == [w.vmas[v].chain[0]];
    SameObjs(w'.objs, Unhook(w, v).objs);
  }

  /** Entries after the pages not in `left` were remapped read-only. */
  function ReadOnly(ptes: map<nat, Pte>, pages: map<nat, Frame>, left: set<nat>): map<nat, Pte> {
    map x | x in ptes.Keys + pages.Keys && (x in ptes || x !in left) ::
      if x in pages && x !in left then Pte(pages[x], false) else ptes[x]
  }

  lemma ReadOnlyNext(ptes: map<nat, Pte>, pages: map<nat, Frame>, left: set<nat>, x: nat)
    requires x in left && x in pages
    ensures ReadOnly(ptes, pages, left)[x := Pte(pages[x], false)] == ReadOnly(ptes, pages, left - {x})
  {
  }

  lemma AllReadOnly(ptes: map<nat, Pte>, pages: map<nat, Frame>)
    ensures ReadOnly(ptes, pages, pages.Keys) == ptes
    ensures ReadOnly(ptes, pages, {}) == ptes + (map x | x in pages :: Pte(pages[x], false))
  {
    var frozen := map x | x in pages :: Pte(pages[x], false);
    assert (ptes + frozen).Keys == ptes.Keys + pages.Keys;
  }

  /** The objects after those in c got a link to u. */
  function Linked(objs: map<ObjId, Obj>, c: seq<ObjId>, u: VmaId): map<ObjId, Obj> {
    map o | o in objs :: if o in c then objs[o].(links := [u] + objs[o].links, nlinks := objs[o].nlinks + 1) else objs[o]
  }

  lemma LinkNext(objs: map<ObjId, Obj>, c: seq<ObjId>, i: nat, u: VmaId)
    requires i < |c| && c[i] in objs && NoDup(c)
    ensures c[i] in Linked(objs, c[..i], u) && Linked(objs, c[..i], u)[c[i]] == objs[c[i]]
    ensures Linked(objs, c[..i + 1], u) ==
            Linked(objs, c[..i], u)[c[i] := objs[c[i]].(links := [u] + objs[c[i]].links, nlinks := objs[c[i]].nlinks + 1)]
  {
    assert c[i] !in c[..i];
    assert c[..i + 1] == c[..i] + [c[i]];
  }

  /** The search for a page that the front lacks may start behind it. */
  lemma BehindFront(w: World, v: VmaId, off: nat)
    requires Inv(w) && FrontLacks(w, v, off)
    ensures 1 < |w.vmas[v].chain| && Src(w, v, off) == Resolve(w, w.vmas[v].chain[1..], off)
  {
    assert VmaOk(w.objs, v, w.vmas[v]) && LinkOk(w.objs, v, w.vmas[v], 0);
    assert ObjOk(w.objs, w.vmas, w.vmas[v].chain[0]);
  }

  lemma FoundFrame(w: World, v: VmaId, off: nat, f: Frame)
    requires Inv(w) && v in w.vmas && Src(w, v, off) == Resident(f)
    ensures f in w.frames && View(w, v, off) == w.frames[f].data
  {
    ChainLive(w, v);
    ResolveSound(w, w.vmas[v].chain, off);
  }

  /** A writable front has an object under it, and if that is a shadow, so has it. */
  lemma FrontHasNext(w: World, v: VmaId)
    requires Inv(w) && v in w.vmas && w.vmas[v].chain != [] && w.vmas[v].chain[0] in w.objs && w.objs[w.vmas[v].chain[0]].writable
    ensures 1 < |w.vmas[v].chain| && w.vmas[v].chain[1] in w.objs
    ensures w.objs[w.vmas[v].chain[1]].kind.Shadow? ==> 2 < |w.vmas[v].chain| && w.vmas[v].chain[2] in w.objs
  {
    ChainLive(w, v);
    assert VmaOk(w.objs, v, w.vmas[v]) && LinkOk(w.objs, v, w.vmas[v], 0);
    assert ObjOk(w.objs, w.vmas, w.vmas[v].chain[0]);
    assert LinkOk(w.objs, v, w.vmas[v], 1);
  }

  /** The frames left when object o has only the pages `kept`. */
  function Freed(frames: map<Frame, PageFrame>, o: ObjId, kept: set<nat>): map<Frame, PageFrame> {
    map f | f in frames && (frames[f].owner == o ==> frames[f].offset in kept) :: frames[f]
  }

  lemma FreedNone(w: World, o: ObjId)
    requires PagesOk(w) && o in w.objs
    ensures Freed(w.frames, o, w.objs[o].pages.Keys) == w.frames
  {
    forall f | f in w.frames ensures w.frames[f].owner == o ==> w.frames[f].offset in w.objs[o].pages {
      assert FrameOk(w.objs, f, w.frames[f]);
    }
  }

  lemma FreedNext(w: World, o: ObjId, kept: set<nat>, x: nat)
    requires PagesOk(w) && o in w.objs && x in kept && x in w.objs[o].pages
    ensures Freed(w.frames, o, kept) - {w.objs[o].pages[x]} == Freed(w.frames, o, kept - {x})
  {
    assert CacheOk(w.frames, o, w.objs[o]);
    forall f | f in w.frames && w.frames[f].owner == o && w.frames[f].offset == x ensures f == w.objs[o].pages[x] {
      assert FrameOk(w.objs, f, w.frames[f]);
    }
  }

  /** An object of which only the pages `kept` are left. */
  function WithPages(obj: Obj, kept: set<nat>): Obj
  {
    obj.(pages := map x | x in obj.pages && x in kept :: obj.pages[x], npages := obj.npages - (|obj.pages| - |kept|))
  }

  lemma AllPages(obj: Obj)
    ensures WithPages(obj, obj.pages.Keys) == obj
  {
    assert |obj.pages| == |obj.pages.Keys|;
  }

  lemma OnePageLess(obj: Obj, kept: set<nat>, x: nat)
    requires x in kept && kept <= obj.pages.Keys && |obj.pages| <= obj.npages
    ensures WithPages(obj, kept).(pages := WithPages(obj, kept).pages - {x}, npages := WithPages(obj, kept).npages - 1) == WithPages(obj, kept - {x})
    ensures WithPages(obj, kept).npages >= 1 && x in WithPages(obj, kept).pages && WithPages(obj, kept).pages[x] == obj.pages[x]
  {
    assert |kept - {x}| == |kept| - 1;
    assert WithPages(obj, kept).pages - {x} == WithPages(obj, kept - {x}).pages;
  }

  /** No link, no shadow and on nobody's shadow list: what a deleted object must be. */
  ghost predicate Bare(w: World, o: ObjId) {
    && o in w.objs && w.objs[o].links == [] && w.objs[o].nlinks == 0 && w.objs[o].shadowers == [] && w.objs[o].shadows == 0
    && forall q :: q in w.objs ==> o !in w.objs[q].shadowers
  }

  /** A second object that loses its only link is bare. */
  lemma UnhookBare(w: World, v: VmaId)
    requires Inv(w) && CanUnhook(w, v) && w.objs[w.vmas[v].chain[1]].nlinks == 1
    ensures Bare(Unhook(w, v), w.vmas[v].chain[1])
  {
    var p, d, n := w.vmas[v].chain[0], w.vmas[v].chain[1], w.vmas[v].chain[2];
    UnhookFacts(w, v);
    assert VmaOk(w.objs, v, w.vmas[v]) && LinkOk(w.objs, v, w.vmas[v], 1);
    assert ObjOk(w.objs, w.vmas, d) && ObjOk(w.objs, w.vmas, p);
    SingletonList(w.objs[d].links, v);
    assert w.objs[d].links == [v];
    forall s | s in w.objs[d].shadowers ensures s == p {
      var i := SoleLinkShadower(w, s, d, v);
    }
    SingletonList(w.objs[d].shadowers, p);
    forall q | q in w.objs && d in w.objs[q].shadowers ensures q == n { assert ObjOk(w.objs, w.vmas, q); }
  }

  /** So is a front object that loses its only link. */
  lemma UnlinkBare(w: World, v: VmaId)
    requires Inv(w) && v in w.vmas && w.vmas[v].chain != [] && w.vmas[v].chain[0] in w.objs
    requires w.objs[w.vmas[v].chain[0]].nlinks == 1
    ensures Bare(Unlink(w, v), w.vmas[v].chain[0])
  {
    var c := w.vmas[v].chain;
    var d := c[0];
    ChainLive(w, v);
    assert VmaOk(w.objs, v, w.vmas[v]) && LinkOk(w.objs, v, w.vmas[v], 0);
    assert ObjOk(w.objs, w.vmas, d);
    SingletonList(w.objs[d].links, v);
    assert w.objs[d].links == [v];
    if w.objs[d].shadowers != [] {
      var i := SoleLinkShadower(w, w.objs[d].shadowers[0], d, v);
      assert false;
    }
    forall q | q in w.objs && d in w.objs[q].shadowers ensures 1 < |c| && q == c[1] { assert ObjOk(w.objs, w.vmas, q); }
  }

  // ---------------------------------------------------------------------------
  // Pages on the move, while `todo` is still to be looked at
  // ---------------------------------------------------------------------------

  /** The page cache of the front shadow. */
  function Gained(fp: map<nat, Frame>, rp: map<nat, Frame>, todo: set<nat>): map<nat, Frame> {
    map x | x in fp.Keys + rp.Keys && (x in fp || x !in todo) :: if x in fp then fp[x] else rp[x]
  }

  /** The page cache of the redundant one. */
  function Left(fp: map<nat, Frame>, rp: map<nat, Frame>, todo: set<nat>): map<nat, Frame> {
    map x | x in rp && (x in fp || x in todo) :: rp[x]
  }

  function Given(frames: map<Frame, PageFrame>, r: ObjId, s: ObjId, fp: map<nat, Frame>, todo: set<nat>): map<Frame, PageFrame> {
    map f | f in frames ::
      if frames[f].owner == r && frames[f].offset !in fp && frames[f].offset !in todo
      then frames[f].(owner := s) else frames[f]
  }

  lemma NoneGiven(w: World, r: ObjId, s: ObjId)
    requires r in w.objs && s in w.objs && PagesOk(w)
    ensures Given(w.frames, r, s, w.objs[s].pages, w.objs[r].pages.Keys) == w.frames
  {
    forall f | f in w.frames && w.frames[f].owner == r ensures w.frames[f].offset in w.objs[r].pages {
      assert FrameOk(w.objs, f, w.frames[f]);
    }
  }

  lemma GiveOne(w: World, r: ObjId, s: ObjId, todo: set<nat>, x: nat)
    requires r in w.objs && s in w.objs && PagesOk(w) && x in todo && x in w.objs[r].pages
    ensures w.objs[r].pages[x] in w.frames
    ensures var now := Given(w.frames, r, s, w.objs[s].pages, todo);
            var p := w.objs[r].pages[x];
            Given(w.frames, r, s, w.objs[s].pages, todo - {x}) ==
            if x in w.objs[s].pages then now else now[p := now[p].(owner := s)]
  {
    assert CacheOk(w.frames, r, w.objs[r]);
    forall f | f in w.frames && w.frames[f].owner == r && w.frames[f].offset == x ensures f == w.objs[r].pages[x] {
      assert FrameOk(w.objs, f, w.frames[f]);
    }
  }

  lemma NoneMoved(fp: map<nat, Frame>, rp: map<nat, Frame>)
    ensures Gained(fp, rp, rp.Keys) == fp && Left(fp, rp, rp.Keys) == rp
  {
  }

  lemma MoveOne(fp: map<nat, Frame>, rp: map<nat, Frame>, todo: set<nat>, x: nat)
    requires x in todo && todo <= rp.Keys
    ensures x in Gained(fp, rp, todo) <==> x in fp
    ensures x in Left(fp, rp, todo) && Left(fp, rp, todo)[x] == rp[x]
    ensures Gained(fp, rp, todo - {x}) == if x in fp then Gained(fp, rp, todo) else Gained(fp, rp, todo)[x := rp[x]]
    ensures Left(fp, rp, todo - {x}) == if x in fp then Left(fp, rp, todo) else map y | y in Left(fp, rp, todo) && y != x :: Left(fp, rp, todo)[y]
  {
  }

  lemma GrownSize(m: map<nat, Frame>, x: nat, f: Frame)
    requires x !in m
    ensures |m[x := f]| == |m| + 1
  {
    assert m[x := f].Keys == m.Keys + {x};
    assert |m[x := f].Keys| == |m.Keys| + 1;
  }

  /** In the end the front shadow has the pages of both. */
  lemma AllMoved(front: Obj, red: Obj)
    ensures Gained(front.pages, red.pages, {}) == Union(front.pages, red.pages)
    ensures |Gained(front.pages, red.pages, {})| == |front.pages| + |Lacking(front, red)|
  {
    UnionSize(front, red);
  }

  /** A merge that only has to delete the redundant object. */
  ghost predicate Unmerged(w: World, m: World, r: ObjId, s: ObjId, v: VmaId, n: ObjId)
    requires r in w.objs && s in w.objs && n in w.objs && v in w.vmas
  {
    && Alike(w.objs, m.objs, {r, s, n})
    && m.objs[s] == Absorb(w.objs[s], w.objs[r])
    && m.objs[n] == w.objs[n].(shadowers := [s] + Without(w.objs[n].shadowers, r))
    && m.objs[r] == w.objs[r].(pages := Left(w.objs[s].pages, w.objs[r].pages, {}), links := [], nlinks := 0, shadowers := [], shadows := 0)
    && m.vmas == w.vmas[v := w.vmas[v].(chain := Without(w.vmas[v].chain, r))]
    && m.frames == Given(w.frames, r, s, w.objs[s].pages, {})
  }

  lemma UnmergedReady(w: World, m: World, r: ObjId, s: ObjId, v: VmaId, n: ObjId, k: nat)
    requires Inv(w) && Merging(w, r, s, v, n, k) && Mergeable(w.objs[r]) && Unmerged(w, m, r, s, v, n)
    ensures PagesOk(m) && Bare(m, r) && |m.objs[r].pages| <= m.objs[r].npages
    ensures Delete(m, r) == Collapse(w, r)
  {
    UnmergedPages(w, m, r, s, v, n);
    UnmergedBare(w, m, r, s, v, n, k);
    MergeEffect(w, r, s, v, n, k);
    UnmergedObjs(w, m, Merge(w, r), r, s, v, n);
    UnmergedVmas(w, m, Merge(w, r), r, s, v, n);
    UnmergedFrames(w, m, r, s, v, n, k);
  }

  lemma UnmergedBare(w: World, m: World, r: ObjId, s: ObjId, v: VmaId, n: ObjId, k: nat)
    requires ObjsOk(w) && Merging(w, r, s, v, n, k) && w.objs[r].kind.Shadow? && Unmerged(w, m, r, s, v, n)
    ensures Bare(m, r) && |m.objs[r].pages| <= m.objs[r].npages
  {
    assert ObjOk(w.objs, w.vmas, r);
    FewerPages(w.objs[r].pages, m.objs[r].pages);
    forall q | q in m.objs ensures r !in m.objs[q].shadowers {
      assert ObjOk(w.objs, w.vmas, q);
    }
  }

  lemma UnmergedObjs(w: World, m: World, b: World, r: ObjId, s: ObjId, v: VmaId, n: ObjId)
    requires r in w.objs && s in w.objs && n in w.objs && v in w.vmas && r != s && r != n && s != n
    requires Unmerged(w, m, r, s, v, n) && Merged(w, b, r, s, v, n)
    ensures Delete(m, r).objs == b.objs
  {
    var a := Delete(m, r).objs;
    forall o ensures o in a <==> o in b.objs {}
    assert a[s] == b.objs[s] && a[n] == b.objs[n];
    forall o | o in a && o != s && o != n ensures a[o] == b.objs[o] {
      assert o !in {r, s, n};
      assert m.objs[o] == w.objs[o];
      assert b.objs[o] == w.objs[o];
    }
    SameObjs(a, b.objs);
  }

  lemma UnmergedVmas(w: World, m: World, b: World, r: ObjId, s: ObjId, v: VmaId, n: ObjId)
    requires r in w.objs && s in w.objs && n in w.objs && v in w.vmas
    requires Unmerged(w, m, r, s, v, n) && Merged(w, b, r, s, v, n)
    ensures Delete(m, r).vmas == b.vmas
  {
  }

  lemma UnmergedFrames(w: World, m: World, r: ObjId, s: ObjId, v: VmaId, n: ObjId, k: nat)
    requires Merging(w, r, s, v, n, k) && Unmerged(w, m, r, s, v, n)
    ensures Delete(m, r).frames == Merge(w, r).frames
  {
    hide Given, Rehome, Absorb, Without;
    GivenThenFreed(w.frames, r, s, w.objs[s].pages);
  }

  lemma GivenThenFreed(frames: map<Frame, PageFrame>, r: ObjId, s: ObjId, fp: map<nat, Frame>)
    requires r != s
    ensures var g := Given(frames, r, s, fp, {}); (map f | f in g && g[f].owner != r :: g[f]) == Rehome(frames, r, s, fp)
  {
  }

  lemma FewerPages(m: map<nat, Frame>, m': map<nat, Frame>)
    requires m'.Keys <= m.Keys
    ensures |m'| <= |m|
  {
    assert m.Keys == m'.Keys + (m.Keys - m'.Keys);
  }

  lemma UnmergedPages(w: World, m: World, r: ObjId, s: ObjId, v: VmaId, n: ObjId)
    requires r in w.objs && s in w.objs && n in w.objs && v in w.vmas && r != s && r != n && s != n
    requires PagesOk(w) && Unmerged(w, m, r, s, v, n)
    ensures PagesOk(m)
  {
    forall o | o in m.objs ensures CacheOk(m.frames, o, m.objs[o]) {
      assert CacheOk(w.frames, r, w.objs[r]) && CacheOk(w.frames, s, w.objs[s]) && CacheOk(w.frames, o, w.objs[o]);
      GivenCache(w.frames, r, s, w.objs[s].pages, o, w.objs[o], m.objs[o], w.objs[r]);
    }
    UnmergedOwners(w, m, r, s, v, n);
  }

  lemma UnmergedOwners(w: World, m: World, r: ObjId, s: ObjId, v: VmaId, n: ObjId)
    requires r in w.objs && s in w.objs && n in w.objs && v in w.vmas && r != s && r != n && s != n
    requires PagesOk(w) && Unmerged(w, m, r, s, v, n)
    ensures forall f {:trigger FrameOk(m.objs, f, m.frames[f])} :: f in m.frames ==> FrameOk(m.objs, f, m.frames[f])
  {
    forall f | f in m.frames ensures FrameOk(m.objs, f, m.frames[f]) { assert FrameOk(w.objs, f, w.frames[f]); }
  }

  lemma GivenCache(frames: map<Frame, PageFrame>, r: ObjId, s: ObjId, fp: map<nat, Frame>, o: ObjId, was: Obj, now: Obj, red: Obj)
    requires CacheOk(frames, o, was) && CacheOk(frames, r, red) && r != s
    requires o == s ==> was.pages == fp && now.pages == Union(fp, red.pages)
    requires o == r ==> was == red && now.pages == Left(fp, red.pages, {})
    requires o != r && o != s ==> now.pages == was.pages
    ensures CacheOk(Given(frames, r, s, fp, {}), o, now)
  {
  }

  // ---------------------------------------------------------------------------
  // Fork
  // ---------------------------------------------------------------------------

  ghost predicate CanFork(w: World, parent: seq<VmaId>, child: seq<VmaId>) {
    && |parent| == |child| && NoDup(child)
    && (forall i :: 0 <= i < |parent| ==> parent[i] in w.vmas && w.vmas[parent[i]].chain != [])
    && (forall i :: 0 <= i < |child| ==> child[i] !in w.vmas)
  }

  /** The first n vmas of the parent are frozen; chains and views are as in w. */
  ghost predicate HalfFrozen(w: World, now: World, parent: seq<VmaId>, n: nat)
    requires n <= |parent|
  {
    && now.vmas.Keys == w.vmas.Keys && SameViews(w, now, Nothing)
    && (forall v :: v in w.vmas ==> now.vmas[v].chain == w.vmas[v].chain)
    && (forall i :: 0 <= i < n ==> parent[i] in now.vmas && Frozen(now, parent[i]))
  }

  lemma FreezeNext(w: World, now: World, parent: seq<VmaId>, i: nat)
    requires Inv(now) && WritesOwned(now, Nothing) && i < |parent| && HalfFrozen(w, now, parent, i) && parent[i] in w.vmas
    ensures var next := Freeze(now, parent[i]); Inv(next) && WritesOwned(next, Nothing) && HalfFrozen(w, next, parent, i + 1)
    ensures PtesCurrent(now, Nothing) ==> PtesCurrent(Freeze(now, parent[i]), Nothing)
  {
    var next := Freeze(now, parent[i]);
    FreezeInv(now, parent[i]);
    FreezeWrites(now, parent[i]);
    FreezeViews(now, parent[i]);
    if PtesCurrent(now, Nothing) { FreezePtes(now, parent[i]); }
    FreezeSpreads(now, parent[i]);
    ViewsTrans(w, now, next);
  }

  /** Freezing one vma thaws no other. */
  lemma FreezeSpreads(w: World, v: VmaId)
    requires v in w.vmas
    ensures var w' := Freeze(w, v);
            && w'.vmas.Keys == w.vmas.Keys && (forall u :: u in w.vmas ==> w'.vmas[u].chain == w.vmas[u].chain)
            && (forall u :: u in w.vmas && Frozen(w, u) ==> Frozen(w', u))
  {
  }

  /** The first n vmas have a copy that shows the same; all old views are as in w. */
  ghost predicate Forked(w: World, now: World, parent: seq<VmaId>, child: seq<VmaId>, n: nat)
    requires CanFork(w, parent, child) && n <= |child|
  {
    && now.vmas.Keys == w.vmas.Keys + (set i | 0 <= i < n :: child[i]) && SameViews(w, now, Nothing)
    && (forall i :: 0 <= i < |parent| ==> now.vmas[parent[i]].chain == w.vmas[parent[i]].chain && Frozen(now, parent[i]))
    && (forall i :: 0 <= i < n ==> child[i] in now.vmas && Frozen(now, child[i]))
    && (forall i, x {:trigger View(now, child[i], x)} :: 0 <= i < n ==> View(now, child[i], x) == View(w, parent[i], x))
  }

  lemma ForkStarts(w: World, now: World, parent: seq<VmaId>, child: seq<VmaId>)
    requires CanFork(w, parent, child) && HalfFrozen(w, now, parent, |parent|)
    ensures Forked(w, now, parent, child, 0)
  {
  }

  lemma ForkNext(w: World, now: World, parent: seq<VmaId>, child: seq<VmaId>, i: nat)
    requires CanFork(w, parent, child) && i < |child| && Inv(now) && WritesOwned(now, Nothing) && Forked(w, now, parent, child, i)
    ensures var next := CopyLinks(now, parent[i], child[i]);
            child[i] !in now.vmas && Inv(next) && WritesOwned(next, Nothing) && Forked(w, next, parent, child, i + 1)
    ensures PtesCurrent(now, Nothing) ==> PtesCurrent(CopyLinks(now, parent[i], child[i]), Nothing)
  {
    var v, u := parent[i], child[i];
    var next := CopyLinks(now, v, u);
    assert u !in now.vmas;
    CopyLinksInv(now, v, u);
    CopyLinksViews(now, v, u);
    CopySpreads(now, v, u);
    forall y, x | y in w.vmas ensures View(next, y, x) == View(w, y, x) {
      assert View(next, y, x) == View(now, y, x) && View(now, y, x) == View(w, y, x);
    }
    forall j, x | 0 <= j <= i ensures View(next, child[j], x) == View(w, parent[j], x) {
      if j < i {
        assert View(next, child[j], x) == View(now, child[j], x);
      } else {
        assert View(next, u, x) == View(now, v, x) && View(now, v, x) == View(w, v, x);
      }
    }
  }

  lemma CopySpreads(w: World, v: VmaId, u: VmaId)
    requires v in w.vmas && u !in w.vmas && Frozen(w, v)
    ensures var w' := CopyLinks(w, v, u);
            && w'.vmas.Keys == w.vmas.Keys + {u} && Frozen(w', u)
            && (forall y :: y in w.vmas ==> w'.vmas[y] == w.vmas[y] && (Frozen(w, y) ==> Frozen(w', y)))
  {
  }
}
