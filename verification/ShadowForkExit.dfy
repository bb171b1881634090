/**
 The invariant through exit (dropping all links of a vma, with deletes and merges on
 the way), through fork (freezing and link copying) and through whole faults.
 */
module ShadowForkExit {
  import opened Basics
  import opened ShadowWorld
  import opened ShadowSteps
  import opened ShadowInvariant

  // ---------------------------------------------------------------------------
  // Exit
  // ---------------------------------------------------------------------------

  lemma UnlinkOwnVma(w: World, v: VmaId)
    requires v in w.vmas && w.vmas[v].chain != [] && VmaOk(w.objs, v, w.vmas[v]) && w.vmas[v].chain[0] in w.objs
    ensures VmaOk(Unlink(w, v).objs, v, Unlink(w, v).vmas[v])
  {
    var w' := Unlink(w, v);
    var a, a' := w.vmas[v], w'.vmas[v];
    forall i | 0 <= i < |a'.chain| ensures LinkOk(w'.objs, v, a', i) {
      assert LinkOk(w.objs, v, a, i + 1);
      assert a'.chain[i] == a.chain[i + 1] && a.chain[i + 1] != a.chain[0];
    }
  }

  lemma UnlinkVmas(w: World, v: VmaId)
    requires VmasOk(w) && v in w.vmas && w.vmas[v].chain != [] && w.vmas[v].chain[0] in w.objs
    ensures VmasOk(Unlink(w, v))
  {
    var w' := Unlink(w, v);
    forall u | u in w'.vmas ensures VmaOk(w'.objs, u, w'.vmas[u]) {
      assert VmaOk(w.objs, u, w.vmas[u]);
      if u != v {
        VmaKept(w.objs, w'.objs, u, w.vmas[u]);
      } else {
        UnlinkOwnVma(w, v);
      }
    }
  }

  lemma UnlinkPages(w: World, v: VmaId)
    requires PagesOk(w) && v in w.vmas && w.vmas[v].chain != [] && w.vmas[v].chain[0] in w.objs
    ensures PagesOk(Unlink(w, v))
  {
    PagesKept(w, Unlink(w, v));
  }

  /** What the invariant says about the front object of a chain. */
  ghost predicate Front(w: World, v: VmaId) {
    && v in w.vmas && w.vmas[v].chain != [] && NoDup(w.vmas[v].chain)
    && var c := w.vmas[v].chain;
       && c[0] in w.objs && v in w.objs[c[0]].links
       && (w.objs[c[0]].kind.Shadow? <==> 1 < |c|)
       && (1 < |c| ==> c[1] in w.objs && w.objs[c[0]].orig == Some(c[1]) && c[0] in w.objs[c[1]].shadowers)
  }

  lemma FrontFacts(w: World, v: VmaId)
    requires Inv(w) && v in w.vmas && w.vmas[v].chain != []
    ensures Front(w, v)
  {
    var c := w.vmas[v].chain;
    assert VmaOk(w.objs, v, w.vmas[v]) && LinkOk(w.objs, v, w.vmas[v], 0);
    assert ObjOk(w.objs, w.vmas, c[0]);
    if 1 < |c| { assert LinkOk(w.objs, v, w.vmas[v], 1); }
  }

  lemma UnlinkLinks(w: World, v: VmaId, o: ObjId)
    requires Front(w, v) && o in w.objs && LinksOk(w.vmas, o, w.objs[o])
    ensures LinksOk(Unlink(w, v).vmas, o, Unlink(w, v).objs[o])
  {
    var c := w.vmas[v].chain;
    assert c == [c[0]] + c[1..];
  }

  lemma UnlinkShadowers(w: World, v: VmaId, o: ObjId)
    requires Front(w, v) && o in w.objs && ShadowersOk(w.objs, o, w.objs[o])
    requires w.objs[w.vmas[v].chain[0]].nlinks == 1 && w.objs[w.vmas[v].chain[0]].kind.Shadow? ==> o != w.vmas[v].chain[0]
    ensures ShadowersOk(Unlink(w, v).objs, o, Unlink(w, v).objs[o])
  {
  }

  lemma UnlinkObj(w: World, v: VmaId, o: ObjId)
    requires Front(w, v) && o in w.objs && ObjOk(w.objs, w.vmas, o)
    requires w.objs[w.vmas[v].chain[0]].nlinks == 1 && w.objs[w.vmas[v].chain[0]].kind.Shadow? ==> o != w.vmas[v].chain[0]
    requires w.objs[w.vmas[v].chain[0]].writable ==> w.objs[w.vmas[v].chain[0]].nlinks == 1
    ensures ObjOk(Unlink(w, v).objs, Unlink(w, v).vmas, o)
  {
    UnlinkLinks(w, v, o);
    UnlinkShadowers(w, v, o);
  }

  /** The front object keeps a link, or is a file that stays without one. */
  lemma UnlinkInv(w: World, v: VmaId)
    requires Inv(w) && v in w.vmas && w.vmas[v].chain != [] && w.vmas[v].chain[0] in w.objs
    requires w.objs[w.vmas[v].chain[0]].nlinks == 1 ==> !w.objs[w.vmas[v].chain[0]].kind.Shadow?
    ensures Inv(Unlink(w, v))
  {
    FrontFacts(w, v);
    UnlinkVmas(w, v);
    UnlinkPages(w, v);
    assert ObjOk(w.objs, w.vmas, w.vmas[v].chain[0]);
    forall o | o in w.objs ensures ObjOk(Unlink(w, v).objs, Unlink(w, v).vmas, o) {
      assert ObjOk(w.objs, w.vmas, o);
      UnlinkObj(w, v, o);
    }
    assert Unlink(w, v).objs.Keys == w.objs.Keys;
  }

  /** The front object loses its last link and goes: nothing shadows it. */
  lemma UnlinkDeleteObj(w: World, v: VmaId, o: ObjId)
    requires Inv(w) && v in w.vmas && w.vmas[v].chain != [] && w.vmas[v].chain[0] in w.objs
    requires w.objs[w.vmas[v].chain[0]].nlinks == 1 && o in w.objs && o != w.vmas[v].chain[0]
    ensures var w' := Delete(Unlink(w, v), w.vmas[v].chain[0]); ObjOk(w'.objs, w'.vmas, o)
  {
    var d := w.vmas[v].chain[0];
    var w1 := Unlink(w, v);
    FrontFacts(w, v);
    assert ObjOk(w.objs, w.vmas, o) && ObjOk(w.objs, w.vmas, d);
    UnlinkObj(w, v, o);
    SingletonList(w.objs[d].links, v);
    if w.objs[o].orig == Some(d) {
      var i := SoleLinkShadower(w, o, d, v);
      assert false;
    }
    assert d in w.objs[o].shadowers ==> w.objs[d].orig == Some(o);
    DeleteObj(w1, d, o);
  }

  lemma UnlinkDeleteInv(w: World, v: VmaId)
    requires Inv(w) && v in w.vmas && w.vmas[v].chain != [] && w.vmas[v].chain[0] in w.objs
    requires w.objs[w.vmas[v].chain[0]].nlinks == 1
    ensures Inv(Delete(Unlink(w, v), w.vmas[v].chain[0]))
  {
    var d := w.vmas[v].chain[0];
    var w1 := Unlink(w, v);
    FrontFacts(w, v);
    UnlinkVmas(w, v);
    UnlinkPages(w, v);
    assert ObjOk(w.objs, w.vmas, d);
    SingletonList(w.objs[d].links, v);
    forall u | u in w1.vmas ensures d !in w1.vmas[u].chain {
      if d in w1.vmas[u].chain { ChainHasLink(w1, d, u); }
    }
    DeleteVmas(w1, d);
    DeletePages(w1, d);
    forall o | o in w.objs && o != d ensures ObjOk(Delete(w1, d).objs, Delete(w1, d).vmas, o) {
      UnlinkDeleteObj(w, v, o);
    }
  }

  /** One step of exit keeps the invariant and shortens the exiting chain by one. */
  lemma DropFirstInv(w: World, v: VmaId)
    requires Inv(w) && v in w.vmas && w.vmas[v].chain != [] && w.vmas[v].chain[0] in w.objs
    ensures Inv(DropFirst(w, v))
    ensures v in DropFirst(w, v).vmas && DropFirst(w, v).vmas[v] == w.vmas[v].(chain := w.vmas[v].chain[1..])
    ensures DropFirst(w, v).vmas.Keys == w.vmas.Keys
  {
    var d := w.vmas[v].chain[0];
    var w1 := Unlink(w, v);
    FrontFacts(w, v);
    assert ObjOk(w.objs, w.vmas, d);
    if Deletable(w1.objs[d]) {
      UnlinkDeleteInv(w, v);
    } else {
      UnlinkInv(w, v);
      if Mergeable(w1.objs[d]) {
        MergeInv(w1, d);
        var s, u, n, k := MergeFacts(w1, d);
        MergeEffect(w1, d, s, u, n, k);
      }
    }
  }

  lemma DropNextInv(w: World, v: VmaId)
    requires Inv(w) && v in w.vmas && w.vmas[v].chain != []
    ensures var w' := DropNext(w, v);
            && Inv(w') && w'.vmas.Keys == w.vmas.Keys && w'.vmas[v] == w.vmas[v].(chain := w.vmas[v].chain[1..])
  {
    FrontFacts(w, v);
    DropFirstInv(w, v);
  }

  lemma {:induction false} DropLinksInv(w: World, v: VmaId, n: nat) returns (w': World)
    requires Inv(w) && v in w.vmas && n <= |w.vmas[v].chain|
    ensures w' == DropLinks(w, v, n)
    ensures Inv(w') && w'.vmas.Keys == w.vmas.Keys && w'.vmas[v].chain == w.vmas[v].chain[n..]
    decreases n
  {
    if n == 0 {
      w' := w;
    } else {
      var w1 := DropLinksInv(w, v, n - 1);
      DropNextInv(w1, v);
      w' := DropNext(w1, v);
    }
  }

  lemma ExitInv(w: World, v: VmaId)
    requires Inv(w) && v in w.vmas
    ensures Inv(Exit(w, v)) && Exit(w, v).vmas.Keys == w.vmas.Keys - {v}
  {
    var n := |w.vmas[v].chain|;
    var w1 := DropLinksInv(w, v, n);
    var w' := Exit(w, v);
    assert w1.vmas[v].chain == [];
    forall u | u in w'.vmas ensures VmaOk(w'.objs, u, w'.vmas[u]) {
      assert VmaOk(w1.objs, u, w1.vmas[u]);
    }
    forall o | o in w'.objs ensures ObjOk(w'.objs, w'.vmas, o) {
      assert ObjOk(w1.objs, w1.vmas, o);
    }
    PagesKept(w1, w');
  }

  // ---------------------------------------------------------------------------
  // Fork
  // ---------------------------------------------------------------------------

  /** The vma has a writable front shadow, which a freeze will turn read-only. */
  predicate Thaws(w: World, v: VmaId)
    requires v in w.vmas
  {
    var c := w.vmas[v].chain;
    c != [] && c[0] in w.objs && w.objs[c[0]].writable && w.objs[c[0]].kind.Shadow?
  }

  lemma FreezeVmas(w: World, v: VmaId)
    requires Inv(w) && v in w.vmas && Thaws(w, v)
    ensures VmasOk(Freeze(w, v))
  {
    var w' := Freeze(w, v);
    var a, a' := w.vmas[v], w'.vmas[v];
    WritableIsExclusive(w, a.chain[0], v);
    forall u | u in w'.vmas ensures VmaOk(w'.objs, u, w'.vmas[u]) {
      assert VmaOk(w.objs, u, w.vmas[u]);
      if u != v {
        VmaKept(w.objs, w'.objs, u, w.vmas[u]);
      } else {
        forall i | 0 <= i < |a'.chain| ensures LinkOk(w'.objs, v, a', i) {
          assert LinkOk(w.objs, v, a, i);
        }
      }
    }
  }

  lemma FreezeObjs(w: World, v: VmaId)
    requires ObjsOk(w) && v in w.vmas && Thaws(w, v)
    ensures ObjsOk(Freeze(w, v))
  {
    var w' := Freeze(w, v);
    forall o | o in w'.objs ensures ObjOk(w'.objs, w'.vmas, o) {
      assert ObjOk(w.objs, w.vmas, o);
    }
  }

  lemma FreezeInv(w: World, v: VmaId)
    requires Inv(w) && v in w.vmas
    ensures Inv(Freeze(w, v)) && Frozen(Freeze(w, v), v)
  {
    var a := w.vmas[v];
    assert VmaOk(w.objs, v, a);
    forall i | 0 <= i < |a.chain| ensures a.chain[i] in w.objs && (0 < i ==> !w.objs[a.chain[i]].writable) {
      assert LinkOk(w.objs, v, a, i);
    }
    if Thaws(w, v) {
      FreezeVmas(w, v);
      FreezeObjs(w, v);
      PagesKept(w, Freeze(w, v));
    } else if a.chain != [] {
      assert ObjOk(w.objs, w.vmas, a.chain[0]);
    }
  }

  lemma CopyLinksVmas(w: World, v: VmaId, u: VmaId)
    requires VmasOk(w) && v in w.vmas && u !in w.vmas
    ensures VmasOk(CopyLinks(w, v, u))
  {
    var w' := CopyLinks(w, v, u);
    forall x | x in w'.vmas ensures VmaOk(w'.objs, x, w'.vmas[x]) {
      if x != u {
        assert VmaOk(w.objs, x, w.vmas[x]);
        VmaKept(w.objs, w'.objs, x, w.vmas[x]);
      } else {
        assert VmaOk(w.objs, v, w.vmas[v]);
        forall i | 0 <= i < |w.vmas[v].chain| ensures LinkOk(w'.objs, u, w'.vmas[u], i) {
          assert LinkOk(w.objs, v, w.vmas[v], i);
        }
      }
    }
  }

  lemma CopyLinksObjs(w: World, v: VmaId, u: VmaId)
    requires ObjsOk(w) && v in w.vmas && u !in w.vmas && Frozen(w, v)
    ensures ObjsOk(CopyLinks(w, v, u))
  {
    var w' := CopyLinks(w, v, u);
    forall o | o in w'.objs ensures ObjOk(w'.objs, w'.vmas, o) {
      assert ObjOk(w.objs, w.vmas, o);
      assert u !in w.objs[o].links;
    }
  }

  /** Copying the links of a frozen vma: no writable object gains a second link. */
  lemma CopyLinksInv(w: World, v: VmaId, u: VmaId)
    requires Inv(w) && v in w.vmas && u !in w.vmas && Frozen(w, v)
    ensures Inv(CopyLinks(w, v, u))
  {
    CopyLinksVmas(w, v, u);
    CopyLinksObjs(w, v, u);
    PagesKept(w, CopyLinks(w, v, u));
  }

  lemma StoreInv(w: World, v: VmaId, off: nat, i: nat, b: Byte)
    requires Inv(w) && v in w.vmas && off in w.vmas[v].ptes && w.vmas[v].ptes[off].frame in w.frames
    ensures Inv(Store(w, v, off, i, b))
  {
    var w' := Store(w, v, off, i, b);
    forall o | o in w'.objs ensures CacheOk(w'.frames, o, w'.objs[o]) {
      assert CacheOk(w.frames, o, w.objs[o]);
    }
    forall f | f in w'.frames ensures FrameOk(w'.objs, f, w'.frames[f]) {
      assert FrameOk(w.objs, f, w.frames[f]);
    }
    forall u | u in w'.vmas ensures VmaOk(w'.objs, u, w'.vmas[u]) { assert VmaOk(w.objs, u, w.vmas[u]); }
    forall o | o in w'.objs ensures ObjOk(w'.objs, w'.vmas, o) { assert ObjOk(w.objs, w.vmas, o); }
  }

  // ---------------------------------------------------------------------------
  // Whole write faults
  // ---------------------------------------------------------------------------

  lemma DropSecondInv(w: World, v: VmaId)
    requires Inv(w) && CanUnhook(w, v)
    ensures Inv(DropSecond(w, v))
  {
    var d := w.vmas[v].chain[1];
    if w.objs[d].nlinks == 1 {
      UnhookDeleteInv(w, v);
    } else {
      UnhookInv(w, v);
      if Mergeable(Unhook(w, v).objs[d]) { MergeInv(Unhook(w, v), d); }
    }
  }
}
