/**
 munmap in the middle of a private vma splits it (vma_split): the new vma gets a link to every
 object of the chain, the front included. Where the front is a writable shadow, two vmas then
 write into one object, which nothing else in the pager expects.

 Both halves keep the file range of their objects, which hold pages of either; what a half
 maps is in its page table entries.
 */
module ShadowSplit {
  import opened Basics
  import opened ShadowWorld
  import opened ShadowSteps
  import opened ShadowInvariant
  import opened ShadowForkExit

  /** vma v keeps what is below page `from`, the new vma u gets what is from page `upto` on. */
  function Split(w: World, v: VmaId, u: VmaId, from: nat, upto: nat): World
    requires v in w.vmas
  {
    var a := w.vmas[v];
    var w1 := CopyLinks(w, v, u);
    w1.(vmas := w1.vmas[v := a.(ptes := map x | x in a.ptes && x < from :: a.ptes[x])]
                       [u := a.(ptes := map x | x in a.ptes && x >= upto :: a.ptes[x])])
  }

  lemma SplitChains(w: World, v: VmaId, u: VmaId, from: nat, upto: nat)
    requires v in w.vmas && u !in w.vmas
    ensures var w', k := Split(w, v, u, from, upto), CopyLinks(w, v, u);
            && w'.objs == k.objs && w'.frames == k.frames && w'.vmas.Keys == k.vmas.Keys
            && forall x :: x in k.vmas ==> w'.vmas[x] == k.vmas[x].(ptes := w'.vmas[x].ptes)
  {
  }

  /** The structure does not depend on page table entries. */
  lemma EntriesApart(w: World, w': World)
    requires Inv(w) && w'.objs == w.objs && w'.frames == w.frames && w'.vmas.Keys == w.vmas.Keys
    requires forall x :: x in w.vmas ==> w'.vmas[x] == w.vmas[x].(ptes := w'.vmas[x].ptes)
    ensures Inv(w')
  {
    forall x | x in w'.vmas ensures VmaOk(w'.objs, x, w'.vmas[x]) {
      assert VmaOk(w.objs, x, w.vmas[x]);
      forall i | 0 <= i < |w'.vmas[x].chain| ensures LinkOk(w'.objs, x, w'.vmas[x], i) { assert LinkOk(w.objs, x, w.vmas[x], i); }
    }
    forall o | o in w'.objs ensures ObjOk(w'.objs, w'.vmas, o) { assert ObjOk(w.objs, w.vmas, o); }
    PagesKept(w, w');
  }

  /** A split keeps the invariant of the chains exactly if the front is not writable. */
  lemma SplitInvIff(w: World, v: VmaId, u: VmaId, from: nat, upto: nat)
    requires Inv(w) && v in w.vmas && u !in w.vmas && w.vmas[v].chain != []
    ensures w.vmas[v].chain[0] in w.objs
    ensures Inv(Split(w, v, u, from, upto)) <==> !w.objs[w.vmas[v].chain[0]].writable
  {
    hide PagesOk, FrameOk, CacheOk;
    var w', a := Split(w, v, u, from, upto), w.vmas[v];
    assert VmaOk(w.objs, v, a);
    forall i | 0 <= i < |a.chain| ensures a.chain[i] in w.objs && (0 < i ==> !w.objs[a.chain[i]].writable) {
      assert LinkOk(w.objs, v, a, i);
    }
    SplitChains(w, v, u, from, upto);
    var p := a.chain[0];
    if w.objs[p].writable {
      assert ObjOk(w.objs, w.vmas, p);
      assert w'.objs[p].nlinks == 2;
      assert !ObjOk(w'.objs, w'.vmas, p);
    } else {
      assert Frozen(w, v);
      CopyLinksInv(w, v, u);
      EntriesApart(CopyLinks(w, v, u), w');
    }
  }

  /** Whatever the front is, both halves show what the vma showed, and nobody else notices. */
  lemma SplitViews(w: World, v: VmaId, u: VmaId, from: nat, upto: nat, x: VmaId, off: nat)
    requires v in w.vmas && u !in w.vmas && x in Split(w, v, u, from, upto).vmas
    ensures var w' := Split(w, v, u, from, upto);
            View(w', x, off) == if x == u then View(w, v, off) else View(w, x, off)
  {
    var w' := Split(w, v, u, from, upto);
    LookupsApart(w, w', w'.vmas[x].chain, off);
  }

  lemma {:induction false} LookupsApart(w: World, w': World, c: seq<ObjId>, off: nat)
    requires w'.objs.Keys == w.objs.Keys && w'.frames == w.frames
    requires forall o :: o in w.objs ==> w'.objs[o].kind == w.objs[o].kind && w'.objs[o].pages == w.objs[o].pages
    ensures Resolve(w', c, off) == Resolve(w, c, off) && Bytes(w', Resolve(w', c, off), off) == Bytes(w, Resolve(w, c, off), off)
  {
    if c != [] { LookupsApart(w, w', c[1..], off); }
  }

  // ---------------------------------------------------------------------------
  // A shared writable front is torn from its original
  // ---------------------------------------------------------------------------

  /** The check of vma_drop_merge_delete on a first link that is the last of its object: it fails
      if the object does not shadow the one behind it. */
  predicate ExitFails(w: World, v: VmaId) {
    && v in w.vmas && 1 < |w.vmas[v].chain| && w.vmas[v].chain[0] in w.objs
    && var obj := w.objs[w.vmas[v].chain[0]];
       obj.kind.Shadow? && obj.nlinks == 1 && obj.orig != Some(w.vmas[v].chain[1])
  }

  /** In a sound world it never does. */
  lemma SoundExits(w: World, v: VmaId)
    requires Inv(w)
    ensures !ExitFails(w, v)
  {
    if v in w.vmas && 1 < |w.vmas[v].chain| {
      assert VmaOk(w.objs, v, w.vmas[v]);
      assert LinkOk(w.objs, v, w.vmas[v], 0);
    }
  }

  /** v and u map the objects p, d, n and what is behind n; p is their writable front. */
  ghost predicate Shared(w: World, v: VmaId, u: VmaId, p: ObjId, d: ObjId, n: ObjId) {
    && v in w.vmas && u in w.vmas && v != u && w.vmas[u].chain == w.vmas[v].chain
    && var c := w.vmas[u].chain;
       && 3 <= |c| && c[0] == p && c[1] == d && c[2] == n && NoDup(c)
       && (forall o :: o in c ==> o in w.objs && w.objs[o].nlinks >= 2 && w.objs[o].orig != Some(p))
       && (forall o :: o in c && o != d ==> p !in w.objs[o].shadowers)
       && w.objs[p].kind.Shadow? && w.objs[p].writable && w.objs[p].nlinks == 2 && w.objs[p].shadows == 0
       && w.objs[d].kind.Shadow? && (w.objs[d].nlinks == 2 ==> w.objs[d].shadows == 1) && w.objs[n].shadows >= 1
  }

  /** A split of a vma with a writable front over a shadow makes one. */
  lemma SplitShares(w: World, v: VmaId, u: VmaId, from: nat, upto: nat)
    requires Inv(w) && v in w.vmas && u !in w.vmas && 3 <= |w.vmas[v].chain|
    requires w.vmas[v].chain[0] in w.objs && w.objs[w.vmas[v].chain[0]].writable
    ensures var c := w.vmas[v].chain; Shared(Split(w, v, u, from, upto), v, u, c[0], c[1], c[2])
  {
    hide PagesOk, FrameOk, CacheOk;
    var c := w.vmas[v].chain;
    var p, d, n := c[0], c[1], c[2];
    assert VmaOk(w.objs, v, w.vmas[v]);
    assert LinkOk(w.objs, v, w.vmas[v], 0) && LinkOk(w.objs, v, w.vmas[v], 1) && LinkOk(w.objs, v, w.vmas[v], 2);
    forall i | 0 <= i < |c| ensures c[i] in w.objs && v in w.objs[c[i]].links { assert LinkOk(w.objs, v, w.vmas[v], i); }
    forall o | o in c ensures o in w.objs && w.objs[o].nlinks >= 1 && w.objs[o].orig != Some(p) && (o != d ==> p !in w.objs[o].shadowers) {
      assert ObjOk(w.objs, w.vmas, o);
      if w.objs[o].orig.Some? { ShadowedIsReadOnly(w, o, w.objs[o].orig.value); }
    }
    assert ObjOk(w.objs, w.vmas, p) && ObjOk(w.objs, w.vmas, d) && ObjOk(w.objs, w.vmas, n);
    NobodyShadowsFront(w, v);
    if w.objs[d].nlinks == 1 { OneShadowPerLink(w, v); }
    assert d in w.objs[n].shadowers;
  }

  /** Whatever an object shadows stands behind it in some chain, so it is not writable. */
  lemma ShadowedIsReadOnly(w: World, o: ObjId, q: ObjId)
    requires Inv(w) && o in w.objs && w.objs[o].orig == Some(q)
    ensures q in w.objs && !w.objs[q].writable
  {
    assert ObjOk(w.objs, w.vmas, o);
    var x := w.objs[o].links[0];
    var i := ShadowInFront(w, o, x);
    assert VmaOk(w.objs, x, w.vmas[x]);
    assert LinkOk(w.objs, x, w.vmas[x], i + 1);
  }

  lemma NobodyShadowsFront(w: World, v: VmaId)
    requires Inv(w) && v in w.vmas && w.vmas[v].chain != [] && w.vmas[v].chain[0] in w.objs && w.objs[w.vmas[v].chain[0]].writable
    ensures w.objs[w.vmas[v].chain[0]].shadows == 0
  {
    var p := w.vmas[v].chain[0];
    assert ObjOk(w.objs, w.vmas, p);
    if w.objs[p].shadowers != [] {
      assert w.objs[p].shadowers[0] in w.objs[p].shadowers;
      ShadowedIsReadOnly(w, w.objs[p].shadowers[0], p);
    }
  }

  /** Two shadows of an object stand in front of it in two chains, so an object with one link
      has one shadow at most. */
  lemma OneShadowPerLink(w: World, v: VmaId)
    requires Inv(w) && v in w.vmas && 2 <= |w.vmas[v].chain|
    requires w.vmas[v].chain[0] in w.objs && w.vmas[v].chain[1] in w.objs && w.objs[w.vmas[v].chain[1]].nlinks == 1
    requires w.objs[w.vmas[v].chain[0]].orig == Some(w.vmas[v].chain[1]) && v in w.objs[w.vmas[v].chain[1]].links
    ensures w.objs[w.vmas[v].chain[1]].shadows == 1
  {
    var c := w.vmas[v].chain;
    var p, d := c[0], c[1];
    assert ObjOk(w.objs, w.vmas, d) && ObjOk(w.objs, w.vmas, p) && VmaOk(w.objs, v, w.vmas[v]);
    forall s | s in w.objs[d].shadowers ensures s == p {
      LinksFlowBack(w, s, d);
      assert ObjOk(w.objs, w.vmas, s);
      var x := w.objs[s].links[0];
      assert x in w.objs[d].links && x == v;
      var i := ShadowInFront(w, s, v);
      assert c[i + 1] == d;
    }
    SingletonList(w.objs[d].shadowers, p);
  }

  // ---------------------------------------------------------------------------
  // The fault in one half
  // ---------------------------------------------------------------------------

  /** Reading a page in changes the pages of a file and nothing of the structure. */
  lemma FetchShares(w: World, v: VmaId, u: VmaId, p: ObjId, d: ObjId, n: ObjId, off: nat, f: Frame)
    requires Shared(w, v, u, p, d, n)
    ensures var w' := Fetch(w, u, off, f);
            && Shared(w', v, u, p, d, n) && w'.objs[p] == w.objs[p] && w'.objs[d] == w.objs[d] && w'.vmas == w.vmas
  {
  }

  lemma AddPageShares(w: World, v: VmaId, u: VmaId, p: ObjId, d: ObjId, n: ObjId, off: nat, f: Frame, data: Page)
    requires Shared(w, v, u, p, d, n)
    ensures var w' := AddPage(w, u, off, f, data);
            && Shared(w', v, u, p, d, n) && w'.objs[p].npages == w.objs[p].npages + 1 && w'.objs[d] == w.objs[d] && w'.vmas == w.vmas
  {
  }

  /** p shadows n now, u maps p and what is behind d, and v still maps d behind p. `left` is what u
      has yet to give up. */
  ghost predicate Torn(w: World, v: VmaId, u: VmaId, p: ObjId, d: ObjId, n: ObjId, left: seq<ObjId>) {
    && v in w.vmas && u in w.vmas && v != u && w.vmas[u].chain == left && NoDup(left)
    && 2 <= |w.vmas[v].chain| && w.vmas[v].chain[0] == p && w.vmas[v].chain[1] == d && d !in left && p != d && d != n && p != n
    && p in w.objs && w.objs[p].kind.Shadow? && w.objs[p].orig == Some(n) && w.objs[p].shadows == 0
    && w.objs[p].nlinks == (if p in left then 2 else 1)
    && (forall o :: o in left ==> o in w.objs && w.objs[o].nlinks >= 2 && w.objs[o].orig != Some(p))
    && (forall o :: o in left && o != n ==> p !in w.objs[o].shadowers)
    && (n in left ==> w.objs[n].shadows >= 2)
  }

  lemma DropTears(w: World, v: VmaId, u: VmaId, p: ObjId, d: ObjId, n: ObjId)
    requires Shared(w, v, u, p, d, n)
    ensures var c := w.vmas[u].chain; Torn(DropSecond(w, u), v, u, p, d, n, [p] + c[2..])
  {
    var c, w' := w.vmas[u].chain, Unhook(w, u);
    assert c[0] in c && c[1] in c && c[2] in c;
    forall o | o in [p] + c[2..] ensures o in c && o != d {}
    assert w'.objs[d].nlinks == w.objs[d].nlinks - 1 && w'.objs[d].shadows == w.objs[d].shadows - 1;
    assert DropSecond(w, u) == w';
  }

  /** A write fault of u that fires the count test tears the front they share from v's chain. */
  lemma FaultTears(w: World, v: VmaId, u: VmaId, p: ObjId, d: ObjId, n: ObjId, off: nat, s: ObjId, fin: Frame, fcow: Frame)
    requires Shared(w, v, u, p, d, n) && off !in w.objs[p].pages && w.objs[p].npages + 1 == w.objs[d].npages
    ensures var c := w.vmas[u].chain; Torn(Fault(w, u, off, WriteAccess, s, fin, fcow), v, u, p, d, n, [p] + c[2..])
  {
    hide Shared, Torn, Fetch, AddPage, DropSecond;
    SharedFront(w, v, u, p, d, n);
    var c := w.vmas[u].chain;
    var w1 := if off in w.vmas[u].ptes then w else Fetch(w, u, off, fin);
    FetchShares(w, v, u, p, d, n, off, fin);
    SharedFront(w1, v, u, p, d, n);
    var w2 := Fetch(w1, u, off, fin);
    FetchShares(w1, v, u, p, d, n, off, fin);
    SharedFront(w2, v, u, p, d, n);
    var w3 := AddPage(w2, u, off, fcow, View(w2, u, off));
    AddPageShares(w2, v, u, p, d, n, off, fcow, View(w2, u, off));
    SharedFront(w3, v, u, p, d, n);
    assert WithFrontPage(w1, u, off, s, fin, fcow) == w3;
    DropTears(w3, v, u, p, d, n);
    TornEntry(DropSecond(w3, u), v, u, p, d, n, [p] + c[2..], off);
  }

  lemma SharedFront(w: World, v: VmaId, u: VmaId, p: ObjId, d: ObjId, n: ObjId)
    requires Shared(w, v, u, p, d, n)
    ensures v in w.vmas && u in w.vmas && 3 <= |w.vmas[u].chain|
    ensures var c := w.vmas[u].chain; c[0] == p && c[1] == d && c[2] == n && p in w.objs && d in w.objs && n in w.objs
    ensures w.objs[p].writable && w.objs[p].kind.Shadow? && w.objs[d].kind.Shadow?
  {
    var c := w.vmas[u].chain;
    assert c[0] in c && c[1] in c && c[2] in c;
  }

  lemma TornEntry(w: World, v: VmaId, u: VmaId, p: ObjId, d: ObjId, n: ObjId, left: seq<ObjId>, off: nat)
    requires Torn(w, v, u, p, d, n, left)
    ensures u in w.vmas && Torn(SetPte(w, u, off, Pte(Found(w, u, off), true)), v, u, p, d, n, left)
  {
  }

  // ---------------------------------------------------------------------------
  // The exits
  // ---------------------------------------------------------------------------

  lemma UnlinkTorn(w: World, v: VmaId, u: VmaId, p: ObjId, d: ObjId, n: ObjId, left: seq<ObjId>)
    requires Torn(w, v, u, p, d, n, left) && left != []
    ensures left[0] in w.objs && Torn(Unlink(w, u), v, u, p, d, n, left[1..])
    ensures left[0] in Unlink(w, u).objs && Unlink(w, u).objs[left[0]] == w.objs[left[0]].(links := Without(w.objs[left[0]].links, u), nlinks := w.objs[left[0]].nlinks - 1)
  {
    assert left[0] in left;
    forall o | o in left[1..] ensures o in left && o != left[0] {}
  }

  /** The chain keeps its first two objects when another one goes. */
  lemma FirstTwoStay(c: seq<ObjId>, r: ObjId)
    requires 2 <= |c| && c[0] != r && c[1] != r
    ensures var c' := Without(c, r); 2 <= |c'| && c'[0] == c[0] && c'[1] == c[1]
  {
    assert c[1..][0] == c[1];
  }

  lemma MergeTorn(w: World, v: VmaId, u: VmaId, p: ObjId, d: ObjId, n: ObjId, left: seq<ObjId>, r: ObjId)
    requires Torn(w, v, u, p, d, n, left) && r in w.objs && r != p && r != n && r != d && r !in left
    requires w.objs[r].links != [] && w.objs[r].shadowers != [] && w.objs[r].orig.Some?
    requires w.objs[r].links[0] in w.vmas && w.objs[r].shadowers[0] in w.objs && w.objs[r].orig.value in w.objs
    requires u !in w.objs[r].links && p !in w.objs[r].shadowers && w.objs[r].orig != Some(p)
    ensures Torn(Merge(w, r), v, u, p, d, n, left)
  {
    assert w.objs[r].links[0] in w.objs[r].links && w.objs[r].shadowers[0] in w.objs[r].shadowers;
    FirstTwoStay(w.vmas[v].chain, r);
  }

  lemma DropFirstTorn(w: World, v: VmaId, u: VmaId, p: ObjId, d: ObjId, n: ObjId, left: seq<ObjId>)
    requires Torn(w, v, u, p, d, n, left) && left != []
    ensures left[0] in w.objs && Torn(DropFirst(w, u), v, u, p, d, n, left[1..])
  {
    hide Unlink, Merge;
    var r := left[0];
    assert r in left;
    UnlinkTorn(w, v, u, p, d, n, left);
    var w1 := Unlink(w, u);
    assert r !in left[1..] by { assert left == [r] + left[1..]; }
    if DropFirst(w, u) != w1 {
      assert Mergeable(w1.objs[r]) && r != p && r != n;
      MergeTorn(w1, v, u, p, d, n, left[1..], r);
    }
  }

  lemma {:induction false} DropLinksTorn(w: World, v: VmaId, u: VmaId, p: ObjId, d: ObjId, n: ObjId, left: seq<ObjId>, k: nat)
    requires Torn(w, v, u, p, d, n, left) && k <= |left|
    ensures Torn(DropLinks(w, u, k), v, u, p, d, n, left[k..])
    decreases k
  {
    hide DropFirst, Torn;
    if k > 0 {
      DropLinksTorn(w, v, u, p, d, n, left, k - 1);
      var w1 := DropLinks(w, u, k - 1);
      DropFirstTorn(w1, v, u, p, d, n, left[k - 1..]);
      TornChain(w1, v, u, p, d, n, left[k - 1..]);
      assert left[k - 1..][1..] == left[k..];
    }
  }

  lemma TornChain(w: World, v: VmaId, u: VmaId, p: ObjId, d: ObjId, n: ObjId, left: seq<ObjId>)
    requires Torn(w, v, u, p, d, n, left)
    ensures u in w.vmas && w.vmas[u].chain == left && forall o :: o in left ==> o in w.objs
  {
  }

  /** Once u is gone the check of v's exit fails. */
  lemma ExitAfterTear(w: World, v: VmaId, u: VmaId, p: ObjId, d: ObjId, n: ObjId, left: seq<ObjId>)
    requires Torn(w, v, u, p, d, n, left)
    ensures u in w.vmas && ExitFails(Exit(w, u), v)
  {
    hide DropLinks;
    DropLinksTorn(w, v, u, p, d, n, left, |left|);
    assert left[|left|..] == [];
  }

  /** Split a vma whose front is writable and two objects are behind it; let the new half write a
      page that the front lacks, so that the front has as many pages as the object behind it;
      unmap the new half; then the check at the exit of the old half fails. */
  lemma SplitWriteExitFails(w: World, v: VmaId, u: VmaId, from: nat, upto: nat, off: nat, s: ObjId, fin: Frame, fcow: Frame)
    requires Inv(w) && v in w.vmas && u !in w.vmas && 3 <= |w.vmas[v].chain|
    requires var c := w.vmas[v].chain;
             && c[0] in w.objs && c[1] in w.objs && w.objs[c[0]].writable
             && off !in w.objs[c[0]].pages && w.objs[c[0]].npages + 1 == w.objs[c[1]].npages
    ensures var w1 := Split(w, v, u, from, upto);
            && u in w1.vmas && w1.vmas[u].chain != [] && w1.vmas[u].chain[0] in w1.objs
            && var w2 := Fault(w1, u, off, WriteAccess, s, fin, fcow);
               u in w2.vmas && ExitFails(Exit(w2, u), v)
  {
    hide Shared, Torn, Fault, Exit;
    var c := w.vmas[v].chain;
    var w1 := Split(w, v, u, from, upto);
    SplitShares(w, v, u, from, upto);
    SharedFront(w1, v, u, c[0], c[1], c[2]);
    SplitKeepsPages(w, v, u, from, upto, c[0]);
    SplitKeepsPages(w, v, u, from, upto, c[1]);
    FaultTears(w1, v, u, c[0], c[1], c[2], off, s, fin, fcow);
    ExitAfterTear(Fault(w1, u, off, WriteAccess, s, fin, fcow), v, u, c[0], c[1], c[2], [c[0]] + w1.vmas[u].chain[2..]);
  }

  lemma SplitKeepsPages(w: World, v: VmaId, u: VmaId, from: nat, upto: nat, o: ObjId)
    requires v in w.vmas && o in w.objs
    ensures var w' := Split(w, v, u, from, upto); o in w'.objs && w'.objs[o].pages == w.objs[o].pages && w'.objs[o].npages == w.objs[o].npages
  {
  }
}
