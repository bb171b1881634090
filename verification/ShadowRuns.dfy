/**
 Runs of the pager: any sequence of mappings, faults, stores, forks and exits.

 Over every run the structure is sound, no store or fault reaches another mapping and
 no file is written. Over every run whose drops lose no page, the mappings behave like
 flat memories that are copied whole at fork.
 */
module ShadowRuns {
  import opened Basics
  import opened ShadowWorld
  import opened ShadowSteps
  import opened ShadowInvariant
  import opened ShadowForkExit
  import opened ShadowViews
  import opened ShadowFaults
  import opened ShadowCopy
  import opened ShadowLoss

  datatype Step =
    | MmapStep(v: VmaId, base: ObjId, lo: nat, hi: nat)
    | FaultStep(v: VmaId, off: nat, reason: Reason, s: ObjId, fin: Frame, fcow: Frame)
    | StoreStep(v: VmaId, off: nat, i: nat, b: Byte)
    | FreezeStep(v: VmaId)
    | CopyStep(v: VmaId, u: VmaId)
    | ExitStep(v: VmaId)

  /** When the system can take a step: the hardware only stores through a writable
      entry, and fork copies a vma after its shadows were frozen. */
  ghost predicate Legal(w: World, st: Step) {
    match st
    case MmapStep(v, base, lo, hi) => CanMmap(w, v, base, lo, hi)
    case FaultStep(v, off, reason, s, fin, fcow) => CanFault(w, v, off, reason, s, fin, fcow)
    case StoreStep(v, off, i, b) =>
      v in w.vmas && off in w.vmas[v].ptes && w.vmas[v].ptes[off].writable && w.vmas[v].ptes[off].frame in w.frames
    case FreezeStep(v) => v in w.vmas
    case CopyStep(v, u) => v in w.vmas && u !in w.vmas && Frozen(w, v)
    case ExitStep(v) => v in w.vmas
  }

  ghost function Do(w: World, st: Step): World
    requires Legal(w, st)
  {
    match st
    case MmapStep(v, base, lo, hi) => Mmap(w, v, base, lo, hi)
    case FaultStep(v, off, reason, s, fin, fcow) => Fault(w, v, off, reason, s, fin, fcow)
    case StoreStep(v, off, i, b) => Store(w, v, off, i, b)
    case FreezeStep(v) => Freeze(w, v)
    case CopyStep(v, u) => CopyLinks(w, v, u)
    case ExitStep(v) => Exit(w, v)
  }

  /** The one kind of step that the count test can make lossy. */
  ghost predicate Lossless(w: World, st: Step)
    requires Legal(w, st)
  {
    st.FaultStep? && st.reason == WriteAccess ==> !DropLoses(w, st.v, st.off)
  }

  ghost predicate StepAt(ws: seq<World>, sts: seq<Step>, i: nat)
    requires i < |sts| && |ws| == |sts| + 1
  {
    Legal(ws[i], sts[i]) && ws[i + 1] == Do(ws[i], sts[i])
  }

  /** A run from a system without mappings. */
  ghost predicate Run(ws: seq<World>, sts: seq<Step>) {
    && |ws| == |sts| + 1 && Init(ws[0])
    && forall i {:trigger StepAt(ws, sts, i)} :: 0 <= i < |sts| ==> StepAt(ws, sts, i)
  }

  ghost predicate LosslessRun(ws: seq<World>, sts: seq<Step>)
    requires Run(ws, sts)
  {
    forall i {:trigger StepAt(ws, sts, i)} :: 0 <= i < |sts| ==> StepAt(ws, sts, i) && Lossless(ws[i], sts[i])
  }

  // ---------------------------------------------------------------------------
  // Every run
  // ---------------------------------------------------------------------------

  lemma MmapViews(w: World, v: VmaId, base: ObjId, lo: nat, hi: nat)
    requires Inv(w) && CanMmap(w, v, base, lo, hi)
    ensures var w' := Mmap(w, v, base, lo, hi);
            && SameViews(w, w', Nothing) && SameImages(w, w')
            && (forall x :: View(w', v, x) == Image(w, base, x))
            && (PtesCurrent(w, Nothing) ==> PtesCurrent(w', Nothing))
            && (WritesOwned(w, Nothing) ==> WritesOwned(w', Nothing))
  {
    var w' := Mmap(w, v, base, lo, hi);
    MmapInv(w, v, base, lo, hi);
    SourcesUntouched(w, w');
    SourcesGiveViews(w, w', Nothing);
    BasesGiveImages(w, w');
    forall x ensures View(w', v, x) == Image(w, base, x) { assert View(w', v, x) == Image(w', base, x); }
    if PtesCurrent(w, Nothing) {
      forall u, x | u in w'.vmas && x in w'.vmas[u].ptes ensures PteCurrent(w', u, x) {
        assert PteCurrent(w, u, x) && Src(w', u, x) == Src(w, u, x);
      }
    }
    if WritesOwned(w, Nothing) {
      forall u | u in w'.vmas ensures WritablePtesOwned(w'.objs, w'.vmas[u]) {
        if u != v { assert WritablePtesOwned(w.objs, w.vmas[u]); }
      }
    }
  }

  lemma ExitImages(w: World, v: VmaId)
    requires Inv(w) && v in w.vmas
    ensures SameImages(w, Exit(w, v))
  {
    var n := |w.vmas[v].chain|;
    var w1 := DropLinksCalm(w, v, n);
    ExitInv(w, v);
    BasesGiveImages(w, Exit(w, v));
  }

  lemma StepSound(w: World, st: Step)
    requires Inv(w) && WritesOwned(w, Nothing) && Legal(w, st)
    ensures Inv(Do(w, st)) && WritesOwned(Do(w, st), Nothing) && SameImages(w, Do(w, st))
  {
    hide Inv, WritesOwned, SameImages, Mmap, Exit, Store, Fault;
    match st
    case MmapStep(v, base, lo, hi) =>
      MmapInv(w, v, base, lo, hi);
      MmapViews(w, v, base, lo, hi);
    case FaultStep(v, off, reason, s, fin, fcow) =>
      var w' := FaultSound(w, v, off, reason, s, fin, fcow);
    case StoreStep(v, off, i, b) =>
      StoreInv(w, v, off, i, b);
      StorePtes(w, v, off, i, b);
      StoreImages(w, v, off, i, b);
    case FreezeStep(v) =>
      FreezeInv(w, v);
      FreezeWrites(w, v);
      FreezeSources(w, v);
      BasesGiveImages(w, Freeze(w, v));
    case CopyStep(v, u) =>
      CopyLinksInv(w, v, u);
      CopyLinksViews(w, v, u);
      BasesGiveImages(w, CopyLinks(w, v, u));
    case ExitStep(v) =>
      ExitInv(w, v);
      ExitViews(w, v);
      ExitImages(w, v);
  }

  /** No step on one vma, however its drop turns out, changes what another one shows. */
  lemma StepIsolated(w: World, st: Step, u: VmaId, x: nat)
    requires Inv(w) && WritesOwned(w, Nothing) && Legal(w, st) && u in w.vmas && u != st.v
    ensures u in Do(w, st).vmas && View(Do(w, st), u, x) == View(w, u, x)
  {
    match st
    case MmapStep(v, base, lo, hi) => MmapViews(w, v, base, lo, hi);
    case FaultStep(v, off, reason, s, fin, fcow) =>
      var w' := FaultSound(w, v, off, reason, s, fin, fcow);
      FaultKeepsOthers(w, v, off, reason, s, fin, fcow);
    case StoreStep(v, off, i, b) => StoreViews(w, v, off, i, b, u, x);
    case FreezeStep(v) => FreezeViews(w, v);
    case CopyStep(v, y) => CopyLinksViews(w, v, y);
    case ExitStep(v) =>
      ExitInv(w, v);
      ExitViews(w, v);
  }

  lemma SameImagesRefl(w: World)
    ensures SameImages(w, w)
  {
  }

  /** Every reachable world is sound: counts match lists, chains end in a file or devzero,
      no frame leaks, only private pages are writable, and files show what they held. */
  lemma {:induction false} RunSound(ws: seq<World>, sts: seq<Step>, n: nat)
    requires Run(ws, sts) && n < |ws|
    ensures Inv(ws[n]) && WritesOwned(ws[n], Nothing) && SameImages(ws[0], ws[n])
  {
    if n == 0 {
      InitInv(ws[0]);
      SameImagesRefl(ws[0]);
    } else {
      RunSound(ws, sts, n - 1);
      assert StepAt(ws, sts, n - 1);
      StepSound(ws[n - 1], sts[n - 1]);
      ImagesTrans(ws[0], ws[n - 1], ws[n]);
    }
  }

  /** In every run, a vma shows the same pages between two of its own steps. */
  lemma {:induction false} RunIsolated(ws: seq<World>, sts: seq<Step>, m: nat, n: nat, u: VmaId, x: nat)
    requires Run(ws, sts) && m <= n < |ws| && u in ws[m].vmas
    requires forall i :: m <= i < n ==> sts[i].v != u
    ensures u in ws[n].vmas && View(ws[n], u, x) == View(ws[m], u, x)
    decreases n
  {
    if m < n {
      RunIsolated(ws, sts, m, n - 1, u, x);
      RunSound(ws, sts, n - 1);
      assert StepAt(ws, sts, n - 1);
      StepIsolated(ws[n - 1], sts[n - 1], u, x);
    }
  }

  // ---------------------------------------------------------------------------
  // Runs without loss refine flat memories
  // ---------------------------------------------------------------------------

  /** One private array of pages per vma; a fork copies it. */
  type Flat = map<VmaId, imap<nat, Page>>

  ghost function Poke(m: imap<nat, Page>, off: nat, i: nat, b: Byte): imap<nat, Page>
    requires off in m && i < |m[off]|
  {
    imap x: nat | x in m :: if x == off then m[x][i := b] else m[x]
  }

  ghost function FlatDo(first: World, mem: Flat, st: Step): Flat {
    match st
    case MmapStep(v, base, lo, hi) => mem[v := imap x: nat :: Image(first, base, x)]
    case StoreStep(v, off, i, b) =>
      if v in mem && off in mem[v] && i < |mem[v][off]| then mem[v := Poke(mem[v], off, i, b)] else mem
    case CopyStep(v, u) => if v in mem then mem[u := mem[v]] else mem
    case ExitStep(v) => mem - {v}
    case FaultStep(_, _, _, _, _, _) => mem
    case FreezeStep(_) => mem
  }

  ghost function FlatRun(first: World, sts: seq<Step>, n: nat): Flat
    requires n <= |sts|
  {
    if n == 0 then map[] else FlatDo(first, FlatRun(first, sts, n - 1), sts[n - 1])
  }

  ghost predicate Shows(w: World, mem: Flat) {
    && mem.Keys == w.vmas.Keys
    && forall v, x {:trigger View(w, v, x)} :: v in w.vmas ==> x in mem[v] && mem[v][x] == View(w, v, x)
  }

  lemma SameViewsShow(w: World, w': World, mem: Flat)
    requires Shows(w, mem) && SameViews(w, w', Nothing) && w'.vmas.Keys == w.vmas.Keys
    ensures Shows(w', mem)
  {
    forall v, x | v in w'.vmas ensures x in mem[v] && mem[v][x] == View(w', v, x) {
      assert View(w', v, x) == View(w, v, x);
    }
  }

  lemma MmapShows(first: World, w: World, mem: Flat, v: VmaId, base: ObjId, lo: nat, hi: nat)
    requires Inv(w) && Shows(w, mem) && CanMmap(w, v, base, lo, hi) && SameImages(first, w)
    ensures Shows(Mmap(w, v, base, lo, hi), FlatDo(first, mem, MmapStep(v, base, lo, hi)))
  {
    var w' := Mmap(w, v, base, lo, hi);
    var mem' := FlatDo(first, mem, MmapStep(v, base, lo, hi));
    MmapViews(w, v, base, lo, hi);
    forall u, x | u in w'.vmas ensures x in mem'[u] && mem'[u][x] == View(w', u, x) {
      if u == v {
        assert Image(w, base, x) == Image(first, base, x);
      } else {
        assert View(w', u, x) == View(w, u, x);
      }
    }
  }

  lemma StoreShows(first: World, w: World, mem: Flat, v: VmaId, off: nat, i: nat, b: Byte)
    requires Inv(w) && WritesOwned(w, Nothing) && Shows(w, mem) && Legal(w, StoreStep(v, off, i, b))
    ensures Shows(Store(w, v, off, i, b), FlatDo(first, mem, StoreStep(v, off, i, b)))
  {
    var w' := Store(w, v, off, i, b);
    var mem' := FlatDo(first, mem, StoreStep(v, off, i, b));
    var shown := View(w, v, off);
    assert off in mem[v] && mem[v][off] == shown;
    forall u, x | u in w'.vmas ensures x in mem'[u] && mem'[u][x] == View(w', u, x) {
      StoreViews(w, v, off, i, b, u, x);
      assert mem[u][x] == View(w, u, x);
    }
  }

  lemma CopyShows(first: World, w: World, mem: Flat, v: VmaId, u: VmaId)
    requires Inv(w) && Shows(w, mem) && Legal(w, CopyStep(v, u))
    ensures Shows(CopyLinks(w, v, u), FlatDo(first, mem, CopyStep(v, u)))
  {
    var w' := CopyLinks(w, v, u);
    var mem' := FlatDo(first, mem, CopyStep(v, u));
    CopyLinksViews(w, v, u);
    forall y, x | y in w'.vmas ensures x in mem'[y] && mem'[y][x] == View(w', y, x) {
      if y == u {
        assert View(w', u, x) == View(w, v, x);
      } else {
        assert View(w', y, x) == View(w, y, x);
      }
    }
  }

  lemma ExitShows(first: World, w: World, mem: Flat, v: VmaId)
    requires Inv(w) && Shows(w, mem) && v in w.vmas
    ensures Shows(Exit(w, v), FlatDo(first, mem, ExitStep(v)))
  {
    var w' := Exit(w, v);
    ExitInv(w, v);
    ExitViews(w, v);
    forall u, x | u in w'.vmas ensures x in mem[u] && mem[u][x] == View(w', u, x) {
      assert View(w', u, x) == View(w, u, x);
    }
  }

  lemma StepShows(first: World, w: World, mem: Flat, st: Step)
    requires Inv(w) && WritesOwned(w, Nothing) && SameImages(first, w) && Shows(w, mem)
    requires Legal(w, st) && Lossless(w, st)
    ensures Shows(Do(w, st), FlatDo(first, mem, st))
  {
    match st
    case MmapStep(v, base, lo, hi) => MmapShows(first, w, mem, v, base, lo, hi);
    case FaultStep(v, off, reason, s, fin, fcow) =>
      FaultMovesPages(w, v, off, reason, s, fin, fcow);
      var w' := FaultViews(w, v, off, reason, s, fin, fcow);
      w' := FaultSound(w, v, off, reason, s, fin, fcow);
      SameViewsShow(w, w', mem);
    case StoreStep(v, off, i, b) => StoreShows(first, w, mem, v, off, i, b);
    case FreezeStep(v) =>
      FreezeViews(w, v);
      SameViewsShow(w, Freeze(w, v), mem);
    case CopyStep(v, u) => CopyShows(first, w, mem, v, u);
    case ExitStep(v) => ExitShows(first, w, mem, v);
  }

  lemma StepPtes(w: World, st: Step)
    requires Inv(w) && WritesOwned(w, Nothing) && PtesCurrent(w, Nothing) && Legal(w, st) && Lossless(w, st)
    ensures PtesCurrent(Do(w, st), Nothing)
  {
    match st
    case MmapStep(v, base, lo, hi) => MmapViews(w, v, base, lo, hi);
    case FaultStep(v, off, reason, s, fin, fcow) =>
      FaultMovesPages(w, v, off, reason, s, fin, fcow);
      var w' := FaultViews(w, v, off, reason, s, fin, fcow);
    case StoreStep(v, off, i, b) => StorePtes(w, v, off, i, b);
    case FreezeStep(v) => FreezePtes(w, v);
    case CopyStep(v, u) => CopyLinksViews(w, v, u);
    case ExitStep(v) => ExitViews(w, v);
  }

  /** Demand paging, shadow chains, drops and merges are invisible: a lossless run shows
      flat memories, and every present page table entry names the current page. */
  lemma {:induction false} RunRefines(ws: seq<World>, sts: seq<Step>, n: nat)
    requires Run(ws, sts) && LosslessRun(ws, sts) && n < |ws|
    ensures Shows(ws[n], FlatRun(ws[0], sts, n)) && PtesCurrent(ws[n], Nothing)
  {
    if n > 0 {
      RunRefines(ws, sts, n - 1);
      RunSound(ws, sts, n - 1);
      assert StepAt(ws, sts, n - 1);
      StepShows(ws[0], ws[n - 1], FlatRun(ws[0], sts, n - 1), sts[n - 1]);
      StepPtes(ws[n - 1], sts[n - 1]);
    }
  }

  /** So a load through a present entry returns what the flat memory holds there. */
  lemma LoadsAreFlat(ws: seq<World>, sts: seq<Step>, n: nat, v: VmaId, x: nat)
    requires Run(ws, sts) && LosslessRun(ws, sts) && n < |ws|
    requires v in ws[n].vmas && x in ws[n].vmas[v].ptes
    ensures var f := ws[n].vmas[v].ptes[x].frame;
            var mem := FlatRun(ws[0], sts, n);
            f in ws[n].frames && v in mem && x in mem[v] && ws[n].frames[f].data == mem[v][x]
  {
    RunRefines(ws, sts, n);
    RunSound(ws, sts, n);
    assert PteCurrent(ws[n], v, x);
    ChainLive(ws[n], v);
    ResolveSound(ws[n], ws[n].vmas[v].chain, x);
    var shown := View(ws[n], v, x);
    assert x in FlatRun(ws[0], sts, n)[v] && FlatRun(ws[0], sts, n)[v][x] == shown;
  }
}
