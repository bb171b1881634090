/**
 A run in which the count test loses a page: a process writes page 0 of a devzero
 mapping and forks; the child writes page 1 and thereby loses its copy of page 0.
 */
module ShadowLossRun {
  import opened Basics
  import opened ShadowWorld
  import opened ShadowSteps
  import opened ShadowFaults
  import opened ShadowCopy
  import opened ShadowLoss
  import opened ShadowRuns

  function Zero(links: seq<VmaId>, shadowers: seq<ObjId>): Obj {
    Obj(DevZero, false, None, map[0 := 0], 1, links, |links|, shadowers, |shadowers|)
  }

  function OnePage(o: ObjId, off: nat, f: Frame, writable: bool, links: seq<VmaId>, shadowers: seq<ObjId>): Obj {
    Obj(Shadow, writable, Some(o), map[off := f], 1, links, |links|, shadowers, |shadowers|)
  }

  /** The devzero frame and, once page 0 was copied, the frame of the copy. */
  function Frames(b: Byte): map<Frame, PageFrame> {
    map[0 := PageFrame(0, 0, [0]), 2 := PageFrame(1, 0, [b])]
  }

  function Start(): World { World(map[0 := Zero([], [])], map[], map[0 := PageFrame(0, 0, [0])]) }
  function Mapped(): World { World(map[0 := Zero([1], [])], map[1 := Vma(0, 2, [0], map[])], map[0 := PageFrame(0, 0, [0])]) }
  function Copied(b: Byte): World {
    World(map[0 := Zero([1], [1]), 1 := OnePage(0, 0, 2, true, [1], [])], map[1 := Vma(0, 2, [1, 0], map[0 := Pte(2, true)])], Frames(b))
  }
  function Halted(): World {
    World(map[0 := Zero([1], [1]), 1 := OnePage(0, 0, 2, false, [1], [])], map[1 := Vma(0, 2, [1, 0], map[0 := Pte(2, false)])], Frames(7))
  }
  function Forked(): World {
    World(map[0 := Zero([2, 1], [1]), 1 := OnePage(0, 0, 2, false, [2, 1], [])],
          map[1 := Vma(0, 2, [1, 0], map[0 := Pte(2, false)]), 2 := Vma(0, 2, [1, 0], map[0 := Pte(2, false)])], Frames(7))
  }

  lemma MapStep()
    ensures Legal(Start(), MmapStep(1, 0, 0, 2)) && Do(Start(), MmapStep(1, 0, 0, 2)) == Mapped()
  {
    assert [1] + [] == [1];
    assert Mmap(Start(), 1, 0, 0, 2).objs == Mapped().objs;
  }

  lemma FirstWrite()
    ensures Legal(Mapped(), FaultStep(1, 0, WriteAccess, 1, 1, 2))
    ensures Do(Mapped(), FaultStep(1, 0, WriteAccess, 1, 1, 2)) == Copied(0)
  {
    var w := Mapped();
    assert Resolve(w, [0], 0) == Resident(0);
    assert Fetch(w, 1, 0, 1) == w;
    var n := NewShadow(w, 1, 1);
    assert n.vmas[1].chain == [1, 0];
    assert [1, 0][1..] == [0];
    assert Resolve(n, [1, 0], 0) == Resolve(n, [0], 0) == Resident(0);
    assert View(n, 1, 0) == [0];
    var a := AddPage(n, 1, 0, 2, [0]);
    assert CopyOnWrite(w, 1, 0, 1, 1, 2) == a;
    assert Found(a, 1, 0) == 2;
    FirstWriteWorld(a);
  }

  lemma FirstWriteWorld(a: World)
    requires a == AddPage(NewShadow(Mapped(), 1, 1), 1, 0, 2, [0])
    ensures SetPte(a, 1, 0, Pte(2, true)) == Copied(0)
  {
    var c := Copied(0);
    assert a.vmas[1].ptes[0 := Pte(2, true)] == c.vmas[1].ptes;
    assert a.objs[1].pages == c.objs[1].pages;
    assert a.objs[0] == c.objs[0] && a.objs[1] == c.objs[1];
    assert a.objs == c.objs && a.frames == c.frames;
    assert [1] + [0] == [1, 0];
    assert SetPte(a, 1, 0, Pte(2, true)).vmas[1] == c.vmas[1];
    assert SetPte(a, 1, 0, Pte(2, true)).vmas == c.vmas;
  }

  lemma ParentStores()
    ensures Legal(Copied(0), StoreStep(1, 0, 0, 7)) && Do(Copied(0), StoreStep(1, 0, 0, 7)) == Copied(7)
  {
    assert [0][0 := 7 as Byte] == [7];
    assert Store(Copied(0), 1, 0, 0, 7).frames == Frames(7);
  }

  lemma ParentFreezes()
    ensures Legal(Copied(7), FreezeStep(1)) && Do(Copied(7), FreezeStep(1)) == Halted()
  {
    var w := Freeze(Copied(7), 1);
    assert w.vmas[1].ptes == map[0 := Pte(2, false)];
    assert w.objs == Halted().objs && w.vmas == Halted().vmas;
  }

  lemma ParentForks()
    ensures Legal(Halted(), CopyStep(1, 2)) && Do(Halted(), CopyStep(1, 2)) == Forked()
  {
    var w := CopyLinks(Halted(), 1, 2);
    assert [2] + [1] == [2, 1];
    assert w.objs[0] == Forked().objs[0] && w.objs[1] == Forked().objs[1];
    assert w.objs == Forked().objs && w.vmas == Forked().vmas;
  }

  /** What matters about the forked world: the frozen shadow 1 holds just page 0. */
  ghost predicate JustForked(w: World) {
    && 2 in w.vmas && w.vmas[2] == Vma(0, 2, [1, 0], map[0 := Pte(2, false)])
    && w.objs.Keys == {0, 1} && w.objs[0] == Zero([2, 1], [1]) && w.objs[1] == OnePage(0, 0, 2, false, [2, 1], [])
    && w.frames.Keys == {0, 2} && w.frames[0].data == [0]
  }

  lemma ChildWrites(w: World) returns (w': World)
    requires JustForked(w)
    ensures CanFault(w, 2, 1, WriteAccess, 2, 3, 4) && w' == Fault(w, 2, 1, WriteAccess, 2, 3, 4)
    ensures 2 in w'.vmas && View(w', 2, 0) == [0]
  {
    ChildMisses(w);
    var a := CopyForChild(w);
    var d := DropForChild(a);
    w' := FaultWithDrop(w, a, d);
    ViewBehind(w');
  }

  lemma ChildMisses(w: World)
    requires JustForked(w)
    ensures Fetch(w, 2, 1, 3) == w
  {
    assert [1, 0][1..] == [0];
    assert Resolve(w, [1, 0], 1) == Resolve(w, [0], 1) == Resident(0);
  }

  lemma FaultWithDrop(w: World, a: World, d: World) returns (w': World)
    requires 2 in w.vmas && w.vmas[2].chain != [] && w.vmas[2].chain[0] in w.objs
    requires Fetch(w, 2, 1, 3) == w && !AlreadyWritable(w, 2, 1)
    requires a == WithFrontPage(w, 2, 1, 2, 3, 4) && 2 in a.vmas && DropFires(a, 2) && d == DropSecond(a, 2) && 2 in d.vmas
    ensures w' == Fault(w, 2, 1, WriteAccess, 2, 3, 4)
    ensures w'.objs == d.objs && w'.frames == d.frames && 2 in w'.vmas && w'.vmas[2].chain == d.vmas[2].chain
  {
    assert CopyOnWrite(w, 2, 1, 2, 3, 4) == d;
    w' := SetPte(d, 2, 1, Pte(Found(d, 2, 1), true));
  }

  lemma ViewBehind(w: World)
    requires 2 in w.vmas && w.vmas[2].chain == [2, 0] && 0 in w.frames && w.frames[0].data == [0]
    requires 0 in w.objs && w.objs[0].kind.DevZero? && w.objs[0].pages == map[0 := 0]
    requires 2 in w.objs && w.objs[2].kind.Shadow? && w.objs[2].pages == map[1 := 4]
    ensures View(w, 2, 0) == [0]
  {
    assert [2, 0][1..] == [0];
    assert Resolve(w, [2, 0], 0) == Resolve(w, [0], 0) == Resident(0);
  }

  lemma CopyForChild(w: World) returns (a: World)
    requires JustForked(w)
    ensures a == WithFrontPage(w, 2, 1, 2, 3, 4) && 2 in a.vmas && a.vmas[2].chain == [2, 1, 0] && a.objs.Keys == {0, 1, 2}
    ensures a.objs[0].kind.DevZero? && a.objs[0].pages == map[0 := 0] && 0 in a.frames && a.frames[0].data == [0]
    ensures a.objs[1] == OnePage(0, 0, 2, false, [2, 1], [2]) && a.objs[2].kind.Shadow? && a.objs[2].npages == 1 && a.objs[2].pages == map[1 := 4]
  {
    var n := NewShadow(w, 2, 2);
    assert [1, 0][1..] == [0] && [2, 1, 0][1..] == [1, 0];
    assert n.vmas[2].chain == [2, 1, 0];
    assert Resolve(n, [2, 1, 0], 1) == Resolve(n, [1, 0], 1) == Resolve(n, [0], 1) == Resident(0);
    assert Fetch(n, 2, 1, 3) == n;
    a := AddPage(n, 2, 1, 4, View(n, 2, 1));
  }

  lemma DropForChild(a: World) returns (d: World)
    requires 2 in a.vmas && a.vmas[2].chain == [2, 1, 0] && a.objs.Keys == {0, 1, 2}
    requires a.objs[0].kind.DevZero? && a.objs[0].pages == map[0 := 0]
    requires a.objs[1] == OnePage(0, 0, 2, false, [2, 1], [2]) && a.objs[2].kind.Shadow? && a.objs[2].npages == 1 && a.objs[2].pages == map[1 := 4]
    ensures DropFires(a, 2) && d == DropSecond(a, 2) && d.frames == a.frames && 2 in d.vmas && d.vmas[2].chain == [2, 0]
    ensures 0 in d.objs && d.objs[0].kind.DevZero? && d.objs[0].pages == map[0 := 0]
    ensures 2 in d.objs && d.objs[2].kind.Shadow? && d.objs[2].pages == map[1 := 4]
  {
    d := Unhook(a, 2);
    assert [2, 1, 0][2..] == [0];
    assert 2 !in Without([2], 2);
    assert d.objs[1].shadows == 0;
  }

  const STEPS: seq<Step> := [
    MmapStep(1, 0, 0, 2), FaultStep(1, 0, WriteAccess, 1, 1, 2), StoreStep(1, 0, 0, 7),
    FreezeStep(1), CopyStep(1, 2), FaultStep(2, 1, WriteAccess, 2, 3, 4)]

  lemma RunExtend(ws: seq<World>, sts: seq<Step>, st: Step)
    requires Run(ws, sts) && Legal(ws[|sts|], st)
    ensures Run(ws + [Do(ws[|sts|], st)], sts + [st])
  {
    var ws', sts' := ws + [Do(ws[|sts|], st)], sts + [st];
    forall i | 0 <= i < |sts'| ensures StepAt(ws', sts', i) {
      if i < |sts| { assert StepAt(ws, sts, i); }
    }
  }

  lemma RunToMapped() returns (ws: seq<World>)
    ensures Run(ws, STEPS[..1]) && ws[1] == Mapped()
  {
    MapStep();
    ws := [Start()];
    RunExtend(ws, [], STEPS[0]);
    ws := ws + [Mapped()];
    assert [] + [STEPS[0]] == STEPS[..1];
  }

  lemma RunToCopied() returns (ws: seq<World>)
    ensures Run(ws, STEPS[..2]) && ws[2] == Copied(0)
  {
    ws := RunToMapped();
    FirstWrite();
    RunExtend(ws, STEPS[..1], STEPS[1]);
    ws := ws + [Copied(0)];
    assert STEPS[..1] + [STEPS[1]] == STEPS[..2];
  }

  lemma RunToHalted() returns (ws: seq<World>)
    ensures Run(ws, STEPS[..4]) && ws[4] == Halted()
  {
    ws := RunToCopied();
    ParentStores();
    RunExtend(ws, STEPS[..2], STEPS[2]);
    ws := ws + [Copied(7)];
    assert STEPS[..2] + [STEPS[2]] == STEPS[..3];
    ParentFreezes();
    RunExtend(ws, STEPS[..3], STEPS[3]);
    ws := ws + [Halted()];
    assert STEPS[..3] + [STEPS[3]] == STEPS[..4];
  }

  lemma RunToForked() returns (ws: seq<World>)
    ensures Run(ws, STEPS[..5]) && ws[5] == Forked()
  {
    ws := RunToHalted();
    ParentForks();
    RunExtend(ws, STEPS[..4], STEPS[4]);
    ws := ws + [Forked()];
    assert STEPS[..4] + [STEPS[4]] == STEPS[..5];
  }

  lemma ChildBefore()
    ensures View(Forked(), 2, 0) == [7]
  {
    assert Resolve(Forked(), [1, 0], 0) == Resident(2);
  }

  /** The child's write fault on page 1 changes what the child sees on page 0. */
  lemma CountTestLosesPage() returns (ws: seq<World>)
    ensures Run(ws, STEPS)
    ensures 2 in ws[5].vmas && View(ws[5], 2, 0) == [7]
    ensures 2 in ws[6].vmas && View(ws[6], 2, 0) == [0]
  {
    ws := RunToForked();
    ChildBefore();
    var w' := ChildWrites(Forked());
    RunExtend(ws, STEPS[..5], STEPS[5]);
    ws := ws + [w'];
    assert STEPS[..5] + [STEPS[5]] == STEPS;
  }
}
