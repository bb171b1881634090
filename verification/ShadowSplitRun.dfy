/**
 A run that leads to the failing exit of ShadowSplit: a process writes pages 0 and 2 of a
 devzero mapping of three pages, forks, writes page 0 again, unmaps page 1, writes page 2,
 unmaps page 2 and then page 0.
 */
module ShadowSplitRun {
  import opened Basics
  import opened ShadowWorld
  import opened ShadowSteps
  import opened ShadowFaults
  import opened ShadowCopy
  import opened ShadowRuns
  import opened ShadowLossRun
  import opened ShadowSplit

  function Pages2(o: ObjId, pages: map<nat, Frame>, writable: bool, links: seq<VmaId>, shadowers: seq<ObjId>): Obj {
    Obj(Shadow, writable, Some(o), pages, |pages|, links, |links|, shadowers, |shadowers|)
  }

  /** A devzero mapping of pages 0 to 2 and nothing else. */
  ghost predicate ThreeMapped(w: World) {
    w == World(map[0 := Zero([1], [])], map[1 := Vma(0, 3, [0], map[])], map[0 := PageFrame(0, 0, [0])])
  }

  lemma MapThree()
    ensures Legal(Start(), MmapStep(1, 0, 0, 3)) && ThreeMapped(Do(Start(), MmapStep(1, 0, 0, 3)))
  {
    assert [1] + [] == [1];
    var w := Mmap(Start(), 1, 0, 0, 3);
    assert w.objs == map[0 := Zero([1], [])];
  }

  /** With shadow 1 in front that holds `pages`. */
  ghost predicate OneShadow(w: World, pages: map<nat, Frame>, writable: bool, copied: bool) {
    && w.objs.Keys == {0, 1} && w.objs[0] == Zero(if copied then [2, 1] else [1], [1])
    && w.objs[1] == Pages2(0, pages, writable, if copied then [2, 1] else [1], [])
    && 1 in w.vmas && w.vmas[1].lo == 0 && w.vmas[1].hi == 3 && w.vmas[1].chain == [1, 0] && w.vmas.Keys == (if copied then {1, 2} else {1})
    && 0 in w.frames && w.frames[0].data == [0] && (forall f :: f in w.frames <==> f == 0 || f == 2 || (f == 4 && 2 in pages)) && w.vmas[1].ptes.Keys == pages.Keys
  }

  lemma WriteFirst(w: World) returns (w': World)
    requires ThreeMapped(w)
    ensures Legal(w, FaultStep(1, 0, WriteAccess, 1, 1, 2)) && w' == Do(w, FaultStep(1, 0, WriteAccess, 1, 1, 2))
    ensures OneShadow(w', map[0 := 2], true, false)
  {
    assert Resolve(w, [0], 0) == Resident(0);
    assert Fetch(w, 1, 0, 1) == w;
    var n := NewShadow(w, 1, 1);
    assert n.vmas[1].chain == [1, 0];
    assert [1, 0][1..] == [0];
    assert Resolve(n, [1, 0], 0) == Resolve(n, [0], 0) == Resident(0);
    var a := AddPage(n, 1, 0, 2, View(n, 1, 0));
    assert CopyOnWrite(w, 1, 0, 1, 1, 2) == a;
    w' := Fault(w, 1, 0, WriteAccess, 1, 1, 2);
    assert w'.objs[1].pages == map[0 := 2];
    assert [1] + [] == [1];
  }

  lemma WriteThird(w: World) returns (w': World)
    requires OneShadow(w, map[0 := 2], true, false)
    ensures Legal(w, FaultStep(1, 2, WriteAccess, 5, 3, 4)) && w' == Do(w, FaultStep(1, 2, WriteAccess, 5, 3, 4))
    ensures OneShadow(w', map[0 := 2, 2 := 4], true, false)
  {
    assert [1, 0][1..] == [0];
    assert Resolve(w, [1, 0], 2) == Resolve(w, [0], 2) == Resident(0);
    assert Fetch(w, 1, 2, 3) == w;
    var a := AddPage(w, 1, 2, 4, View(w, 1, 2));
    assert CopyOnWrite(w, 1, 2, 5, 3, 4) == a;
    w' := Fault(w, 1, 2, WriteAccess, 5, 3, 4);
    assert w'.objs[1].pages == map[0 := 2, 2 := 4];
    assert |map[0 := 2]| == 1 && |map[0 := 2, 2 := 4]| == 2;
  }

  lemma FreezeBoth(w: World) returns (w': World)
    requires OneShadow(w, map[0 := 2, 2 := 4], true, false)
    ensures Legal(w, FreezeStep(1)) && w' == Do(w, FreezeStep(1)) && OneShadow(w', map[0 := 2, 2 := 4], false, false)
  {
    w' := Freeze(w, 1);
  }

  lemma CopyBoth(w: World) returns (w': World)
    requires OneShadow(w, map[0 := 2, 2 := 4], false, false)
    ensures Legal(w, CopyStep(1, 2)) && w' == Do(w, CopyStep(1, 2)) && OneShadow(w', map[0 := 2, 2 := 4], false, true)
  {
    w' := CopyLinks(w, 1, 2);
    assert [2] + [1] == [2, 1];
  }

  /** The front of vma 1 has one page over a shadow with two; nothing is named 3, 7 or 8. */
  ghost predicate ReadyToSplit(w: World) {
    && 1 in w.vmas && 3 !in w.vmas && w.vmas[1].lo == 0 && w.vmas[1].hi == 3 && w.vmas[1].chain == [2, 1, 0]
    && 2 in w.objs && 1 in w.objs && w.objs[2].writable && w.objs[2].pages == map[0 := 6] && w.objs[2].npages == 1 && w.objs[1].npages == 2
    && 7 !in w.objs && 7 !in w.frames && 8 !in w.frames
  }

  /** After the fork the parent writes page 0 into a new front, which then has one page over a
      shadow with two. */
  lemma WriteAgain(w: World) returns (w': World)
    requires OneShadow(w, map[0 := 2, 2 := 4], false, true)
    ensures Legal(w, FaultStep(1, 0, WriteAccess, 2, 5, 6)) && w' == Do(w, FaultStep(1, 0, WriteAccess, 2, 5, 6))
    ensures ReadyToSplit(w')
  {
    assert Resolve(w, [1, 0], 0) == Resident(2);
    var n := NewShadow(w, 1, 2);
    assert n.vmas[1].chain == [2, 1, 0] && [2, 1, 0][1..] == [1, 0];
    assert Resolve(n, [2, 1, 0], 0) == Resolve(n, [1, 0], 0) == Resident(2);
    assert Fetch(n, 1, 0, 5) == n;
    var a := AddPage(n, 1, 0, 6, View(n, 1, 0));
    assert |map[0 := 2, 2 := 4]| == 2;
    assert a.objs[2].pages == map[0 := 6];
    assert CopyOnWrite(w, 1, 0, 2, 5, 6) == a;
    w' := Fault(w, 1, 0, WriteAccess, 2, 5, 6);
  }

  const SPLIT_STEPS: seq<Step> := [
    MmapStep(1, 0, 0, 3), FaultStep(1, 0, WriteAccess, 1, 1, 2), FaultStep(1, 2, WriteAccess, 5, 3, 4),
    FreezeStep(1), CopyStep(1, 2), FaultStep(1, 0, WriteAccess, 2, 5, 6)]

  lemma RunToSplit() returns (ws: seq<World>)
    ensures Run(ws, SPLIT_STEPS) && |ws| == 7 && ReadyToSplit(ws[6])
  {
    hide Legal, Do, Init, OneShadow, ThreeMapped, ReadyToSplit;
    StartsRun();
    MapThree();
    var w1 := Do(Start(), SPLIT_STEPS[0]);
    var w2 := WriteFirst(w1);
    var w3 := WriteThird(w2);
    var w4 := FreezeBoth(w3);
    var w5 := CopyBoth(w4);
    var w6 := WriteAgain(w5);
    ws := [Start(), w1, w2, w3, w4, w5, w6];
    forall i: nat | i < |SPLIT_STEPS| ensures StepAt(ws, SPLIT_STEPS, i) {}
  }

  lemma StartsRun()
    ensures Init(Start())
  {
  }

  /** From there on: unmap page 1, write page 2 in the new vma 3, unmap it; BUG_ON then fires when
      page 0 is unmapped. */
  lemma SplitHitsBug() returns (ws: seq<World>)
    ensures Run(ws, SPLIT_STEPS) && |ws| == 7 && 1 in ws[6].vmas
    ensures var w1 := Split(ws[6], 1, 3, 1, 2);
            && CanFault(w1, 3, 2, WriteAccess, 7, 7, 8)
            && var w2 := Fault(w1, 3, 2, WriteAccess, 7, 7, 8);
               3 in w2.vmas && ExitFails(Exit(w2, 3), 1)
  {
    hide Run, Fault, Exit, ExitFails;
    ws := RunToSplit();
    RunSound(ws, SPLIT_STEPS, 6);
    SplitWriteExitFails(ws[6], 1, 3, 1, 2, 2, 7, 7, 8);
  }
}
