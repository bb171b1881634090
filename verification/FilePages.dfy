/**
 What a file of mm0 (file.c) shows: the byte of the cached page at each position, else that of
 the disk. Reading pages in and creating new ones leave it alone; whether a copy over the
 cache is right depends on the order that the pages were inserted in.
 */
module FilePages {
  import opened Basics
  import opened FileCopy
  import ListInsert

  /** The page that page_in delivers for each offset. */
  type Disk = nat -> seq<Byte>

  ghost predicate WholePages(d: Disk) {
    forall p :: |d(p)| == PAGE_SIZE
  }

  predicate Distinct(cache: seq<CachePage>) {
    forall i, j :: 0 <= i < j < |cache| ==> cache[i].offset != cache[j].offset
  }

  // ---------------------------------------------------------------------------
  // What a file shows
  // ---------------------------------------------------------------------------

  function PageOf(cache: seq<CachePage>, disk: Disk, p: nat): seq<Byte> {
    if cache == [] then disk(p) else if cache[0].offset == p then cache[0].data else PageOf(cache[1..], disk, p)
  }

  lemma {:induction false} PageOfCached(cache: seq<CachePage>, disk: Disk, i: nat)
    requires Distinct(cache) && i < |cache|
    ensures PageOf(cache, disk, cache[i].offset) == cache[i].data
    decreases |cache|
  {
    if i > 0 { PageOfCached(cache[1..], disk, i - 1); }
  }

  lemma {:induction false} PageOfMissing(cache: seq<CachePage>, disk: Disk, p: nat)
    requires !HasPage(cache, p)
    ensures PageOf(cache, disk, p) == disk(p)
    decreases |cache|
  {
    if cache != [] {
      assert cache[0].offset != p;
      forall i | 0 <= i < |cache[1..]| ensures cache[1..][i].offset != p { assert cache[i + 1].offset != p; }
      PageOfMissing(cache[1..], disk, p);
    }
  }

  lemma {:induction false} WholePage(cache: seq<CachePage>, disk: Disk, p: nat)
    requires WellFormed(cache) && WholePages(disk)
    ensures |PageOf(cache, disk, p)| == PAGE_SIZE
    decreases |cache|
  {
    if cache != [] && cache[0].offset != p { WholePage(cache[1..], disk, p); }
  }

  /** The byte at position x. */
  ghost function Shows(cache: seq<CachePage>, disk: Disk, x: nat): Byte
    requires WellFormed(cache) && WholePages(disk)
  {
    WholePage(cache, disk, x / PAGE_SIZE);
    PageOf(cache, disk, x / PAGE_SIZE)[x % PAGE_SIZE]
  }

  // ---------------------------------------------------------------------------
  // Inserting pages
  // ---------------------------------------------------------------------------

  /** The scan puts a page at p into its place, or the cache is too small to go wrong. */
  predicate Placeable(cache: seq<CachePage>, p: nat) {
    |cache| <= 1 || p > cache[0].offset
  }

  lemma SequenceIsSorted(cache: seq<CachePage>)
    ensures InSequence(cache) <==> ListInsert.Sorted(Offsets(cache))
  {
    if ListInsert.Sorted(Offsets(cache)) {
      forall i, j | 0 <= i < j < |cache| ensures cache[i].offset < cache[j].offset { assert Offsets(cache)[i] < Offsets(cache)[j]; }
    }
  }

  lemma InsertedPages(cache: seq<CachePage>, page: CachePage)
    ensures forall x :: x in InsertPage(cache, page) <==> x in cache || x == page
    ensures forall p: nat :: HasPage(InsertPage(cache, page), p) <==> HasPage(cache, p) || p == page.offset
  {
    var after := InsertPage(cache, page);
    if cache != [] {
      var k := ListInsert.Place(Offsets(cache), page.offset, 0);
      assert cache[..k] + cache[k..] == cache;
      assert forall x :: x in after <==> x in cache[..k] || x == page || x in cache[k..];
    }
    forall p: nat ensures HasPage(after, p) <==> HasPage(cache, p) || p == page.offset {
      HasPageIn(cache, p);
      HasPageIn(after, p);
    }
  }

  lemma HasPageIn(cache: seq<CachePage>, p: nat)
    ensures HasPage(cache, p) <==> exists x :: x in cache && x.offset == p
  {
    if HasPage(cache, p) {
      var i :| 0 <= i < |cache| && cache[i].offset == p;
      assert cache[i] in cache;
    }
  }

  /** An inserted page shows as itself and leaves all others as they were. */
  lemma InsertShows(cache: seq<CachePage>, page: CachePage, disk: Disk, p: nat)
    requires Distinct(cache) && !HasPage(cache, page.offset)
    ensures Distinct(InsertPage(cache, page))
    ensures PageOf(InsertPage(cache, page), disk, p) == if p == page.offset then page.data else PageOf(cache, disk, p)
  {
    var after := InsertPage(cache, page);
    InsertedDistinct(cache, page);
    InsertedPages(cache, page);
    if HasPage(after, p) {
      var i :| 0 <= i < |after| && after[i].offset == p;
      PageOfCached(after, disk, i);
      assert after[i] in after;
      if p == page.offset {
        assert after[i] == page by { assert after[i] in cache ==> HasPage(cache, p); }
      } else {
        var j :| 0 <= j < |cache| && cache[j] == after[i];
        PageOfCached(cache, disk, j);
      }
    } else {
      PageOfMissing(after, disk, p);
      PageOfMissing(cache, disk, p);
    }
  }

  lemma InsertedDistinct(cache: seq<CachePage>, page: CachePage)
    requires Distinct(cache) && !HasPage(cache, page.offset)
    ensures Distinct(InsertPage(cache, page))
  {
    if cache != [] {
      var after, k := InsertPage(cache, page), ListInsert.Place(Offsets(cache), page.offset, 0);
      forall i | 0 <= i < |cache| ensures cache[i].offset != page.offset {}
      forall i | 0 <= i < |after| ensures after[i] == if i < k then cache[i] else if i == k then page else cache[i - 1] {}
    }
  }

  lemma InsertedInSequence(cache: seq<CachePage>, page: CachePage)
    requires InSequence(cache) && !HasPage(cache, page.offset)
    ensures InSequence(InsertPage(cache, page)) <==> Placeable(cache, page.offset)
  {
    SequenceIsSorted(cache);
    SequenceIsSorted(InsertPage(cache, page));
    forall i | 0 <= i < |cache| ensures Offsets(cache)[i] != page.offset { assert cache[i].offset != page.offset; }
    InsertPageOrder(cache, page);
  }

  // ---------------------------------------------------------------------------
  // Reading pages in
  // ---------------------------------------------------------------------------

  /** read_file_pages over [from, upto): page_in adds the pages that are not cached. */
  function PagedIn(cache: seq<CachePage>, disk: Disk, from: nat, upto: nat): seq<CachePage>
    decreases upto - from
  {
    if from >= upto then cache
    else PagedIn(if HasPage(cache, from) then cache else InsertPage(cache, CachePage(from, disk(from))), disk, from + 1, upto)
  }

  /** Every page of the range that is missing can be put into its place. */
  predicate InOrder(cache: seq<CachePage>, from: nat, upto: nat) {
    forall p: nat :: from <= p < upto && !HasPage(cache, p) ==> Placeable(cache, p)
  }

  /** One page read in leaves the rest of the range in order. */
  lemma NextInOrder(cache: seq<CachePage>, page: CachePage, upto: nat)
    requires InSequence(cache) && page.offset < upto && !HasPage(cache, page.offset) && InOrder(cache, page.offset, upto)
    ensures InSequence(InsertPage(cache, page)) && InOrder(InsertPage(cache, page), page.offset + 1, upto)
  {
    var after := InsertPage(cache, page);
    InsertedInSequence(cache, page);
    InsertedPages(cache, page);
    assert HasPage(after, page.offset);
    var i :| 0 <= i < |after| && after[i].offset == page.offset;
    assert after[0].offset <= after[i].offset;
  }

  lemma LessInOrder(cache: seq<CachePage>, from: nat, upto: nat)
    requires InOrder(cache, from, upto)
    ensures InOrder(cache, from + 1, upto)
  {
  }

  lemma PlaceableIn(cache: seq<CachePage>, p: nat, upto: nat)
    requires InOrder(cache, p, upto) && p < upto && !HasPage(cache, p)
    ensures Placeable(cache, p)
  {
  }

  /** An insertion keeps pages whole, and all below a bound that the new one is below. */
  lemma InsertedShape(cache: seq<CachePage>, page: CachePage, p: nat)
    requires WellFormed(cache) && |page.data| == PAGE_SIZE && page.offset == p
    ensures WellFormed(InsertPage(cache, page)) && (AllBelow(cache, p) ==> AllBelow(InsertPage(cache, page), p + 1))
  {
    var next := InsertPage(cache, page);
    InsertedPages(cache, page);
    forall i | 0 <= i < |next| ensures |next[i].data| == PAGE_SIZE && (AllBelow(cache, p) ==> next[i].offset < p + 1) {
      assert next[i] in next;
    }
  }

  predicate AllBelow(cache: seq<CachePage>, p: nat) {
    forall i :: 0 <= i < |cache| ==> cache[i].offset < p
  }

  lemma BelowIsPlaceable(cache: seq<CachePage>, p: nat)
    requires AllBelow(cache, p)
    ensures Placeable(cache, p) && !HasPage(cache, p)
  {
  }

  lemma SortedIsDistinct(cache: seq<CachePage>)
    requires InSequence(cache)
    ensures Distinct(cache)
  {
  }

  /** A range read in is cached, and no page of the file shows anything new. */
  lemma {:induction false} PagedInShows(cache: seq<CachePage>, disk: Disk, from: nat, upto: nat, p: nat)
    requires Distinct(cache) && WellFormed(cache) && WholePages(disk)
    ensures var c := PagedIn(cache, disk, from, upto);
            && Distinct(c) && WellFormed(c) && PageOf(c, disk, p) == PageOf(cache, disk, p)
            && (HasPage(c, p) <==> HasPage(cache, p) || from <= p < upto)
    decreases upto - from
  {
    hide InsertPage, PageOf, Distinct, WellFormed;
    if from < upto {
      if HasPage(cache, from) {
        PagedInShows(cache, disk, from + 1, upto, p);
      } else {
        var page := CachePage(from, disk(from));
        InsertShows(cache, page, disk, p);
        PageOfMissing(cache, disk, from);
        InsertedPages(cache, page);
        InsertedShape(cache, page, from);
        PagedInShows(InsertPage(cache, page), disk, from + 1, upto, p);
      }
    }
  }

  lemma {:induction false} PagedInSorted(cache: seq<CachePage>, disk: Disk, from: nat, upto: nat)
    requires InSequence(cache) && InOrder(cache, from, upto)
    ensures InSequence(PagedIn(cache, disk, from, upto))
    decreases upto - from
  {
    hide InsertPage, InSequence;
    if from < upto {
      if HasPage(cache, from) {
        PagedInSorted(cache, disk, from + 1, upto);
      } else {
        NextInOrder(cache, CachePage(from, disk(from)), upto);
        PagedInSorted(InsertPage(cache, CachePage(from, disk(from))), disk, from + 1, upto);
      }
    }
  }

  /** Reading a range in keeps the cache in order exactly if all its missing pages can be put
      into their place. */
  lemma {:induction false} PagedInOrderIff(cache: seq<CachePage>, disk: Disk, from: nat, upto: nat)
    requires InSequence(cache)
    ensures InSequence(PagedIn(cache, disk, from, upto)) <==> InOrder(cache, from, upto)
    decreases upto - from
  {
    hide InsertPage, InSequence;
    if from < upto {
      if HasPage(cache, from) {
        PagedInOrderIff(cache, disk, from + 1, upto);
      } else if Placeable(cache, from) {
        StillPlaceable(cache, disk, from, upto);
      } else {
        InsertedInSequence(cache, CachePage(from, disk(from)));
        StaysOutOfOrder(InsertPage(cache, CachePage(from, disk(from))), disk, from + 1, upto);
      }
    }
  }

  /** A page put into its place leaves the question to the rest of the range. */
  lemma StillPlaceable(cache: seq<CachePage>, disk: Disk, from: nat, upto: nat)
    requires InSequence(cache) && from < upto && !HasPage(cache, from) && Placeable(cache, from)
    ensures InOrder(cache, from, upto)
    ensures InSequence(PagedIn(cache, disk, from, upto))
  {
    PagedInSorted(cache, disk, from, upto);
  }

  /** Pages that are out of order stay so. */
  lemma {:induction false} StaysOutOfOrder(cache: seq<CachePage>, disk: Disk, from: nat, upto: nat)
    requires !InSequence(cache)
    ensures !InSequence(PagedIn(cache, disk, from, upto))
    decreases upto - from
  {
    hide InsertPage, InSequence;
    if from < upto {
      InsertKeepsInversion(cache, CachePage(from, disk(from)));
      StaysOutOfOrder(if HasPage(cache, from) then cache else InsertPage(cache, CachePage(from, disk(from))), disk, from + 1, upto);
    }
  }

  lemma InsertKeepsInversion(cache: seq<CachePage>, page: CachePage)
    requires !InSequence(cache)
    ensures !InSequence(InsertPage(cache, page))
  {
    var i, j :| 0 <= i < j < |cache| && cache[i].offset >= cache[j].offset;
    var after, k := InsertPage(cache, page), ListInsert.Place(Offsets(cache), page.offset, 0);
    var i', j' := if i < k then i else i + 1, if j < k then j else j + 1;
    assert after[i'] == cache[i] && after[j'] == cache[j] && i' < j';
  }

  // ---------------------------------------------------------------------------
  // New pages
  // ---------------------------------------------------------------------------

  /** new_file_pages over [from, upto); the pages hold whatever their frames held. */
  function WithNew(cache: seq<CachePage>, frames: Disk, from: nat, upto: nat): seq<CachePage>
    decreases upto - from
  {
    if from >= upto then cache else WithNew(InsertPage(cache, CachePage(from, frames(from))), frames, from + 1, upto)
  }

  /** New pages behind all others show their frames and keep a sorted cache sorted. */
  lemma {:induction false} WithNewShows(cache: seq<CachePage>, disk: Disk, frames: Disk, from: nat, upto: nat, p: nat)
    requires Distinct(cache) && WellFormed(cache) && WholePages(frames) && (from < upto ==> AllBelow(cache, from))
    ensures var c := WithNew(cache, frames, from, upto);
            && Distinct(c) && WellFormed(c) && PageOf(c, disk, p) == (if from <= p < upto then frames(p) else PageOf(cache, disk, p))
            && (HasPage(c, p) <==> HasPage(cache, p) || from <= p < upto)
            && (InSequence(cache) ==> InSequence(c))
    decreases upto - from
  {
    hide InsertPage, PageOf, InSequence, Distinct, WellFormed, HasPage, AllBelow;
    if from < upto {
      var page := CachePage(from, frames(from));
      BelowIsPlaceable(cache, from);
      InsertShows(cache, page, disk, p);
      if InSequence(cache) { InsertedInSequence(cache, page); }
      InsertedPages(cache, page);
      InsertedShape(cache, page, from);
      WithNewShows(InsertPage(cache, page), disk, frames, from + 1, upto, p);
    }
  }

  // ---------------------------------------------------------------------------
  // Copies
  // ---------------------------------------------------------------------------

  /** The pages that a copy of n bytes at the cursor visits. */
  function Visits(cache: seq<CachePage>, cursor: nat, n: nat): seq<nat> {
    Visit(cache, cursor / PAGE_SIZE, PagesUpTo(cursor + n), 0)
  }

  predicate RightFor(cache: seq<CachePage>, cursor: nat, n: nat) {
    Right(cache, cursor / PAGE_SIZE, PagesUpTo(cursor + n))
  }

  /** As many pages as the range has; with fewer, the copy stops at a BUG_ON. */
  predicate EnoughFor(cache: seq<CachePage>, cursor: nat, n: nat) {
    |Visits(cache, cursor, n)| >= PagesUpTo(cursor + n) - cursor / PAGE_SIZE
  }

  /** The turn of a byte of the range. */
  lemma TurnInRange(cursor: nat, n: nat, x: nat)
    requires cursor <= x < cursor + n
    ensures Turn(cursor, x) < PagesUpTo(cursor + n) - cursor / PAGE_SIZE && Stands(cursor, Turn(cursor, x), x % PAGE_SIZE) == x
  {
  }

  /** What a byte stands for tells its page. */
  lemma StandsInRange(cursor: nat, n: nat, j: nat, k: nat)
    requires k < PAGE_SIZE
    ensures Stands(cursor, j, k) / PAGE_SIZE == cursor / PAGE_SIZE + j && Stands(cursor, j, k) % PAGE_SIZE == k
    ensures cursor <= Stands(cursor, j, k) < cursor + n ==> j < PagesUpTo(cursor + n) - cursor / PAGE_SIZE && Turn(cursor, Stands(cursor, j, k)) == j
  {
  }

  /** Over the right pages the byte of turn j is the one that the file shows. */
  lemma RightByte(cache: seq<CachePage>, disk: Disk, cursor: nat, n: nat, x: nat)
    requires RightFor(cache, cursor, n) && Distinct(cache) && WellFormed(cache) && WholePages(disk) && cursor <= x < cursor + n
    ensures Shows(cache, disk, x) == Cached(cache, Visits(cache, cursor, n), Turn(cursor, x), x % PAGE_SIZE)
  {
    var v, j := Visits(cache, cursor, n), Turn(cursor, x);
    TurnInRange(cursor, n, x);
    assert cache[v[j]].offset == x / PAGE_SIZE;
    PageOfCached(cache, disk, v[j]);
  }

  /** What a finished read over the right pages delivers. */
  lemma ReadDelivers(cache: seq<CachePage>, disk: Disk, user: seq<Byte>, user': seq<Byte>, cursor: nat, buf: nat, n: nat, i: nat)
    requires ReadDone(cache, Visits(cache, cursor, n), user, user', cursor, buf, n) && WholePages(disk) && Distinct(cache) && i < n
    requires RightFor(cache, cursor, n)
    ensures user'[buf + i] == Shows(cache, disk, cursor + i)
  {
    hide RightFor;
    RightByte(cache, disk, cursor, n, cursor + i);
    var b := user'[buf + i];
  }

  /** What a finished write over the right pages shows. */
  lemma WriteShows(cache: seq<CachePage>, cache': seq<CachePage>, disk: Disk, user: seq<Byte>, cursor: nat, buf: nat, n: nat, x: nat)
    requires WriteDone(cache, cache', Visits(cache, cursor, n), user, cursor, buf, n) && WholePages(disk) && Distinct(cache)
    requires RightFor(cache, cursor, n)
    ensures Shows(cache', disk, x) == if cursor <= x < cursor + n then user[buf + x - cursor] else Shows(cache, disk, x)
  {
    hide Shows, RightFor;
    var v := Visits(cache, cursor, n);
    SameVisits(cache, cache', cursor, n);
    if cursor <= x < cursor + n {
      RightByte(cache', disk, cursor, n, x);
      TurnInRange(cursor, n, x);
      RightTurns(cache, cursor, n);
      var b := Cached(cache', v, Turn(cursor, x), x % PAGE_SIZE);
    } else {
      WriteKeepsByte(cache, cache', disk, user, cursor, buf, n, x);
    }
  }

  lemma RightTurns(cache: seq<CachePage>, cursor: nat, n: nat)
    requires RightFor(cache, cursor, n)
    ensures EnoughFor(cache, cursor, n)
  {
  }

  /** Which pages are visited depends on the offsets alone. */
  lemma {:induction false} SameOffsetsVisit(cache: seq<CachePage>, cache': seq<CachePage>, from: nat, upto: nat, i: nat)
    requires |cache'| == |cache| && i <= |cache| && forall l :: 0 <= l < |cache| ==> cache'[l].offset == cache[l].offset
    ensures Visit(cache', from, upto, i) == Visit(cache, from, upto, i)
    decreases |cache| - i
  {
    if i < |cache| { SameOffsetsVisit(cache, cache', from, upto, i + 1); }
  }

  lemma SameVisits(cache: seq<CachePage>, cache': seq<CachePage>, cursor: nat, n: nat)
    requires |cache'| == |cache| && forall l :: 0 <= l < |cache| ==> cache'[l].offset == cache[l].offset
    ensures Visits(cache', cursor, n) == Visits(cache, cursor, n) && (RightFor(cache', cursor, n) <==> RightFor(cache, cursor, n))
    ensures Distinct(cache) ==> Distinct(cache')
    ensures forall p: nat :: HasPage(cache', p) <==> HasPage(cache, p)
    ensures forall m: nat :: AllBelow(cache, m) ==> AllBelow(cache', m)
  {
    SameOffsetsVisit(cache, cache', cursor / PAGE_SIZE, PagesUpTo(cursor + n), 0);
    forall p: nat ensures HasPage(cache', p) <==> HasPage(cache, p) {
      if HasPage(cache, p) { var i :| 0 <= i < |cache| && cache[i].offset == p; assert cache'[i].offset == p; }
    }
  }

  /** Outside the range no byte of the file changes, if the pages are right. */
  lemma WriteKeepsByte(cache: seq<CachePage>, cache': seq<CachePage>, disk: Disk, user: seq<Byte>, cursor: nat, buf: nat, n: nat, x: nat)
    requires WriteDone(cache, cache', Visits(cache, cursor, n), user, cursor, buf, n) && WholePages(disk) && Distinct(cache)
    requires RightFor(cache, cursor, n) && !(cursor <= x < cursor + n)
    ensures Shows(cache', disk, x) == Shows(cache, disk, x)
  {
    hide RightFor;
    var v, p, k := Visits(cache, cursor, n), x / PAGE_SIZE, x % PAGE_SIZE;
    SameVisits(cache, cache', cursor, n);
    if HasPage(cache, p) {
      var i :| 0 <= i < |cache| && cache[i].offset == p;
      assert cache'[i].offset == p;
      PageOfCached(cache, disk, i);
      PageOfCached(cache', disk, i);
      if i in v {
        var j :| 0 <= j < |v| && v[j] == i;
        var b := Cached(cache', v, j, k);
        StandsInRange(cursor, n, j, k);
        if cursor <= Stands(cursor, j, k) < cursor + n { RightOffset(cache, cursor, n, j); }
      }
    } else {
      PageOfMissing(cache, disk, p);
      PageOfMissing(cache', disk, p);
    }
  }

  lemma RightOffset(cache: seq<CachePage>, cursor: nat, n: nat, j: nat)
    requires RightFor(cache, cursor, n) && j < PagesUpTo(cursor + n) - cursor / PAGE_SIZE
    ensures var v := Visits(cache, cursor, n); j < |v| && v[j] < |cache| && cache[v[j]].offset == cursor / PAGE_SIZE + j
  {
  }

  // ---------------------------------------------------------------------------
  // When a copy is right
  // ---------------------------------------------------------------------------

  /** The same pages with other bytes. */
  predicate SameShape(cache: seq<CachePage>, cache1: seq<CachePage>) {
    |cache1| == |cache| && WellFormed(cache1) && forall i :: 0 <= i < |cache| ==> cache1[i].offset == cache[i].offset
  }

  /** Whatever the pages hold, a read of n bytes at the cursor delivers what the file shows. */
  ghost predicate ReadsRight(cache: seq<CachePage>, disk: Disk, cursor: nat, n: nat)
    requires WholePages(disk)
  {
    forall cache1, x {:trigger SameShape(cache, cache1), Turn(cursor, x)} :: SameShape(cache, cache1) && cursor <= x < cursor + n ==>
      Cached(cache1, Visits(cache, cursor, n), Turn(cursor, x), x % PAGE_SIZE) == Shows(cache1, disk, x)
  }

  /** A copy with enough pages is right exactly if the j-th page visited is the j-th of the
      range. */
  lemma ReadsRightIff(cache: seq<CachePage>, disk: Disk, cursor: nat, n: nat)
    requires Distinct(cache) && WellFormed(cache) && WholePages(disk) && n > 0 && EnoughFor(cache, cursor, n)
    ensures ReadsRight(cache, disk, cursor, n) <==> RightFor(cache, cursor, n)
  {
    hide RightFor, Shows, EnoughFor;
    if RightFor(cache, cursor, n) {
      forall cache1, x | SameShape(cache, cache1) && cursor <= x < cursor + n
        ensures Cached(cache1, Visits(cache, cursor, n), Turn(cursor, x), x % PAGE_SIZE) == Shows(cache1, disk, x)
      {
        SameVisits(cache, cache1, cursor, n);
        RightByte(cache1, disk, cursor, n, x);
      }
    } else {
      var cache1, x := WrongByte(cache, disk, cursor, n);
      assert Turn(cursor, x) >= 0;
    }
  }

  /** All pages filled with `other`, page i with `own`. */
  function Filled(cache: seq<CachePage>, i: nat, own: Byte, other: Byte): (c: seq<CachePage>)
    ensures SameShape(cache, c)
    ensures forall l :: 0 <= l < |c| ==> forall k :: 0 <= k < PAGE_SIZE ==> c[l].data[k] == if l == i then own else other
  {
    seq(|cache|, l requires 0 <= l < |cache| => CachePage(cache[l].offset, seq(PAGE_SIZE, k => if l == i then own else other)))
  }

  /** The first byte of the range in its j-th page. */
  function FirstOf(cursor: nat, j: nat): nat {
    if j == 0 then cursor else Stands(cursor, j, 0)
  }

  lemma FirstOfTurn(cursor: nat, n: nat, j: nat)
    requires n > 0 && j < PagesUpTo(cursor + n) - cursor / PAGE_SIZE
    ensures cursor <= FirstOf(cursor, j) < cursor + n && Turn(cursor, FirstOf(cursor, j)) == j && FirstOf(cursor, j) / PAGE_SIZE == cursor / PAGE_SIZE + j
  {
  }

  /** A page visited in another's turn delivers a byte that the file does not show there. */
  lemma WrongByte(cache: seq<CachePage>, disk: Disk, cursor: nat, n: nat) returns (cache1: seq<CachePage>, x: nat)
    requires Distinct(cache) && WellFormed(cache) && WholePages(disk) && n > 0 && EnoughFor(cache, cursor, n) && !RightFor(cache, cursor, n)
    ensures SameShape(cache, cache1) && cursor <= x < cursor + n
    ensures Cached(cache1, Visits(cache, cursor, n), Turn(cursor, x), x % PAGE_SIZE) != Shows(cache1, disk, x)
  {
    var j := WrongTurn(cache, cursor, n);
    var v := Visits(cache, cursor, n);
    x := FirstOf(cursor, j);
    FirstOfTurn(cursor, n, j);
    var p := x / PAGE_SIZE;
    var other := disk(p)[x % PAGE_SIZE];
    cache1 := Filled(cache, v[j], if other == 0 then 1 else 0, other);
    ShowsOther(cache1, disk, v[j], other, x);
  }

  lemma WrongTurn(cache: seq<CachePage>, cursor: nat, n: nat) returns (j: nat)
    requires EnoughFor(cache, cursor, n) && !RightFor(cache, cursor, n)
    ensures var v := Visits(cache, cursor, n);
            j < PagesUpTo(cursor + n) - cursor / PAGE_SIZE && j < |v| && v[j] < |cache| && cache[v[j]].offset != cursor / PAGE_SIZE + j
  {
    var from, upto := cursor / PAGE_SIZE, PagesUpTo(cursor + n);
    var v := VisitShape(cache, from, upto, 0);
    j :| 0 <= j < upto - from && cache[v[j]].offset != from + j;
  }

  /** Where every page but i holds `other`, a position of another page shows `other`. */
  lemma ShowsOther(cache: seq<CachePage>, disk: Disk, i: nat, other: Byte, x: nat)
    requires Distinct(cache) && WellFormed(cache) && WholePages(disk) && i < |cache| && cache[i].offset != x / PAGE_SIZE
    requires forall l :: 0 <= l < |cache| && l != i ==> cache[l].data[x % PAGE_SIZE] == other
    requires disk(x / PAGE_SIZE)[x % PAGE_SIZE] == other
    ensures Shows(cache, disk, x) == other
  {
    var p := x / PAGE_SIZE;
    if HasPage(cache, p) {
      var l :| 0 <= l < |cache| && cache[l].offset == p;
      PageOfCached(cache, disk, l);
    } else {
      PageOfMissing(cache, disk, p);
    }
  }

  /** Pages 2 and 3 are cached. Page 1 is then put between them. A read of page 1 visits no page,
      so the copy stops at the BUG_ON; a read of pages 1 to 3 visits them in the wrong order. */
  lemma BelowTheHead(disk: Disk, two: seq<Byte>, three: seq<Byte>)
    requires WholePages(disk) && |two| == PAGE_SIZE && |three| == PAGE_SIZE
    ensures var cache := [CachePage(2, two), CachePage(3, three)];
            var c := PagedIn(cache, disk, 1, 2);
            && c == [CachePage(2, two), CachePage(1, disk(1)), CachePage(3, three)]
            && !EnoughFor(c, PAGE_SIZE, 1)
            && PagedIn(cache, disk, 1, 4) == c && EnoughFor(c, PAGE_SIZE, 3 * PAGE_SIZE) && !RightFor(c, PAGE_SIZE, 3 * PAGE_SIZE)
  {
    var cache := [CachePage(2, two), CachePage(3, three)];
    ListInsert.MisplacesBelowHead();
    assert Offsets(cache) == [2, 3];
    assert ListInsert.Place([2, 3], 1, 0) == 1 by { assert ListInsert.Place([2, 3], 1, 1) == 1; }
    var page := CachePage(1, disk(1));
    var c := InsertPage(cache, page);
    assert c == cache[..1] + [page] + cache[1..];
    assert c == [CachePage(2, two), page, CachePage(3, three)];
    assert !HasPage(cache, 1);
    assert c[0].offset == 2 && c[2].offset == 3 && HasPage(c, 2) && HasPage(c, 3);
    assert PagedIn(c, disk, 2, 2) == c;
    assert PagedIn(c, disk, 4, 4) == c && PagedIn(c, disk, 3, 4) == c && PagedIn(c, disk, 2, 4) == c;
    ThreeVisited(c);
  }

  lemma ThreeVisited(c: seq<CachePage>)
    requires |c| == 3 && c[0].offset == 2 && c[1].offset == 1 && c[2].offset == 3
    ensures Visits(c, PAGE_SIZE, 1) == [] && Visits(c, PAGE_SIZE, 3 * PAGE_SIZE) == [0, 1, 2]
    ensures PagesUpTo(PAGE_SIZE + 1) == 2 && PagesUpTo(4 * PAGE_SIZE) == 4 && !RightFor(c, PAGE_SIZE, 3 * PAGE_SIZE)
  {
    assert Visit(c, 1, 4, 3) == [] && Visit(c, 1, 4, 2) == [2] && Visit(c, 1, 4, 1) == [1] + [2];
    assert c[Visits(c, PAGE_SIZE, 3 * PAGE_SIZE)[0]].offset == 2;
  }
}
