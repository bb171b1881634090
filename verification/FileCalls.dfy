/**
 sys_read and sys_write of mm0 (file.c) from end to end: pages of the file are read in, new
 ones are created, bytes are copied, length and cursor move. The page cache may be in any
 order; where its order makes a copy go wrong or stop, the contracts say so.
 */
module FileCalls {
  import opened Basics
  import opened FileCopy
  import opened FilePages

  const EINVAL := -22
  const EFAULT := -14
  const ENOMEM := -12
  const EIO := -5

  /** Every position shows what it showed. */
  ghost predicate SameBytes(cache: seq<CachePage>, cache': seq<CachePage>, disk: Disk) {
    forall p {:trigger PageOf(cache', disk, p)} :: PageOf(cache', disk, p) == PageOf(cache, disk, p)
  }

  lemma BelowByPages(cache: seq<CachePage>, n: nat)
    requires forall p: nat :: HasPage(cache, p) ==> p < n
    ensures AllBelow(cache, n)
  {
    forall i | 0 <= i < |cache| ensures cache[i].offset < n { assert HasPage(cache, cache[i].offset); }
  }

  lemma PagesBelow(cache: seq<CachePage>, n: nat)
    requires AllBelow(cache, n)
    ensures forall p: nat :: HasPage(cache, p) ==> p < n
  {
  }

  lemma NothingNew(cache: seq<CachePage>, disk: Disk)
    ensures SameBytes(cache, cache, disk)
  {
  }

  /** One page read in. */
  lemma PageReadIn(cache: seq<CachePage>, disk: Disk, f: nat)
    requires Distinct(cache) && WellFormed(cache) && WholePages(disk) && !HasPage(cache, f)
    ensures var next := InsertPage(cache, CachePage(f, disk(f)));
            && Distinct(next) && WellFormed(next) && SameBytes(cache, next, disk)
            && (forall p: nat :: HasPage(next, p) <==> HasPage(cache, p) || p == f)
  {
    hide InsertPage, Distinct, WellFormed, PageOf, HasPage;
    var page := CachePage(f, disk(f));
    InsertedPages(cache, page);
    InsertedShape(cache, page, f);
    PageOfMissing(cache, disk, f);
    forall p: nat ensures Distinct(InsertPage(cache, page)) && PageOf(InsertPage(cache, page), disk, p) == PageOf(cache, disk, p) {
      InsertShows(cache, page, disk, p);
    }
    InsertShows(cache, page, disk, 0);
  }

  lemma StillBelow(was: seq<CachePage>, now: seq<CachePage>, from: nat, upto: nat, length: nat)
    requires AllBelow(was, PagesUpTo(length)) && (from < upto ==> upto <= PagesUpTo(length))
    requires forall p: nat :: HasPage(now, p) ==> HasPage(was, p) || from <= p < upto
    ensures AllBelow(now, PagesUpTo(length))
  {
    PagesBelow(was, PagesUpTo(length));
    BelowByPages(now, PagesUpTo(length));
  }

  lemma BelowMore(cache: seq<CachePage>, n: nat, m: nat)
    requires AllBelow(cache, n) && n <= m
    ensures AllBelow(cache, m)
  {
  }

  lemma ExistingOnly(cursor: nat, count: nat, length: nat)
    requires count > 0
    ensures var g := WriteRanges(cursor, count, length);
            && (g.from < g.upto ==> g.upto <= PagesUpTo(length))
            && (g.newFrom < g.newUpto ==> PagesUpTo(length) <= g.newFrom && g.newUpto == PagesUpTo(cursor + count))
  {
  }

  lemma SameShows(was: seq<CachePage>, now: seq<CachePage>, disk: Disk, x: nat)
    requires WellFormed(was) && WellFormed(now) && WholePages(disk) && SameBytes(was, now, disk)
    ensures Shows(now, disk, x) == Shows(was, disk, x)
  {
    assert PageOf(now, disk, x / PAGE_SIZE) == PageOf(was, disk, x / PAGE_SIZE);
  }

  lemma ReadFrame(cache: seq<CachePage>, v: seq<nat>, user: seq<Byte>, user': seq<Byte>, cursor: nat, buf: nat, n: nat)
    requires ReadDone(cache, v, user, user', cursor, buf, n)
    ensures |user'| == |user| && buf + n <= |user|
    ensures forall a :: 0 <= a < |user| && !(buf <= a < buf + n) ==> user'[a] == user[a]
    ensures forall a :: buf <= a < buf + n ==> user'[a] == Cached(cache, v, Turn(cursor, cursor + a - buf), (cursor + a - buf) % PAGE_SIZE)
  {
  }

  /** The cache that sys_write copies into. */
  function Prepared(cache: seq<CachePage>, disk: Disk, frames: Disk, cursor: nat, count: nat, length: nat): seq<CachePage> {
    var g := WriteRanges(cursor, count, length);
    WithNew(PagedIn(cache, disk, g.from, g.upto), frames, g.newFrom, g.newUpto)
  }

  ghost predicate FileOk(cache: seq<CachePage>, disk: Disk, length: nat) {
    Distinct(cache) && WellFormed(cache) && WholePages(disk) && AllBelow(cache, PagesUpTo(length))
  }

  /** New pages show their frames, all others what they showed; the range is cached; and a
      sorted cache whose missing pages can be put into their place is sorted still. */
  lemma PreparedShows(cache: seq<CachePage>, disk: Disk, frames: Disk, cursor: nat, count: nat, length: nat, p: nat)
    requires FileOk(cache, disk, length) && WholePages(frames) && count > 0
    ensures var g := WriteRanges(cursor, count, length);
            var c := Prepared(cache, disk, frames, cursor, count, length);
            && Distinct(c) && WellFormed(c)
            && PageOf(c, disk, p) == (if g.newFrom <= p < g.newUpto then frames(p) else PageOf(cache, disk, p))
            && (HasPage(c, p) <==> HasPage(cache, p) || cursor / PAGE_SIZE <= p < PagesUpTo(cursor + count))
            && (InSequence(cache) && InOrder(cache, g.from, g.upto) ==> InSequence(c))
  {
    hide InSequence, Distinct, WellFormed, PageOf, HasPage, InOrder, AllBelow, PagedIn, WithNew;
    var g := WriteRanges(cursor, count, length);
    var c1 := PagedIn(cache, disk, g.from, g.upto);
    ExistingOnly(cursor, count, length);
    WriteRangesExact(cursor, count, length, p);
    PagedInShows(cache, disk, g.from, g.upto, p);
    forall q: nat ensures HasPage(c1, q) <==> HasPage(cache, q) || g.from <= q < g.upto { PagedInShows(cache, disk, g.from, g.upto, q); }
    StillBelow(cache, c1, g.from, g.upto, length);
    if g.newFrom < g.newUpto { BelowMore(c1, PagesUpTo(length), g.newFrom); }
    WithNewShows(c1, disk, frames, g.newFrom, g.newUpto, p);
    if InSequence(cache) && InOrder(cache, g.from, g.upto) { PagedInSorted(cache, disk, g.from, g.upto); }
  }

  function NewLength(cursor: nat, count: nat, length: nat): nat {
    if cursor + count > length then cursor + count else length
  }

  lemma PreparedOk(cache: seq<CachePage>, disk: Disk, frames: Disk, cursor: nat, count: nat, length: nat)
    requires FileOk(cache, disk, length) && WholePages(frames) && count > 0
    ensures var c := Prepared(cache, disk, frames, cursor, count, length);
            && FileOk(c, disk, NewLength(cursor, count, length))
            && (forall p: nat :: cursor / PAGE_SIZE <= p < PagesUpTo(cursor + count) ==> HasPage(c, p))
  {
    hide PageOf, HasPage, AllBelow, Prepared, InSequence, Distinct;
    var c := Prepared(cache, disk, frames, cursor, count, length);
    PagesBelow(cache, PagesUpTo(length));
    forall p: nat ensures HasPage(c, p) <==> HasPage(cache, p) || cursor / PAGE_SIZE <= p < PagesUpTo(cursor + count) {
      PreparedShows(cache, disk, frames, cursor, count, length, p);
    }
    PreparedShows(cache, disk, frames, cursor, count, length, 0);
    BelowByPages(c, PagesUpTo(NewLength(cursor, count, length)));
  }

  /** A sorted cache that stays sorted is right for the write ... */
  lemma SortedWriteIsRight(cache: seq<CachePage>, disk: Disk, frames: Disk, cursor: nat, count: nat, length: nat)
    requires FileOk(cache, disk, length) && WholePages(frames) && count > 0 && InSequence(cache)
    requires InOrder(cache, WriteRanges(cursor, count, length).from, WriteRanges(cursor, count, length).upto)
    ensures RightFor(Prepared(cache, disk, frames, cursor, count, length), cursor, count)
  {
    hide FileOk, InSequence, InOrder, PageOf, Prepared, HasPage;
    PreparedShows(cache, disk, frames, cursor, count, length, 0);
    PreparedOk(cache, disk, frames, cursor, count, length);
    SortedIsRight(Prepared(cache, disk, frames, cursor, count, length), cursor / PAGE_SIZE, PagesUpTo(cursor + count));
  }

  /** ... and for a read. */
  lemma SortedReadIsRight(cache: seq<CachePage>, disk: Disk, cursor: nat, n: nat)
    requires Distinct(cache) && WellFormed(cache) && WholePages(disk) && InSequence(cache)
    requires InOrder(cache, cursor / PAGE_SIZE, PagesUpTo(cursor + n))
    ensures RightFor(PagedIn(cache, disk, cursor / PAGE_SIZE, PagesUpTo(cursor + n)), cursor, n)
  {
    hide InSequence, InOrder, PageOf, HasPage, Distinct, WellFormed;
    var from, upto := cursor / PAGE_SIZE, PagesUpTo(cursor + n);
    PagedInSorted(cache, disk, from, upto);
    forall q: nat | from <= q < upto ensures HasPage(PagedIn(cache, disk, from, upto), q) { PagedInShows(cache, disk, from, upto, q); }
    SortedIsRight(PagedIn(cache, disk, from, upto), from, upto);
  }

  /** The bytes of a file after a write of n bytes: those written, what new frames held, and
      otherwise what was there. */
  ghost function Written(cache: seq<CachePage>, disk: Disk, frames: Disk, r: Ranges, user: seq<Byte>, cursor: nat, buf: nat, n: nat, x: nat): Byte
    requires WellFormed(cache) && WholePages(disk) && WholePages(frames) && buf + n <= |user|
  {
    if cursor <= x < cursor + n then user[buf + x - cursor]
    else if r.newFrom <= x / PAGE_SIZE < r.newUpto then frames(x / PAGE_SIZE)[x % PAGE_SIZE]
    else Shows(cache, disk, x)
  }

  /** Over the right pages a write shows what it should. */
  lemma RightWrite(cache: seq<CachePage>, cache': seq<CachePage>, disk: Disk, frames: Disk, user: seq<Byte>, cursor: nat, buf: nat, count: nat, length: nat, x: nat)
    requires FileOk(cache, disk, length) && WholePages(frames) && count > 0 && buf + count <= |user|
    requires var c := Prepared(cache, disk, frames, cursor, count, length);
             RightFor(c, cursor, count) && WriteDone(c, cache', Visits(c, cursor, count), user, cursor, buf, count)
    ensures WellFormed(cache')
    ensures Shows(cache', disk, x) == Written(cache, disk, frames, WriteRanges(cursor, count, length), user, cursor, buf, count, x)
  {
    hide RightFor, Prepared, PageOf, HasPage, InSequence, InOrder;
    var c := Prepared(cache, disk, frames, cursor, count, length);
    PreparedShows(cache, disk, frames, cursor, count, length, x / PAGE_SIZE);
    WriteShows(c, cache', disk, user, cursor, buf, count, x);
  }

  class OpenFile {
    const io: FileIo
    const disk: Disk
    var length: nat
    var cursor: nat

    /** Whole pages, no two at one offset, none behind the end of the file. */
    ghost predicate Valid()
      reads this, io
    {
      FileOk(io.cache, disk, length)
    }

    /** A file of `length` bytes, none of it cached, opened at its start. */
    constructor (io: FileIo, disk: Disk, length: nat)
      requires io.cache == [] && WholePages(disk)
      ensures Valid() && this.io == io && this.disk == disk && this.length == length && cursor == 0
    {
      this.io, this.disk, this.length, cursor := io, disk, length, 0;
    }

    /** find_page. */
    method FindPage(p: nat) returns (found: bool)
      ensures found <==> HasPage(io.cache, p)
    {
      var i := 0;
      while i < |io.cache|
        invariant i <= |io.cache| && forall j :: 0 <= j < i ==> io.cache[j].offset != p
      {
        if io.cache[i].offset == p { return true; }
        i := i + 1;
      }
      found := false;
    }

    /** read_file_pages with file_page_in; `broken` are the pages that vfs cannot read. */
    method ReadFilePages(from: nat, upto: nat, broken: set<nat>) returns (r: int)
      requires Distinct(io.cache) && WellFormed(io.cache) && WholePages(disk)
      modifies io`cache
      ensures Distinct(io.cache) && WellFormed(io.cache) && SameBytes(old(io.cache), io.cache, disk)
      ensures r == 0 <==> forall p: nat :: from <= p < upto && p in broken ==> HasPage(old(io.cache), p)
      ensures r != 0 ==> r == EIO
      ensures r == 0 ==> io.cache == PagedIn(old(io.cache), disk, from, upto)
      ensures forall p: nat :: HasPage(io.cache, p) ==> HasPage(old(io.cache), p) || from <= p < upto
    {
      hide Distinct, WellFormed, PageOf, InsertPage, HasPage;
      ghost var was := io.cache;
      var f := from;
      while f < upto
        invariant from <= f && (f <= upto || f == from) && Distinct(io.cache) && WellFormed(io.cache)
        invariant PagedIn(io.cache, disk, f, upto) == PagedIn(was, disk, from, upto) && SameBytes(was, io.cache, disk)
        invariant forall p: nat :: HasPage(io.cache, p) <==> HasPage(was, p) || from <= p < f
        invariant forall p: nat :: from <= p < f && p in broken ==> HasPage(was, p)
      {
        var cached := FindPage(f);
        if !cached {
          if f in broken { return EIO; }
          PageReadIn(io.cache, disk, f);
          io.cache := InsertPage(io.cache, CachePage(f, disk(f)));
        }
        f := f + 1;
      }
      r := 0;
    }

    /** new_file_pages. */
    method NewFilePages(from: nat, upto: nat, frames: Disk, memory: bool) returns (r: int)
      modifies io`cache
      ensures r == (if memory then 0 else ENOMEM)
      ensures io.cache == if memory then WithNew(old(io.cache), frames, from, upto) else old(io.cache)
    {
      hide InsertPage;
      if !memory { return ENOMEM; }
      ghost var was := io.cache;
      var i := 0;
      while from + i < upto
        invariant WithNew(io.cache, frames, from + i, upto) == WithNew(was, frames, from, upto)
        decreases upto - i
      {
        io.cache := InsertPage(io.cache, CachePage(from + i, frames(from + i)));
        i := i + 1;
      }
      r := 0;
    }

    /** sys_read: delivers the bytes of the pages visited at the cursor, up to the end of the
        file; they are those that the file shows if the pages are right. `stuck` is the BUG_ON
        that ends a copy which visits too few. */
    method SysRead(buf: nat, count: int, userOk: bool, broken: set<nat>) returns (r: int, stuck: bool)
      requires Valid() && (count > 0 ==> buf + count <= |io.user|)
      modifies io, `cursor
      ensures Valid() && SameBytes(old(io.cache), io.cache, disk) && length == old(length)
      ensures r <= 0 && !stuck ==> io.user == old(io.user) && cursor == old(cursor)
      ensures r < 0 ==> (r == EINVAL && count < 0) || (r == EFAULT && !userOk) || (r == EIO && broken != {})
      ensures r == 0 ==> count == 0 || cursor >= length
      ensures r > 0 ==> r == if old(cursor) + count > length then length - old(cursor) else count
      ensures r > 0 ==> io.cache == PagedIn(old(io.cache), disk, old(cursor) / PAGE_SIZE, PagesUpTo(old(cursor) + r))
      ensures stuck <==> r > 0 && !EnoughFor(io.cache, old(cursor), r)
      ensures r > 0 && !stuck ==>
                && cursor == old(cursor) + r && |io.user| == old(|io.user|) && r <= count
                && ReadDone(io.cache, Visits(io.cache, old(cursor), r), old(io.user), io.user, old(cursor), buf, r)
                && (RightFor(io.cache, old(cursor), r) ==>
                      forall a :: buf <= a < buf + r ==> io.user[a] == Shows(old(io.cache), disk, old(cursor) + a - buf))
    {
      hide Distinct, WellFormed, PageOf, HasPage, AllBelow, Shows, PagedIn, RightFor, ReadDone, EnoughFor, Visits;
      stuck := false;
      NothingNew(io.cache, disk);
      if count < 0 { return EINVAL, false; }
      if count == 0 { return 0, false; }
      if !userOk { return EFAULT, false; }
      if cursor >= length { return 0, false; }
      ghost var was, user0 := io.cache, io.user;
      var (from, upto, n) := ReadRange(cursor, count, length);
      ReadRangeExact(cursor, count, length);
      r := ReadFilePages(from, upto, broken);
      StillBelow(was, io.cache, from, upto, length);
      if r < 0 { return; }
      ghost var c := io.cache;
      var left := io.CopyCachePages(buf, from, upto, cursor, n, true);
      VisitsAre(c, from, upto, cursor, n);
      if left > 0 { return n, true; }
      ReadFrame(c, Visits(c, cursor, n), user0, io.user, cursor, buf, n);
      if RightFor(c, cursor, n) {
        forall a | buf <= a < buf + n ensures io.user[a] == Shows(was, disk, cursor + a - buf) {
          ReadDelivers(c, disk, user0, io.user, cursor, buf, n, a - buf);
          SameShows(was, c, disk, cursor + a - buf);
        }
      }
      cursor := cursor + n;
      r := n;
    }

    /** sys_write: the bytes of the buffer go to the pages visited at the cursor, which is where
        the file shows them if the pages are right. */
    method SysWrite(buf: nat, count: int, userOk: bool, broken: set<nat>, frames: Disk, memory: bool) returns (r: int, stuck: bool)
      requires Valid() && WholePages(frames) && (count > 0 ==> buf + count <= |io.user|)
      modifies io, `cursor, `length
      ensures !stuck ==> Valid()
      ensures io.user == old(io.user)
      ensures r <= 0 ==> SameBytes(old(io.cache), io.cache, disk) && length == old(length) && cursor == old(cursor)
      ensures r < 0 ==> (r == EINVAL && (count < 0 || !userOk)) || (r == EIO && broken != {}) || (r == ENOMEM && !memory)
      ensures r == 0 ==> count == 0
      ensures r > 0 ==> r == count
      ensures stuck <==> r > 0 && !EnoughFor(Prepared(old(io.cache), disk, frames, old(cursor), count, old(length)), old(cursor), count)
      ensures r > 0 && !stuck ==>
                && cursor == old(cursor) + count && length == NewLength(old(cursor), count, old(length))
                && var c := Prepared(old(io.cache), disk, frames, old(cursor), count, old(length));
                   && WriteDone(c, io.cache, Visits(c, old(cursor), count), io.user, old(cursor), buf, count)
                   && (RightFor(c, old(cursor), count) ==>
                         forall x: nat :: Shows(io.cache, disk, x) == Written(old(io.cache), disk, frames, WriteRanges(old(cursor), count, old(length)), io.user, old(cursor), buf, count, x))
    {
      hide Distinct, WellFormed, PageOf, HasPage, AllBelow, Written, Shows, PagedIn, WithNew, SameBytes, RightFor, WriteDone, EnoughFor, Visits;
      stuck := false;
      NothingNew(io.cache, disk);
      if count < 0 { return EINVAL, false; }
      if count == 0 { return 0, false; }
      if !userOk { return EINVAL, false; }
      ghost var was := io.cache;
      var g := WriteRanges(cursor, count, length);
      ExistingOnly(cursor, count, length);
      PreparedOk(was, disk, frames, cursor, count, length);
      r := ReadFilePages(g.from, g.upto, broken);
      StillBelow(was, io.cache, g.from, g.upto, length);
      if r < 0 { return; }
      r := NewFilePages(g.newFrom, g.newUpto, frames, memory);
      if r < 0 { return; }
      ghost var c := io.cache;
      var left := io.CopyCachePages(buf, cursor / PAGE_SIZE, PagesUpTo(cursor + count), cursor, count, false);
      VisitsAre(c, cursor / PAGE_SIZE, PagesUpTo(cursor + count), cursor, count);
      r := count;
      if left > 0 { return count, true; }
      WriteKeepsOk(c, io.cache, disk, io.user, cursor, buf, count, NewLength(cursor, count, length));
      if RightFor(c, cursor, count) {
        forall x: nat ensures Shows(io.cache, disk, x) == Written(was, disk, frames, g, io.user, cursor, buf, count, x) {
          RightWrite(was, io.cache, disk, frames, io.user, cursor, buf, count, length, x);
        }
      }
      if cursor + count > length { length := cursor + count; }
      cursor := cursor + count;
    }

    /** A write, a seek back and a read return the bytes written, whatever the alignment of file
        position and buffers, whatever was cached and in whatever order, unless the write gets
        stuck. */
    method WriteThenRead(buf: nat, count: nat, frames: Disk, buf2: nat) returns (stuck: bool)
      requires Valid() && WholePages(frames) && count > 0 && buf + count <= |io.user| && buf2 + count <= |io.user|
      modifies io, `cursor, `length
      ensures stuck <==> !EnoughFor(Prepared(old(io.cache), disk, frames, old(cursor), count, old(length)), old(cursor), count)
      ensures !stuck ==> Valid() && |io.user| == old(|io.user|) && cursor == old(cursor) + count
      ensures !stuck ==> forall a :: buf2 <= a < buf2 + count ==> io.user[a] == old(io.user)[buf + a - buf2]
    {
      hide Distinct, WellFormed, PageOf, HasPage, AllBelow, SameBytes, Shows, Written, RightFor, WriteDone, ReadDone, EnoughFor, Visits, PagedIn, Prepared;
      var at := cursor;
      ghost var c, user0 := Prepared(io.cache, disk, frames, cursor, count, length), io.user;
      PreparedOk(io.cache, disk, frames, cursor, count, length);
      var w, r;
      w, stuck := SysWrite(buf, count, true, {}, frames, true);
      if stuck { return; }
      cursor := at;
      ghost var now := io.cache;
      WrittenVisits(c, now, disk, user0, at, buf, count);
      r, stuck := SysRead(buf2, count, true, {});
      forall a | buf2 <= a < buf2 + count ensures io.user[a] == user0[buf + a - buf2] {
        FileCopy.WriteThenRead(c, now, Visits(c, at, count), user0, user0, io.user, at, buf, buf2, count, a - buf2);
      }
    }
  }

  lemma VisitsAre(cache: seq<CachePage>, from: nat, upto: nat, cursor: nat, n: nat)
    requires from == cursor / PAGE_SIZE && upto == PagesUpTo(cursor + n)
    ensures Visits(cache, cursor, n) == Visit(cache, from, upto, 0) && (EnoughFor(cache, cursor, n) <==> |Visit(cache, from, upto, 0)| >= upto - from)
  {
  }

  lemma WriteKeepsOk(c: seq<CachePage>, now: seq<CachePage>, disk: Disk, user: seq<Byte>, cursor: nat, buf: nat, n: nat, length: nat)
    requires FileOk(c, disk, length) && WriteDone(c, now, Visits(c, cursor, n), user, cursor, buf, n)
    ensures FileOk(now, disk, length)
  {
    SameVisits(c, now, cursor, n);
  }

  /** After a write nothing of its range is missing, and a read visits the same pages. */
  lemma WrittenVisits(c: seq<CachePage>, now: seq<CachePage>, disk: Disk, user: seq<Byte>, cursor: nat, buf: nat, n: nat)
    requires WriteDone(c, now, Visits(c, cursor, n), user, cursor, buf, n)
    requires forall p: nat :: cursor / PAGE_SIZE <= p < PagesUpTo(cursor + n) ==> HasPage(c, p)
    ensures PagedIn(now, disk, cursor / PAGE_SIZE, PagesUpTo(cursor + n)) == now
    ensures Visits(now, cursor, n) == Visits(c, cursor, n) && (EnoughFor(now, cursor, n) <==> EnoughFor(c, cursor, n))
  {
    hide HasPage;
    SameVisits(c, now, cursor, n);
    NothingMissing(now, disk, cursor / PAGE_SIZE, PagesUpTo(cursor + n));
  }

  lemma {:induction false} NothingMissing(cache: seq<CachePage>, disk: Disk, from: nat, upto: nat)
    requires forall p: nat :: from <= p < upto ==> HasPage(cache, p)
    ensures PagedIn(cache, disk, from, upto) == cache
    decreases upto - from
  {
    if from < upto { NothingMissing(cache, disk, from + 1, upto); }
  }

  // ---------------------------------------------------------------------------
  // Writes behind the end
  // ---------------------------------------------------------------------------

  /** Position x of the file after a write is outside the range written and in a new page. */
  predicate Exposed(cursor: nat, count: nat, length: nat, x: nat) {
    var g := WriteRanges(cursor, count, length);
    && (x < length || x < cursor + count) && !(cursor <= x < cursor + count)
    && g.newFrom <= x / PAGE_SIZE < g.newUpto
  }

  /** Such positions, which show what a frame held, exist exactly if the write starts inside a
      page behind the last one of the file; they are those of that page before the cursor. */
  lemma ExposedIff(cursor: nat, count: nat, length: nat)
    requires count > 0
    ensures (exists x: nat :: Exposed(cursor, count, length, x)) <==> cursor / PAGE_SIZE >= PagesUpTo(length) && cursor % PAGE_SIZE != 0
    ensures forall x: nat :: Exposed(cursor, count, length, x) <==>
              cursor / PAGE_SIZE >= PagesUpTo(length) && cursor / PAGE_SIZE * PAGE_SIZE <= x < cursor
  {
    forall x: nat ensures Exposed(cursor, count, length, x) <==> cursor / PAGE_SIZE >= PagesUpTo(length) && cursor / PAGE_SIZE * PAGE_SIZE <= x < cursor {
      ExposedAt(cursor, count, length, x);
    }
    if cursor / PAGE_SIZE >= PagesUpTo(length) && cursor % PAGE_SIZE != 0 {
      assert Exposed(cursor, count, length, cursor / PAGE_SIZE * PAGE_SIZE);
    }
  }

  lemma ExposedAt(cursor: nat, count: nat, length: nat, x: nat)
    requires count > 0
    ensures Exposed(cursor, count, length, x) <==> cursor / PAGE_SIZE >= PagesUpTo(length) && cursor / PAGE_SIZE * PAGE_SIZE <= x < cursor
  {
  }

  /** One byte written at position 5000 of an empty file: position 4096 then belongs to the file
      and shows the first byte of whatever frame the new page got. */
  method HoleShowsFrame(disk: Disk, frames: Disk) returns (f: OpenFile)
    requires WholePages(disk) && WholePages(frames)
    ensures f.Valid() && f.disk == disk && f.length == 5001 && Shows(f.io.cache, disk, 4096) == frames(1)[0]
  {
    hide Shows, RightFor, EnoughFor, Visits, Prepared;
    var io := new FileIo([7]);
    f := new OpenFile(io, disk, 0);
    f.cursor := 5000;
    SortedWriteIsRight([], disk, frames, 5000, 1, 0);
    RightTurns(Prepared([], disk, frames, 5000, 1, 0), 5000, 1);
    var r, stuck := f.SysWrite(0, 1, true, {}, frames, true);
    assert Shows(f.io.cache, disk, 4096) == Written([], disk, frames, WriteRanges(5000, 1, 0), io.user, 5000, 0, 1, 4096);
  }
}
