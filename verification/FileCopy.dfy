/**
 Reading and writing files through the page cache (mm0's file.c): the page ranges of
 sys_read and sys_write, and the copy loop that walks the cached pages of the file and the
 pages of the user buffer at the same time. The loop does not look at the offsets of the
 pages between the two ends, so it is followed over caches in any order.
 */
module FileCopy {
  import opened Basics
  import ListInsert

  const PAGE_SIZE := 4096

  /** A cached page: its offset in the file, in pages, and its bytes. */
  datatype CachePage = CachePage(offset: nat, data: seq<Byte>)

  // ---------------------------------------------------------------------------
  // Page ranges
  // ---------------------------------------------------------------------------

  /** __pfn(page_align_up(x)). */
  function PagesUpTo(x: nat): nat {
    (x + PAGE_SIZE - 1) / PAGE_SIZE
  }

  /** Pages from..upto to read in and pages newFrom..newUpto to create. */
  datatype Ranges = Ranges(from: nat, upto: nat, newFrom: nat, newUpto: nat)

  /** sys_write's split of the pages it writes into existing and new ones. */
  function WriteRanges(cursor: nat, count: nat, length: nat): Ranges {
    var wstart, wend, fend := cursor / PAGE_SIZE, PagesUpTo(cursor + count), PagesUpTo(length);
    if wstart < fend then
      if wend < fend then Ranges(wstart, wend, 0, 0) else Ranges(wstart, fend, fend, wend)
    else Ranges(0, 0, wstart, wend)
  }

  /** The two ranges are disjoint and together exactly the pages written; the existing part
      is what lies before the end of the file. */
  lemma WriteRangesExact(cursor: nat, count: nat, length: nat, p: nat)
    requires count > 0
    ensures var r := WriteRanges(cursor, count, length);
            && (r.from <= p < r.upto || r.newFrom <= p < r.newUpto <==> cursor / PAGE_SIZE <= p < PagesUpTo(cursor + count))
            && !(r.from <= p < r.upto && r.newFrom <= p < r.newUpto)
            && (r.from <= p < r.upto ==> p < PagesUpTo(length))
            && (r.newFrom <= p < r.newUpto ==> p >= PagesUpTo(length))
  {
  }

  /** A page is written to just if it holds one of the bytes. */
  lemma WrittenPages(cursor: nat, count: nat, p: nat)
    requires count > 0
    ensures cursor / PAGE_SIZE <= p < PagesUpTo(cursor + count) <==> exists x :: cursor <= x < cursor + count && x / PAGE_SIZE == p
  {
    if cursor / PAGE_SIZE <= p < PagesUpTo(cursor + count) {
      var x := if p * PAGE_SIZE >= cursor then p * PAGE_SIZE else cursor;
      assert cursor <= x < cursor + count && x / PAGE_SIZE == p;
    }
  }

  /** sys_read's page range and the number of bytes it can deliver. */
  function ReadRange(cursor: nat, count: nat, length: nat): (nat, nat, nat)
    requires cursor < length
  {
    var end := PagesUpTo(cursor + count);
    (cursor / PAGE_SIZE,
     if PagesUpTo(length) < end then PagesUpTo(length) else end,
     if cursor + count > length then length - cursor else count)
  }

  /** The pages it reads in are exactly those of the bytes it delivers. */
  lemma ReadRangeExact(cursor: nat, count: nat, length: nat)
    requires cursor < length && count > 0
    ensures var r := ReadRange(cursor, count, length);
            r.1 == PagesUpTo(cursor + r.2) && 0 < r.2 <= count && cursor + r.2 <= length
  {
  }

  // ---------------------------------------------------------------------------
  // The cache
  // ---------------------------------------------------------------------------

  function Offsets(cache: seq<CachePage>): seq<nat> {
    seq(|cache|, i requires 0 <= i < |cache| => cache[i].offset)
  }

  predicate WellFormed(cache: seq<CachePage>) {
    forall i :: 0 <= i < |cache| ==> |cache[i].data| == PAGE_SIZE
  }

  predicate HasPage(cache: seq<CachePage>, p: nat) {
    exists i :: 0 <= i < |cache| && cache[i].offset == p
  }

  /** insert_page_olist. */
  function InsertPage(cache: seq<CachePage>, page: CachePage): seq<CachePage> {
    if cache == [] then [page] else var k := ListInsert.Place(Offsets(cache), page.offset, 0); cache[..k] + [page] + cache[k..]
  }

  lemma InsertPageOrder(cache: seq<CachePage>, page: CachePage)
    requires ListInsert.Sorted(Offsets(cache)) && page.offset !in Offsets(cache)
    ensures ListInsert.Sorted(Offsets(InsertPage(cache, page))) <==> |cache| <= 1 || page.offset > cache[0].offset
  {
    ListInsert.InsertKeepsOrder(Offsets(cache), page.offset);
    assert Offsets(InsertPage(cache, page)) == ListInsert.Inserted(Offsets(cache), page.offset);
  }

  // ---------------------------------------------------------------------------
  // Which pages a copy visits
  // ---------------------------------------------------------------------------

  /** The pages that copy_cache_pages copies to or from, from list position i on: those at or
      behind `from`, up to the first at `upto`. */
  function Visit(cache: seq<CachePage>, from: nat, upto: nat, i: nat): seq<nat>
    requires i <= |cache|
    decreases |cache| - i
  {
    if i == |cache| then []
    else if cache[i].offset < from then Visit(cache, from, upto, i + 1)
    else if cache[i].offset == upto then []
    else [i] + Visit(cache, from, upto, i + 1)
  }

  predicate Ascending(v: seq<nat>, lo: nat, hi: nat) {
    && (forall j :: 0 <= j < |v| ==> lo <= v[j] < hi)
    && (forall j, l :: 0 <= j < l < |v| ==> v[j] < v[l])
  }

  lemma {:induction false} VisitShape(cache: seq<CachePage>, from: nat, upto: nat, i: nat) returns (v: seq<nat>)
    requires i <= |cache|
    ensures v == Visit(cache, from, upto, i) && Ascending(v, i, |cache|)
    decreases |cache| - i
  {
    v := Visit(cache, from, upto, i);
    if i < |cache| { var w := VisitShape(cache, from, upto, i + 1); }
  }

  /** The k-th of them is the k-th page of the range. */
  predicate Right(cache: seq<CachePage>, from: nat, upto: nat) {
    var v := Visit(cache, from, upto, 0);
    |v| >= upto - from && forall j :: 0 <= j < upto - from ==> v[j] < |cache| && cache[v[j]].offset == from + j
  }

  predicate InSequence(cache: seq<CachePage>) {
    forall i, j :: 0 <= i < j < |cache| ==> cache[i].offset < cache[j].offset
  }

  /** Offsets below i are below p, which is at or behind i. */
  predicate Reached(cache: seq<CachePage>, i: nat, p: nat)
    requires i <= |cache|
  {
    forall l :: 0 <= l < i ==> cache[l].offset < p
  }

  /** In a sorted cache that has the pages of the range they are visited in order. */
  lemma {:induction false} SortedVisits(cache: seq<CachePage>, from: nat, p: nat, upto: nat, i: nat)
    requires InSequence(cache) && i <= |cache| && from <= p <= upto && Reached(cache, i, p)
    requires forall q :: p <= q < upto ==> HasPage(cache, q)
    requires p > from ==> forall l :: i <= l < |cache| ==> cache[l].offset >= p
    ensures var v := Visit(cache, from, upto, i);
            |v| >= upto - p && forall j :: 0 <= j < upto - p ==> v[j] < |cache| && cache[v[j]].offset == p + j
    decreases |cache| - i
  {
    if p < upto {
      assert HasPage(cache, p);
      var k :| 0 <= k < |cache| && cache[k].offset == p;
      assert i <= k;
      if cache[i].offset < from {
        SortedVisits(cache, from, p, upto, i + 1);
      } else {
        assert i == k;
        SortedVisits(cache, from, p + 1, upto, i + 1);
        var v := Visit(cache, from, upto, i);
        assert v[1..] == Visit(cache, from, upto, i + 1);
        forall j | 0 <= j < upto - p ensures v[j] < |cache| && cache[v[j]].offset == p + j {
          if j > 0 { assert v[j] == v[1..][j - 1]; }
        }
      }
    }
  }

  /** So a sorted cache that has the range is right. */
  lemma SortedIsRight(cache: seq<CachePage>, from: nat, upto: nat)
    requires InSequence(cache) && from <= upto && forall q :: from <= q < upto ==> HasPage(cache, q)
    ensures Right(cache, from, upto)
  {
    SortedVisits(cache, from, from, upto, 0);
  }

  // ---------------------------------------------------------------------------
  // What a copy does
  // ---------------------------------------------------------------------------

  /** Which visited page the byte at file position x goes to or comes from. */
  function Turn(cursor: nat, x: nat): nat
    requires cursor <= x
  {
    x / PAGE_SIZE - cursor / PAGE_SIZE
  }

  predicate Pages(cache: seq<CachePage>, v: seq<nat>) {
    WellFormed(cache) && Ascending(v, 0, |cache|)
  }

  /** n buffer bytes came from the visited pages; no other changed. */
  ghost predicate ReadDone(cache: seq<CachePage>, v: seq<nat>, user: seq<Byte>, user': seq<Byte>, cursor: nat, buf: nat, n: nat) {
    && |user'| == |user| && buf + n <= |user| && Pages(cache, v)
    && (n > 0 ==> Turn(cursor, cursor + n - 1) < |v|)
    && (forall a {:trigger user'[a]} :: 0 <= a < |user| ==>
          user'[a] == if buf <= a < buf + n
                      then Cached(cache, v, Turn(cursor, cursor + a - buf), (cursor + a - buf) % PAGE_SIZE) else user[a])
  }

  /** Byte k of the j-th visited page. */
  function Cached(cache: seq<CachePage>, v: seq<nat>, j: nat, k: nat): Byte {
    if j < |v| && v[j] < |cache| && k < |cache[v[j]].data| then cache[v[j]].data[k] else 0
  }

  /** The file position that byte k of the j-th visited page stands for. */
  function Stands(cursor: nat, j: nat, k: nat): nat {
    (cursor / PAGE_SIZE + j) * PAGE_SIZE + k
  }

  /** n bytes of the visited pages came from the buffer; no other changed. */
  ghost predicate WriteDone(cache: seq<CachePage>, cache': seq<CachePage>, v: seq<nat>, user: seq<Byte>, cursor: nat, buf: nat, n: nat) {
    && |cache'| == |cache| && buf + n <= |user| && Pages(cache, v) && WellFormed(cache')
    && (n > 0 ==> Turn(cursor, cursor + n - 1) < |v|)
    && (forall i :: 0 <= i < |cache| ==> cache'[i].offset == cache[i].offset && (i !in v ==> cache'[i] == cache[i]))
    && (forall j, k {:trigger Cached(cache', v, j, k)} :: 0 <= j < |v| && 0 <= k < PAGE_SIZE ==>
          Cached(cache', v, j, k) ==
          if cursor <= Stands(cursor, j, k) < cursor + n then user[buf + Stands(cursor, j, k) - cursor] else Cached(cache, v, j, k))
  }

  /** A write and a read over the same pages: the bytes written are the bytes read back, in
      whatever order the pages are and whatever the alignment of the buffers. */
  lemma WriteThenRead(cache: seq<CachePage>, cache': seq<CachePage>, v: seq<nat>, user: seq<Byte>, user1: seq<Byte>, user2: seq<Byte>,
                      cursor: nat, buf: nat, buf2: nat, n: nat, i: nat)
    requires WriteDone(cache, cache', v, user, cursor, buf, n) && ReadDone(cache', v, user1, user2, cursor, buf2, n) && i < n
    ensures user2[buf2 + i] == user[buf + i]
  {
    var x := cursor + i;
    var j, k := Turn(cursor, x), x % PAGE_SIZE;
    assert user2[buf2 + i] == Cached(cache', v, j, k);
    assert Stands(cursor, j, k) == x;
  }

  // ---------------------------------------------------------------------------
  // The copy loop
  // ---------------------------------------------------------------------------

  function Min(a: nat, b: nat): nat { if a <= b then a else b }

  /** n bytes of `src` from position s on, put into `dst` at position d. */
  function Patch(dst: seq<Byte>, d: nat, src: seq<Byte>, s: nat, n: nat): (r: seq<Byte>)
    requires d + n <= |dst| && s + n <= |src|
    ensures |r| == |dst|
    ensures forall i :: 0 <= i < |dst| ==> r[i] == if d <= i < d + n then src[s + i - d] else dst[i]
  {
    dst[..d] + src[s..s + n] + dst[d + n..]
  }

  lemma ReadMore(cache: seq<CachePage>, v: seq<nat>, user: seq<Byte>, user1: seq<Byte>, cursor: nat, buf: nat, n: nat, j: nat, m: nat)
    requires ReadDone(cache, v, user, user1, cursor, buf, n) && buf + n + m <= |user| && j < |v| && m > 0
    requires Turn(cursor, cursor + n) == j && (cursor + n) % PAGE_SIZE + m <= PAGE_SIZE
    ensures ReadDone(cache, v, user, Patch(user1, buf + n, cache[v[j]].data, (cursor + n) % PAGE_SIZE, m), cursor, buf, n + m)
  {
    var user2 := Patch(user1, buf + n, cache[v[j]].data, (cursor + n) % PAGE_SIZE, m);
    SameTurn(cursor, cursor + n, m - 1);
    forall a | 0 <= a < |user|
      ensures user2[a] == if buf <= a < buf + n + m
                          then Cached(cache, v, Turn(cursor, cursor + a - buf), (cursor + a - buf) % PAGE_SIZE) else user[a]
    {
      var was := user1[a];
      if buf + n <= a < buf + n + m { SameTurn(cursor, cursor + n, a - buf - n); }
    }
  }

  /** Bytes less than the rest of a page behind x have the turn of x. */
  lemma SameTurn(cursor: nat, x: nat, d: nat)
    requires cursor <= x && x % PAGE_SIZE + d < PAGE_SIZE
    ensures Turn(cursor, x + d) == Turn(cursor, x) && (x + d) % PAGE_SIZE == x % PAGE_SIZE + d
  {
  }

  lemma WriteMore(cache: seq<CachePage>, cache1: seq<CachePage>, v: seq<nat>, user: seq<Byte>, cursor: nat, buf: nat, n: nat, j: nat, m: nat)
    requires WriteDone(cache, cache1, v, user, cursor, buf, n) && buf + n + m <= |user| && j < |v| && m > 0
    requires Turn(cursor, cursor + n) == j && (cursor + n) % PAGE_SIZE + m <= PAGE_SIZE
    ensures WriteDone(cache, cache1[v[j] := cache1[v[j]].(data := Patch(cache1[v[j]].data, (cursor + n) % PAGE_SIZE, user, buf + n, m))],
                      v, user, cursor, buf, n + m)
  {
    var p, s := v[j], (cursor + n) % PAGE_SIZE;
    var cache2 := cache1[p := cache1[p].(data := Patch(cache1[p].data, s, user, buf + n, m))];
    SameTurn(cursor, cursor + n, m - 1);
    forall l, k | 0 <= l < |v| && 0 <= k < PAGE_SIZE
      ensures Cached(cache2, v, l, k) ==
              if cursor <= Stands(cursor, l, k) < cursor + n + m then user[buf + Stands(cursor, l, k) - cursor] else Cached(cache, v, l, k)
    {
      var was := Cached(cache1, v, l, k);
      StandsThere(cursor, n, j, l, k);
    }
  }

  /** Where the next byte goes. */
  lemma StandsThere(cursor: nat, n: nat, j: nat, l: nat, k: nat)
    requires k < PAGE_SIZE && Turn(cursor, cursor + n) == j
    ensures l == j ==> Stands(cursor, l, k) == cursor + n + k - (cursor + n) % PAGE_SIZE
    ensures l < j ==> Stands(cursor, l, k) < cursor + n
    ensures l > j ==> Stands(cursor, l, k) >= cursor + n + PAGE_SIZE - (cursor + n) % PAGE_SIZE
  {
  }

  class FileIo {
    var cache: seq<CachePage>
    var user: seq<Byte>

    constructor (user: seq<Byte>)
      ensures cache == [] && this.user == user
    {
      cache, this.user := [], user;
    }

    /** What is done of the copy: n bytes, over the visited pages v. */
    ghost predicate Copied(read: bool, cache0: seq<CachePage>, user0: seq<Byte>, v: seq<nat>, cursor: nat, buf: nat, n: nat)
      reads this
    {
      if read then cache == cache0 && ReadDone(cache0, v, user0, user, cursor, buf, n)
      else user == user0 && WriteDone(cache0, cache, v, user0, cursor, buf, n)
    }

    /** One page of copy_cache_pages, the j-th that is visited: until the page is done or
        nothing is left. */
    method CopyPage(ghost j: nat, ghost v: seq<nat>, page: nat, cursor: nat, buf: nat, done: nat, count: nat, read: bool,
                    ghost cache0: seq<CachePage>, ghost user0: seq<Byte>)
      returns (done': nat)
      requires j < |v| && page == v[j] && done < count && buf + count <= |user0| && Turn(cursor, cursor + done) == j
      requires Copied(read, cache0, user0, v, cursor, buf, done)
      modifies this
      ensures done < done' <= count && Copied(read, cache0, user0, v, cursor, buf, done')
      ensures done' == count || ((cursor + done') % PAGE_SIZE == 0 && Turn(cursor, cursor + done') == j + 1)
    {
      hide ReadDone, WriteDone;
      done' := done;
      var left, empty := count - done, PAGE_SIZE - (cursor + done) % PAGE_SIZE;
      while empty > 0 && left > 0
        invariant done <= done' <= count && left == count - done' && 0 <= empty <= PAGE_SIZE
        invariant empty + (cursor + done') == (cursor / PAGE_SIZE + j + 1) * PAGE_SIZE
        invariant done' == done ==> empty > 0 && left > 0
        invariant Copied(read, cache0, user0, v, cursor, buf, done')
        decreases left
      {
        var size := CopyChunk(j, v, page, cursor, buf, done', left, read, cache0, user0);
        empty := empty - size;
        left := left - size;
        done' := done' + size;
      }
    }

    /** One page_copy: as much as fits the rest, the file page and the user page. */
    method CopyChunk(ghost j: nat, ghost v: seq<nat>, page: nat, cursor: nat, buf: nat, done: nat, left: nat, read: bool,
                     ghost cache0: seq<CachePage>, ghost user0: seq<Byte>)
      returns (size: nat)
      requires j < |v| && page == v[j] && left > 0 && buf + done + left <= |user0| && Turn(cursor, cursor + done) == j
      requires Copied(read, cache0, user0, v, cursor, buf, done)
      modifies this
      ensures 0 < size <= left && size <= PAGE_SIZE - (cursor + done) % PAGE_SIZE && size <= PAGE_SIZE - (buf + done) % PAGE_SIZE
      ensures Copied(read, cache0, user0, v, cursor, buf, done + size)
    {
      hide ReadDone, WriteDone;
      CopiedShapes(cache0, cache, user0, user, v, cursor, buf, done, read);
      var fileOffset, taskOffset := cursor + done, buf + done;
      size := Min(PAGE_SIZE - fileOffset % PAGE_SIZE, left);
      size := Min(size, PAGE_SIZE - taskOffset % PAGE_SIZE);
      if read {
        ReadMore(cache0, v, user0, user, cursor, buf, done, j, size);
        user := Patch(user, taskOffset, cache[page].data, fileOffset % PAGE_SIZE, size);
      } else {
        WriteMore(cache0, cache, v, user, cursor, buf, done, j, size);
        cache := cache[page := cache[page].(data := Patch(cache[page].data, fileOffset % PAGE_SIZE, user, taskOffset, size))];
      }
    }

    /** copy_cache_pages. Nothing is left over exactly if as many pages are visited as the range
        has; if something is, the code stops at a BUG_ON. */
    method CopyCachePages(buf: nat, from: nat, upto: nat, cursor: nat, count: nat, read: bool) returns (left: nat)
      requires from == cursor / PAGE_SIZE && upto == PagesUpTo(cursor + count) && count > 0 && WellFormed(cache) && buf + count <= |user|
      modifies this
      ensures left <= count && (left == 0 <==> |Visit(old(cache), from, upto, 0)| >= upto - from)
      ensures Copied(read, old(cache), old(user), Visit(old(cache), from, upto, 0), cursor, buf, count - left)
    {
      hide ReadDone, WriteDone, Visit, PagesUpTo, Turn, InTurn;
      ghost var cache0, user0, v := cache, user, Visit(cache, from, upto, 0);
      ghost var j;
      left, j := CopyVisited(buf, from, upto, cursor, count, read);
      if left > 0 {
        TooFew(cursor, count - left, count, j, from, upto);
      } else {
        CopiedTurns(cache0, cache, user0, user, v, cursor, buf, count, read);
        Enough(cursor, count, |v|, from, upto);
      }
    }

    /** Its walk over the list; j pages were visited. */
    method CopyVisited(buf: nat, from: nat, upto: nat, cursor: nat, count: nat, read: bool) returns (left: nat, ghost j: nat)
      requires count > 0 && WellFormed(cache) && buf + count <= |user|
      modifies this
      ensures left <= count && InTurn(cursor, count - left, count, j)
      ensures left > 0 ==> j == |Visit(old(cache), from, upto, 0)|
      ensures Copied(read, old(cache), old(user), Visit(old(cache), from, upto, 0), cursor, buf, count - left)
    {
      hide ReadDone, WriteDone, Visit, PagesUpTo, Turn, InTurn;
      ghost var cache0, user0 := cache, user;
      ghost var v := VisitShape(cache, from, upto, 0);
      j := 0;
      NothingDone(cache, v, user, cursor, buf);
      StartsInTurn(cursor, count);
      var done := 0;
      var i := 0;
      while i < |cache|
        invariant 0 <= i <= |cache| == |cache0| && done <= count && j <= |v| && v[j..] == Visit(cache0, from, upto, i)
        invariant InTurn(cursor, done, count, j) && Copied(read, cache0, user0, v, cursor, buf, done)
      {
        CopiedShapes(cache0, cache, user0, user, v, cursor, buf, done, read);
        VisitStep(cache0, from, upto, i);
        if cache[i].offset >= from {
          if cache[i].offset == upto || done == count { break; }
          NextVisited(v, j, i, Visit(cache0, from, upto, i + 1));
          NextTurn(cursor, done, count, j);
          done := CopyPage(j, v, i, cursor, buf, done, count, read, cache0, user0);
          CopiedShapes(cache0, cache, user0, user, v, cursor, buf, done, read);
          j := j + 1;
          StaysInTurn(cursor, done, count, j);
        }
        i := i + 1;
      }
      if i == |cache0| { VisitEnd(cache0, from, upto); }
      left := count - done;
    }
  }

  /** After j pages: at the start, at the end, or at the start of the next page. */
  ghost predicate InTurn(cursor: nat, done: nat, count: nat, j: nat) {
    if j == 0 then done == 0 else done == count || ((cursor + done) % PAGE_SIZE == 0 && Turn(cursor, cursor + done) == j)
  }

  lemma StartsInTurn(cursor: nat, count: nat)
    ensures InTurn(cursor, 0, count, 0)
  {
  }

  lemma NextTurn(cursor: nat, done: nat, count: nat, j: nat)
    requires InTurn(cursor, done, count, j) && done < count
    ensures Turn(cursor, cursor + done) == j
  {
  }

  lemma StaysInTurn(cursor: nat, done: nat, count: nat, j: nat)
    requires j > 0 && (done == count || ((cursor + done) % PAGE_SIZE == 0 && Turn(cursor, cursor + done) == j))
    ensures InTurn(cursor, done, count, j)
  {
  }

  lemma TooFew(cursor: nat, done: nat, count: nat, j: nat, from: nat, upto: nat)
    requires InTurn(cursor, done, count, j) && done < count && from == cursor / PAGE_SIZE && upto == PagesUpTo(cursor + count)
    ensures j < upto - from
  {
    LastTurn(cursor, count);
  }

  lemma Enough(cursor: nat, count: nat, n: nat, from: nat, upto: nat)
    requires count > 0 && from == cursor / PAGE_SIZE && upto == PagesUpTo(cursor + count) && Turn(cursor, cursor + count - 1) < n
    ensures n >= upto - from
  {
    LastTurn(cursor, count);
  }

  lemma NextVisited(v: seq<nat>, j: nat, i: nat, w: seq<nat>)
    requires j <= |v| && v[j..] == [i] + w
    ensures j < |v| && v[j] == i && v[j + 1..] == w
  {
    assert v[j..][0] == i;
    assert v[j + 1..] == v[j..][1..];
  }

  lemma VisitStep(cache: seq<CachePage>, from: nat, upto: nat, i: nat)
    requires i < |cache|
    ensures var v, w := Visit(cache, from, upto, i), Visit(cache, from, upto, i + 1);
            v == if cache[i].offset < from then w else if cache[i].offset == upto then [] else [i] + w
  {
  }

  lemma VisitEnd(cache: seq<CachePage>, from: nat, upto: nat)
    ensures Visit(cache, from, upto, |cache|) == []
  {
  }

  /** The last byte of the copy has the last turn of the range. */
  lemma LastTurn(cursor: nat, count: nat)
    requires count > 0
    ensures Turn(cursor, cursor + count - 1) == PagesUpTo(cursor + count) - cursor / PAGE_SIZE - 1
  {
  }

  /** Either way, pages are whole and the order of the cache is that of the start. */
  lemma CopiedShapes(cache0: seq<CachePage>, cache: seq<CachePage>, user0: seq<Byte>, user: seq<Byte>, v: seq<nat>, cursor: nat, buf: nat, done: nat, read: bool)
    requires if read then cache == cache0 && ReadDone(cache0, v, user0, user, cursor, buf, done)
             else user == user0 && WriteDone(cache0, cache, v, user0, cursor, buf, done)
    ensures WellFormed(cache) && |cache| == |cache0| && |user| == |user0| && forall i :: 0 <= i < |cache| ==> cache0[i].offset == cache[i].offset
    ensures forall j :: 0 <= j < |v| ==> v[j] < |cache|
  {
  }

  lemma CopiedTurns(cache0: seq<CachePage>, cache: seq<CachePage>, user0: seq<Byte>, user: seq<Byte>, v: seq<nat>, cursor: nat, buf: nat, done: nat, read: bool)
    requires if read then cache == cache0 && ReadDone(cache0, v, user0, user, cursor, buf, done)
             else user == user0 && WriteDone(cache0, cache, v, user0, cursor, buf, done)
    requires done > 0
    ensures Turn(cursor, cursor + done - 1) < |v|
  {
  }

  lemma NothingDone(cache: seq<CachePage>, v: seq<nat>, user: seq<Byte>, cursor: nat, buf: nat)
    requires Pages(cache, v) && buf <= |user|
    ensures ReadDone(cache, v, user, user, cursor, buf, 0) && WriteDone(cache, cache, v, user, cursor, buf, 0)
  {
  }
}
