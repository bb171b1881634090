/**
 The kernel's caches of fixed-size structures (src/lib/memcache.c): a header, a bitmap and
 the elements share one buffer.
 */
module MemCaches {
  import opened Basics
  import opened Bitmaps
  import C = CacheCalls

  /** sizeof(struct mem_cache) and sizeof(int). */
  const HEADER := 52
  const WORD := 4

  // ---------------------------------------------------------------------------
  // align_up
  // ---------------------------------------------------------------------------

  /** x & ~m, bit by bit. */
  function AndNotBits(x: nat, m: nat): nat {
    if x == 0 then 0 else 2 * AndNotBits(x / 2, m / 2) + if x % 2 == 1 && m % 2 == 0 then 1 else 0
  }

  /** align_up(addr, size): (addr + size - 1) & ~(size - 1). */
  function AlignUp(addr: nat, size: nat): nat
    requires size > 0
  {
    AndNotBits(addr + size - 1, size - 1)
  }

  lemma {:induction false} AndNotBounds(x: nat, m: nat)
    ensures AndNotBits(x, m) <= x <= AndNotBits(x, m) + m
  {
    if x != 0 { AndNotBounds(x / 2, m / 2); }
  }

  /** Whatever the size, aligning moves up by less than one size. */
  lemma AlignUpBounds(addr: nat, size: nat)
    requires size > 0
    ensures addr <= AlignUp(addr, size) < addr + size
  {
    AndNotBounds(addr + size - 1, size - 1);
  }

  function Pow2(k: nat): (p: nat)
    ensures p >= 1
  {
    if k == 0 then 1 else 2 * Pow2(k - 1)
  }

  lemma AndNotStep(x: nat, m: nat)
    requires x > 0
    ensures AndNotBits(x, m) == 2 * AndNotBits(x / 2, m / 2) + if x % 2 == 1 && m % 2 == 0 then 1 else 0
  {
  }

  lemma {:induction false} AndNotPow2(x: nat, k: nat) returns (q: nat)
    ensures AndNotBits(x, Pow2(k) - 1) == q * Pow2(k)
    decreases k
  {
    hide AndNotBits;
    if k == 0 {
      q := AndNotZero(x);
    } else if x == 0 {
      q := NoBits(Pow2(k) - 1);
    } else {
      q := AndNotPow2(x / 2, k - 1);
      AndNotStep(x, Pow2(k) - 1);
      Doubled(q, Pow2(k - 1));
    }
  }

  lemma NoBits(m: nat) returns (q: nat)
    ensures AndNotBits(0, m) == q == 0
  {
    q := 0;
  }

  lemma Doubled(q: nat, p: nat)
    ensures 2 * (q * p) == q * (2 * p) && (p > 0 ==> (2 * p - 1) / 2 == p - 1 && (2 * p - 1) % 2 == 1)
  {
  }

  lemma {:induction false} AndNotZero(x: nat) returns (q: nat)
    ensures AndNotBits(x, 0) == q == x
    decreases x
  {
    if x != 0 { var h := AndNotZero(x / 2); }
    q := x;
  }

  /** Alignment is real for powers of two ... */
  lemma AlignsPowersOfTwo(addr: nat, k: nat) returns (q: nat)
    ensures AlignUp(addr, Pow2(k)) == q * Pow2(k)
  {
    q := AndNotPow2(addr, k);
    q := AndNotPow2(addr + Pow2(k) - 1, k);
  }

  /** ... and for no other size: address 1 would not be moved to a multiple. */
  lemma MissesOtherSizes(size: nat)
    requires size > 0 && forall k :: Pow2(k) != size
    ensures 0 < AlignUp(1, size) < size
  {
    var k := LowestBit(size);
    assert Pow2(k) != size;
  }

  /** n & ~(n - 1) is the lowest bit of n: all of n just if n is a power of two. */
  lemma {:induction false} LowestBit(n: nat) returns (k: nat)
    requires n > 0
    ensures AndNotBits(n, n - 1) == Pow2(k) <= n
    ensures AndNotBits(n, n - 1) == n ==> n == Pow2(k)
    decreases n
  {
    if n % 2 == 1 {
      k := 0;
      assert (n - 1) / 2 == n / 2;
      SameBitsVanish(n / 2);
    } else {
      k := LowestBit(n / 2);
      assert (n - 1) / 2 == n / 2 - 1;
      k := k + 1;
    }
  }

  lemma {:induction false} SameBitsVanish(x: nat)
    ensures AndNotBits(x, x) == 0
  {
    if x != 0 { SameBitsVanish(x / 2); }
  }

  // ---------------------------------------------------------------------------
  // Layout
  // ---------------------------------------------------------------------------

  /** Where mem_cache_init puts things: header, bitmap words, elements. */
  datatype Layout = Layout(header: nat, bitmap: nat, bwords: nat, start: nat, end: nat, total: nat, size: nat)

  function BitmapWords(total: nat): nat {
    total / WORD_BITS + if total % WORD_BITS != 0 then 1 else 0
  }

  /** mem_cache_init on the buffer [buf, buf + bytes); None where it refuses. */
  function Init(buf: nat, bytes: nat, size: nat, aligned: bool): Option<Layout>
    requires size > 0
  {
    var header := AlignUp(buf, WORD);
    var room := bytes - (header - buf) - HEADER;
    if room < size then None else Placed(header, room, size, aligned)
  }

  /** The rest of it, when `room` bytes are left behind the header. */
  function Placed(header: nat, room: nat, size: nat, aligned: bool): Option<Layout>
    requires size > 0
  {
    var bwords := BitmapWords(Fit(room, size));
    var area := header + HEADER + bwords * WORD;
    if room - bwords * WORD < size then None
    else
      var start := if aligned then AlignUp(area, size) else area;
      var left := room - bwords * WORD - (start - area);
      if left < 0 then None else Some(Layout(header, header + HEADER, bwords, start, start + left, Fit(left, size), size))
  }

  /** How many structures fit. */
  function Fit(room: nat, size: nat): nat
    requires size > 0
  {
    room / size
  }

  /** Header, bitmap and elements are disjoint and inside the buffer, the bitmap covers
      all elements, and `end` is the end of the buffer. */
  lemma LayoutSound(buf: nat, bytes: nat, size: nat, aligned: bool)
    requires size > 0 && Init(buf, bytes, size, aligned).Some?
    ensures var l := Init(buf, bytes, size, aligned).value;
            && buf <= l.header && l.header + HEADER <= l.bitmap && l.bitmap + l.bwords * WORD <= l.start
            && l.start + size * l.total <= l.end == buf + bytes < l.start + size * (l.total + 1)
            && l.size == size && l.start > 0
            && l.total <= l.bwords * WORD_BITS
            && (aligned ==> l.start == AlignUp(l.bitmap + l.bwords * WORD, size))
  {
    hide AlignUp, Fit;
    AlignUpBounds(buf, WORD);
    var l := Init(buf, bytes, size, aligned).value;
    AlignUpBounds(l.bitmap + l.bwords * WORD, size);
    FitMono(l.end - l.start, bytes - (l.header - buf) - HEADER, size);
    FitBelow(l.end - l.start, size);
  }

  /** A buffer is refused exactly if header, bitmap and one element do not fit; the shift
      for alignment never makes it fail. */
  lemma InitAccepts(buf: nat, bytes: nat, size: nat, aligned: bool)
    requires size > 0
    ensures Init(buf, bytes, size, aligned).Some? <==>
              var room := bytes - (AlignUp(buf, WORD) - buf) - HEADER;
              room >= size && room - BitmapWords(Fit(room, size)) * WORD >= size
  {
    hide AlignUp, Fit;
    AlignUpBounds(buf, WORD);
    var header := AlignUp(buf, WORD);
    var room := bytes - (header - buf) - HEADER;
    if room >= size { AlignUpBounds(header + HEADER + BitmapWords(Fit(room, size)) * WORD, size); }
  }

  lemma FitMono(a: nat, b: nat, d: nat)
    requires d > 0 && a <= b
    ensures Fit(a, d) <= Fit(b, d)
  {
    assert b < d * (b / d + 1);
    FitLess(a, d, b / d + 1);
  }

  lemma FitBelow(a: nat, d: nat)
    requires d > 0
    ensures d * Fit(a, d) <= a < d * (Fit(a, d) + 1)
  {
  }

  // ---------------------------------------------------------------------------
  // mem_cache_bufsize
  // ---------------------------------------------------------------------------

  /** How far align_up moves an address. */
  function Gap(addr: nat, size: nat): nat
    requires size > 0
  {
    AlignUpBounds(addr, size);
    AlignUp(addr, size) - addr
  }

  /** The bytes of n structures and their bitmap. */
  function Payload(size: nat, n: nat): nat {
    BitmapWords(n) * WORD + size * n
  }

  /** mem_cache_bufsize: the buffer size announced for n structures. */
  function BufSize(buf: nat, size: nat, n: nat, aligned: bool): nat
    requires size > 0
  {
    var bytes := Gap(buf, WORD) + HEADER + Payload(size, n);
    bytes + if aligned then Gap(buf + bytes, size) else 0
  }

  /** The bitmap that mem_cache_init reserves in a buffer of that size, in bytes: it divides all
      the room behind the header by the size, the bitmap for n included. */
  function Reserved(buf: nat, size: nat, n: nat, aligned: bool): nat
    requires size > 0
  {
    var area := AlignUp(buf, WORD) + HEADER;
    BitmapWords(Fit(Payload(size, n) + if aligned then Gap(area + Payload(size, n), size) else 0, size)) * WORD
  }

  /** Whether mem_cache_init finds room for n structures in the announced buffer. */
  predicate Suffices(buf: nat, size: nat, n: nat, aligned: bool)
    requires size > 0
  {
    var l := Init(buf, BufSize(buf, size, n, aligned), size, aligned);
    l.Some? && l.value.total >= n
  }

  /** Without alignment the announced size takes n structures exactly if the bitmap that init
      reserves is no larger than the one for n. */
  lemma BufSizeSuffices(buf: nat, size: nat, n: nat)
    requires size > 0 && n > 0
    ensures Suffices(buf, size, n, false) <==> Reserved(buf, size, n, false) == BitmapWords(n) * WORD
  {
    hide AlignUp, Fit;
    AlignUpBounds(buf, WORD);
    var room := BitmapWords(n) * WORD + size * n;
    ReservedGrows(size, n, room);
    MulAtLeast(size, n);
    var left := room - BitmapWords(Fit(room, size)) * WORD;
    if left >= 0 { FitAtLeast(left, size, n); }
  }

  lemma ReservedGrows(size: nat, n: nat, room: nat)
    requires size > 0 && room >= size * n
    ensures BitmapWords(n) <= BitmapWords(Fit(room, size))
  {
    hide Fit;
    FitExact(size, n);
    FitMono(size * n, room, size);
    WordsMono(n, Fit(room, size));
  }

  lemma FitAtLeast(a: nat, size: nat, n: nat)
    requires size > 0
    ensures Fit(a, size) >= n <==> a >= size * n
  {
    hide Fit;
    if a < size * n {
      FitLess(a, size, n);
    } else {
      FitExact(size, n);
      FitMono(size * n, a, size);
    }
  }

  /** With `room` bytes behind the header, p of them asked for by n structures. */
  lemma PlacedTakes(header: nat, room: nat, size: nat, n: nat, p: nat)
    requires size > 0 && p == size * n && room >= p >= size
    ensures var l := Placed(header, room, size, true);
            (l.Some? && l.value.total >= n) <==>
            AlignUp(header + HEADER + BitmapWords(Fit(room, size)) * WORD, size) + p <= header + HEADER + room
  {
    hide AlignUp, Fit, BitmapWords;
    var area := header + HEADER + BitmapWords(Fit(room, size)) * WORD;
    AlignUpBounds(area, size);
    var left := header + HEADER + room - AlignUp(area, size);
    if left >= 0 { FitAtLeast(left, size, n); }
  }

  /** With alignment, for any size: exactly if n structures from the aligned end of the bitmap
      that init reserves end where the announced buffer does, or before. */
  lemma AlignedBufSizeSuffices(buf: nat, size: nat, n: nat)
    requires size > 0 && n > 0
    ensures var area := AlignUp(buf, WORD) + HEADER;
            Suffices(buf, size, n, true) <==>
            AlignUp(area + Reserved(buf, size, n, true), size) + size * n <= AlignUp(area + BitmapWords(n) * WORD + size * n, size)
  {
    hide AlignUp, Fit, BitmapWords, Placed;
    AlignUpBounds(buf, WORD);
    var header, payload := AlignUp(buf, WORD), Payload(size, n);
    AlignUpBounds(header + HEADER + payload, size);
    MulAtLeast(size, n);
    PlacedTakes(header, payload + Gap(header + HEADER + payload, size), size, n, size * n);
  }

  /** For powers of two: exactly if both bitmaps end at the same aligned address. */
  lemma PowerOfTwoBufSize(buf: nat, k: nat, n: nat)
    requires n > 0
    ensures var area := AlignUp(buf, WORD) + HEADER;
            Suffices(buf, Pow2(k), n, true) <==>
            AlignUp(area + Reserved(buf, Pow2(k), n, true), Pow2(k)) == AlignUp(area + BitmapWords(n) * WORD, Pow2(k))
  {
    hide AlignUp, Fit, Pow2, Suffices, Reserved;
    var size := Pow2(k);
    var area := AlignUp(buf, WORD) + HEADER;
    AlignedBufSizeSuffices(buf, size, n);
    AlignShift(area + BitmapWords(n) * WORD, k, n);
    ReservedAtLeast(buf, size, n);
    AlignMono(area + BitmapWords(n) * WORD, area + Reserved(buf, size, n, true), k);
  }

  lemma ReservedAtLeast(buf: nat, size: nat, n: nat)
    requires size > 0
    ensures Reserved(buf, size, n, true) >= BitmapWords(n) * WORD
  {
    hide AlignUp, Fit;
    var area := AlignUp(buf, WORD) + HEADER;
    AlignUpBounds(area + BitmapWords(n) * WORD + size * n, size);
    ReservedGrows(size, n, AlignUp(area + BitmapWords(n) * WORD + size * n, size) - area);
  }

  /** Aligning to a power of two gives the only multiple that is not below the address and less
      than one size above it. */
  lemma AlignIsLeast(addr: nat, k: nat, q: nat)
    requires addr <= q * Pow2(k) < addr + Pow2(k)
    ensures AlignUp(addr, Pow2(k)) == q * Pow2(k)
  {
    hide AlignUp, Pow2;
    var r := AlignsPowersOfTwo(addr, k);
    AlignUpBounds(addr, Pow2(k));
    if r < q {
      MultiplesApart(Pow2(k), r, q);
    } else if q < r {
      MultiplesApart(Pow2(k), q, r);
    }
  }

  lemma MultiplesApart(p: nat, a: nat, b: nat)
    requires a < b
    ensures a * p + p <= b * p
  {
    MulMono(p, a + 1, b);
  }

  lemma AlignShift(addr: nat, k: nat, n: nat)
    ensures AlignUp(addr + Pow2(k) * n, Pow2(k)) == AlignUp(addr, Pow2(k)) + Pow2(k) * n
  {
    hide AlignUp, Pow2;
    var q := AlignsPowersOfTwo(addr, k);
    AlignUpBounds(addr, Pow2(k));
    Distribute(q, n, Pow2(k));
    AlignIsLeast(addr + Pow2(k) * n, k, q + n);
  }

  lemma Distribute(q: nat, n: nat, p: nat)
    ensures (q + n) * p == q * p + p * n
  {
  }

  lemma AlignMono(a: nat, b: nat, k: nat)
    requires a <= b
    ensures AlignUp(a, Pow2(k)) <= AlignUp(b, Pow2(k))
  {
    hide AlignUp, Pow2;
    var q := AlignsPowersOfTwo(a, k);
    var r := AlignsPowersOfTwo(b, k);
    AlignUpBounds(a, Pow2(k));
    AlignUpBounds(b, Pow2(k));
    if r < q { MultiplesApart(Pow2(k), r, q); }
  }

  lemma FitExact(size: nat, n: nat)
    requires size > 0
    ensures Fit(size * n, size) == n
  {
    hide Fit;
    FitLess(size * n, size, n + 1);
    FitBelow(size * n, size);
    MulCancel(size, n, Fit(size * n, size) + 1);
  }

  lemma MulCancel(size: nat, a: nat, b: nat)
    requires size * a < size * b
    ensures a < b
  {
    if a >= b { MulMono(size, b, a); }
  }

  lemma MulMono(size: nat, a: nat, b: nat)
    requires a <= b
    ensures size * a <= size * b
  {
  }

  lemma FitLess(a: nat, size: nat, n: nat)
    requires size > 0 && a < size * n
    ensures Fit(a, size) < n
  {
  }

  lemma MulAtLeast(size: nat, n: nat)
    requires n > 0
    ensures size * n >= size
  {
  }

  lemma WordsMono(a: nat, b: nat)
    requires a <= b
    ensures BitmapWords(a) <= BitmapWords(b)
  {
  }

  /** 32 four-byte structures do not fit a buffer of the announced size ... */
  lemma BufSizeFallsShort(buf: nat)
    ensures var l := Init(buf, BufSize(buf, 4, 32, false), 4, false); l.Some? && l.value.total == 31
  {
    hide AlignUp;
    AlignUpBounds(buf, WORD);
  }

  /** ... nor an aligned one, and a single aligned structure of 12 bytes does not either. */
  lemma AlignedBufSizeFallsShort()
    ensures var l := Init(0, BufSize(0, 4, 32, true), 4, true); l.Some? && l.value.total == 31
    ensures var l := Init(0, BufSize(0, 12, 1, true), 12, true); l.Some? && l.value.total == 0
  {
    hide AlignUp;
    AlignsAt4();
    AlignsAt12();
  }

  lemma AlignsAt4()
    ensures AlignUp(0, 4) == 0 && AlignUp(184, 4) == 184 && AlignUp(60, 4) == 60
  {
    hide AlignUp;
    assert Pow2(0) == 1 && Pow2(1) == 2 && Pow2(2) == 4;
    AlignIsLeast(0, 2, 0);
    AlignIsLeast(184, 2, 46);
    AlignIsLeast(60, 2, 15);
  }

  lemma AlignsAt12()
    ensures AlignUp(68, 12) == 68 && AlignUp(56, 12) == 64
  {
    hide AndNotBits;
    var four := AndNotZero(4);
    AndNotStep(9, 1);
    AndNotStep(19, 2);
    AndNotStep(39, 5);
    AndNotStep(79, 11);
    AndNotStep(8, 1);
    AndNotStep(16, 2);
    AndNotStep(33, 5);
    AndNotStep(67, 11);
  }

  /** Every element of an aligned cache of power-of-two size is aligned. */
  lemma ElementsAligned(buf: nat, bytes: nat, k: nat, i: nat) returns (q: nat)
    requires Init(buf, bytes, Pow2(k), true).Some?
    ensures Init(buf, bytes, Pow2(k), true).value.start + Pow2(k) * i == q * Pow2(k)
  {
    hide AlignUp, Pow2, Init;
    LayoutSound(buf, bytes, Pow2(k), true);
    var l := Init(buf, bytes, Pow2(k), true).value;
    q := AlignsPowersOfTwo(l.bitmap + l.bwords * WORD, k);
    Distribute(q, i, Pow2(k));
    q := q + i;
  }

  // ---------------------------------------------------------------------------
  // Allocation
  // ---------------------------------------------------------------------------

  /** The bits set below the limit. */
  ghost function Used(words: seq<bv32>, limit: nat): set<nat>
    requires Fits(words, limit)
  {
    set i: nat | i < limit && Bit(words, i)
  }

  /** Some bit is clear exactly if fewer than all are used. */
  lemma UsedSize(words: seq<bv32>, limit: nat)
    requires Fits(words, limit)
    ensures |Used(words, limit)| <= limit
    ensures |Used(words, limit)| == limit <==> FullRun(words, 0, limit)
  {
    hide Bit;
    C.SubsetSize(Used(words, limit), limit);
    FullIsBelow(words, limit);
  }

  lemma UsedChanges(was: seq<bv32>, now: seq<bv32>, limit: nat, i: nat, value: bool)
    requires Fits(was, limit) && i < limit && Bit(was, i) != value && Changed(was, now, i, 1, value)
    ensures Fits(now, limit) && Used(now, limit) == (if value then Used(was, limit) + {i} else Used(was, limit) - {i})
    ensures |Used(now, limit)| == |Used(was, limit)| + if value then 1 else -1
  {
    hide Bit;
    forall j: nat | j < limit ensures Bit(now, j) <==> if j == i then value else Bit(was, j) {}
  }

  const EINTR := -4

  class MemCache {
    const start: nat
    const end: nat
    const total: nat
    const size: nat
    const words: array<bv32>
    /** The word of memory behind the bitmap. It belongs to the first element or to nobody, so it
        may change at any time. */
    var beyond: bv32
    var free: int

    /** free counts the clear bits below total, and the bits from total on are clear. */
    ghost predicate Valid()
      reads this, words
    {
      && size > 0 && start > 0 && start + size * total <= end < start + size * (total + 1) && Fits(words[..], total)
      && free == total - |Used(words[..], total)|
      && forall j :: total <= j < words.Length * WORD_BITS ==> !Bit(words[..], j)
    }

    /** mem_cache_free lets the address one past the last element through its range check. If all
        bits of the bitmap stand for elements, it then tests and clears a bit behind the bitmap. */
    predicate Strays(addr: nat)
      reads this
    {
      addr == Element(total) && total == words.Length * WORD_BITS && Nth(beyond, 0)
    }

    /** The cache as the run of overlapping calls sees it. */
    ghost function Now(): C.Cache
      requires Fits(words[..], total)
      reads this, words
    {
      C.Cache(total, free, Used(words[..], total))
    }

    /** The address of element i. */
    function Element(i: nat): nat {
      start + size * i
    }

    /** mem_cache_init on a buffer that it accepts; the bitmap starts out clear. */
    constructor (l: Layout)
      requires l.size > 0 && l.start > 0 && l.start + l.size * l.total <= l.end < l.start + l.size * (l.total + 1) && l.total <= l.bwords * WORD_BITS
      ensures Valid() && fresh(words) && start == l.start && end == l.end && total == l.total && size == l.size && words.Length == l.bwords
      ensures free == total && Used(words[..], total) == {}
    {
      start, end, total, size := l.start, l.end, l.total, l.size;
      free := l.total;
      words := new bv32[l.bwords](i => 0);
      new;
      NoneSet(words[..]);
    }

    /** The section of mem_cache_alloc under the mutex. It finds no bit exactly if nothing is
        free any more, whatever the caller saw before it locked; that is the anomaly it stops at. */
    method AllocLocked() returns (bit: int)
      requires Valid()
      modifies `free, words
      ensures Now() == C.Taken(old(Now()))
      ensures bit == (if C.FirstClear(old(Now()), 0).Some? then C.FirstClear(old(Now()), 0).value else -1)
      ensures bit == -1 <==> old(free) == 0
      ensures Valid() <==> bit != -1
    {
      hide Bit, Used, FullRun, C.FirstClear;
      UsedSize(words[..], total);
      free := free - 1;
      bit := FindAndSetFirstFree(words, total);
      TakenIs(old(words[..]), words[..], total, free + 1, bit);
    }

    /** mem_cache_alloc, when nobody comes in between its test and its section: the first
        element that is not in use, 0 when there is none, or the error of an interrupted lock. */
    method Alloc(interrupted: bool) returns (r: int)
      requires Valid()
      modifies `free, words
      ensures Valid()
      ensures r == 0 <==> Used(old(words[..]), total) == C.Below(total)
      ensures r <= 0 ==> words[..] == old(words[..]) && free == old(free) && (r == 0 || (r == EINTR && interrupted))
      ensures r > 0 ==> exists i :: 0 <= i < total && r == Element(i) && i !in Used(old(words[..]), total)
                          && Used(words[..], total) == Used(old(words[..]), total) + {i} && forall j :: 0 <= j < i ==> j in Used(old(words[..]), total)
    {
      hide Bit;
      UsedSize(words[..], total);
      FullIsBelow(words[..], total);
      if free > 0 {
        if interrupted { return EINTR; }
        var bit := AllocLocked();
        assert bit >= 0;
        r := start + size * bit;
        assert r == Element(bit);
      } else {
        r := 0;
      }
    }

    /** mem_cache_free: 0 just for the address of an element in use. Only an address that strays
        does harm: it frees nothing, clears a bit of somebody's memory and spoils the count. */
    method Free(addr: nat, interrupted: bool) returns (r: int)
      requires Valid()
      modifies `free, `beyond, words
      ensures r == 0 && !old(Strays(addr)) ==>
                exists i :: 0 <= i < total && addr == Element(i) && i in Used(old(words[..]), total)
                            && Now() == C.Given(old(Now()), i) && Used(words[..], total) == Used(old(words[..]), total) - {i}
      ensures r != 0 && !old(Strays(addr)) ==> words[..] == old(words[..]) && free == old(free) && (r == -1 || r == EINTR)
      ensures r == -1 ==> forall i :: 0 <= i < total && i in Used(old(words[..]), total) ==> addr != Element(i)
      ensures r == EINTR ==> interrupted && free == old(free)
      ensures !old(Strays(addr)) || r == EINTR ==> beyond == old(beyond)
      ensures old(Strays(addr)) && r != EINTR ==>
                beyond == AndNot(old(beyond), 0) && free == old(free) + 1 && (r == 0 <==> old(free) < total)
      ensures old(Strays(addr)) ==> words[..] == old(words[..])
      ensures Valid() <==> !old(Strays(addr)) || r == EINTR
    {
      hide Bit, Nth, AndNot, Test;
      UsedSize(words[..], total);
      ElementsInside();
      if addr < start || addr > end {
        EndInside();
        return -1;
      }
      var bit := (addr - start) / size;
      QuotientFindsElement(addr);
      if start + size * bit != addr { return -1; }
      if interrupted { return EINTR; }
      if bit == total { r := FreeOnePast(); return; }
      BitBelowTotal(bit);
      TotalElsewhere(bit);
      var b := TestBit(words, bit);
      if !b { return -1; }
      ChangedNext(words[..], words[..], bit, 0, false);
      PutBit(words, bit, false);
      UsedChanges(old(words[..]), words[..], total, bit, false);
      UsedSize(words[..], total);
      free := free + 1;
      assert free <= total;
      r := 0;
    }

    /** check_and_clear_bit on bit number `total`, and what follows. */
    method FreeOnePast() returns (r: int)
      requires Valid()
      modifies `free, `beyond
      ensures if old(Strays(Element(total))) then
                beyond == AndNot(old(beyond), 0) && free == old(free) + 1 && r == (if free > total then -1 else 0)
              else r == -1 && free == old(free) && beyond == old(beyond)
    {
      hide Bit, Nth, AndNot, Test;
      var b;
      if total < words.Length * WORD_BITS {
        b := TestBit(words, total);
      } else {
        MaskTests(beyond, 0);
        b := Test(beyond, 0);
        if b { beyond := AndNot(beyond, 0); }
      }
      if !b { return -1; }
      free := free + 1;
      if free > total { return -1; }
      r := 0;
    }

    lemma EndInside()
      requires Valid()
      ensures start <= Element(total) <= end
    {
    }

    lemma TotalElsewhere(bit: nat)
      requires Valid() && bit < total
      ensures Element(bit) != Element(total)
    {
      Products(size, bit, total);
    }

    lemma BitBelowTotal(bit: nat)
      requires Valid() && Element(bit) <= end && bit != total
      ensures bit < total
    {
      if bit > total { Products(size, total, bit); }
    }

    lemma ElementsInside()
      requires Valid()
      ensures forall i :: 0 <= i < total ==> start <= Element(i) && Element(i) + size <= end
    {
      hide Bit, Used;
      forall i | 0 <= i < total ensures start <= Element(i) && Element(i) + size <= end {
        Products(size, i, total);
      }
    }

    lemma QuotientFindsElement(addr: nat)
      requires Valid() && start <= addr
      ensures forall i: nat :: addr == Element(i) ==> i == (addr - start) / size
    {
      forall i: nat | addr == Element(i) ensures i == (addr - start) / size { FitExact(size, i); }
    }

    /** Two elements never overlap. */
    lemma ElementsApart(i: nat, j: nat)
      requires Valid() && i < j
      ensures Element(i) + size <= Element(j)
    {
      Products(size, i, j);
    }
  }

  lemma Products(size: nat, i: nat, j: nat)
    requires i < j
    ensures size * i + size <= size * j && size * i + size == size * (i + 1)
  {
  }

  /** The least clear bit of the words is that of the set of used bits. */
  lemma FoundFirst(words: seq<bv32>, limit: nat, free: int, bit: int)
    requires Fits(words, limit) && bit < limit
    requires bit == -1 <==> FullRun(words, 0, limit)
    requires bit != -1 ==> 0 <= bit && !Bit(words, bit) && FullRun(words, 0, bit)
    ensures var r := C.FirstClear(C.Cache(limit, free, Used(words, limit)), 0);
            bit == if r.Some? then r.value else -1
  {
    hide Bit;
    var r := C.FirstClear(C.Cache(limit, free, Used(words, limit)), 0);
    var used := Used(words, limit);
    assert bit != -1 ==> bit !in used;
    assert r.Some? ==> r.value !in used && !Bit(words, r.value);
    assert r.Some? && bit != -1 ==> forall j: nat :: j < bit ==> j in used;
  }

  lemma TakenIs(was: seq<bv32>, now: seq<bv32>, limit: nat, free: int, bit: int)
    requires Fits(was, limit) && bit < limit && free == limit - |Used(was, limit)|
    requires bit == -1 <==> FullRun(was, 0, limit)
    requires bit == -1 ==> now == was
    requires bit != -1 ==> 0 <= bit && !Bit(was, bit) && FullRun(was, 0, bit) && Changed(was, now, bit, 1, true)
    ensures Fits(now, limit) && C.Cache(limit, free - 1, Used(now, limit)) == C.Taken(C.Cache(limit, free, Used(was, limit)))
    ensures var r := C.FirstClear(C.Cache(limit, free, Used(was, limit)), 0); bit == if r.Some? then r.value else -1
    ensures bit == -1 <==> free == 0
    ensures bit != -1 ==> free - 1 == limit - |Used(now, limit)|
    ensures forall j :: limit <= j < |was| * WORD_BITS ==> Bit(now, j) == Bit(was, j)
  {
    hide Bit, C.FirstClear;
    FoundFirst(was, limit, free, bit);
    UsedSize(was, limit);
    if bit != -1 { UsedChanges(was, now, limit, bit, true); }
  }

  lemma FullIsBelow(words: seq<bv32>, limit: nat)
    requires Fits(words, limit)
    ensures FullRun(words, 0, limit) <==> Used(words, limit) == C.Below(limit)
  {
    hide Bit;
    if Used(words, limit) == C.Below(limit) {
      forall i | 0 <= i < limit ensures Bit(words, i) { assert i in C.Below(limit); }
    }
  }

  /** A cache of 32 eight-byte structures, as mem_cache_init lays it out without alignment. The
      owner of its first element stores an odd number there; then the address behind the last
      element is freed with success, the number changes and the cache counts one element too
      many as free. */
  method OnePastIsFreed() returns (c: MemCache, r: int)
    ensures var l := Init(0, 312, 8, false); l.Some? && c.start == l.value.start && c.total == l.value.total == 32
    ensures r == 0 && c.beyond == 0 && !c.Valid()
  {
    hide Init, Nth, AndNot, Bit, Used;
    ThirtyTwoLaidOut();
    c := AllocatedOnce();
    c.beyond := 1;
    OneIsOdd();
    r := c.Free(c.Element(32), false);
  }

  method AllocatedOnce() returns (c: MemCache)
    ensures fresh(c) && fresh(c.words) && c.Valid() && c.free == 31
    ensures c.start == 56 && c.total == 32 && c.words.Length == 1
  {
    hide Init, Nth, Bit;
    c := new MemCache(Layout(0, 52, 1, 56, 312, 32, 8));
    C.BelowSize(32);
    var a := c.Alloc(false);
    assert a != 0;
    assert exists i :: Used(c.words[..], 32) == {i};
  }

  lemma ThirtyTwoLaidOut()
    ensures Init(0, 312, 8, false) == Some(Layout(0, 52, 1, 56, 312, 32, 8))
  {
    hide AlignUp;
    AlignsAt4();
  }

  lemma OneIsOdd()
    ensures Nth(1, 0) && AndNot(1, 0) == 0
  {
  }
}
