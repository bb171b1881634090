/**
 Bitmaps of 32-bit words as the allocators of the kernel and of mm0 use them: searched,
 set and cleared in place.
 */
module Bitmaps {

  const WORD_BITS := 32

  // ---------------------------------------------------------------------------
  // Words
  // ---------------------------------------------------------------------------

  type Shift = bv5

  /** The position of bit i in its word. */
  function At(i: nat): Shift {
    (i % WORD_BITS) as bv5
  }

  /** BITWISE_GETBIT. */
  function Mask(k: Shift): bv32 {
    1 << k
  }

  function Or(w: bv32, k: Shift): bv32 {
    w | Mask(k)
  }

  function AndNot(w: bv32, k: Shift): bv32 {
    w & !Mask(k)
  }

  predicate Nth(w: bv32, k: Shift) {
    (w >> k) & 1 == 1
  }

  /** The test that the code makes. */
  predicate Test(w: bv32, k: Shift) {
    w & Mask(k) != 0
  }

  lemma MaskTests(w: bv32, k: Shift)
    ensures Test(w, k) <==> Nth(w, k)
  {
  }

  lemma OrSets(w: bv32, k: Shift, j: Shift)
    ensures Nth(Or(w, k), j) <==> j == k || Nth(w, j)
  {
  }

  lemma AndNotClears(w: bv32, k: Shift, j: Shift)
    ensures Nth(AndNot(w, k), j) <==> j != k && Nth(w, j)
  {
  }

  lemma AtIsExact(i: nat, j: nat)
    ensures At(i) == At(j) <==> i % WORD_BITS == j % WORD_BITS
  {
    RoundTrip(i % WORD_BITS);
    RoundTrip(j % WORD_BITS);
  }

  lemma RoundTrip(i: nat)
    requires i < WORD_BITS
    ensures (i as bv5) as nat == i
  {
  }

  // ---------------------------------------------------------------------------
  // Bitmaps
  // ---------------------------------------------------------------------------

  predicate Bit(words: seq<bv32>, i: nat)
    requires i < |words| * WORD_BITS
  {
    Nth(words[i / WORD_BITS], At(i))
  }

  function WithBit(words: seq<bv32>, i: nat): seq<bv32>
    requires i < |words| * WORD_BITS
  {
    words[i / WORD_BITS := Or(words[i / WORD_BITS], At(i))]
  }

  function WithoutBit(words: seq<bv32>, i: nat): seq<bv32>
    requires i < |words| * WORD_BITS
  {
    words[i / WORD_BITS := AndNot(words[i / WORD_BITS], At(i))]
  }

  /** Setting or clearing bit i changes bit i only. */
  lemma BitsExact(words: seq<bv32>, i: nat, j: nat)
    requires i < |words| * WORD_BITS && j < |words| * WORD_BITS
    ensures Bit(WithBit(words, i), j) <==> j == i || Bit(words, j)
    ensures Bit(WithoutBit(words, i), j) <==> j != i && Bit(words, j)
  {
    hide At, Nth, Or, AndNot;
    AtIsExact(i, j);
    OrSets(words[i / WORD_BITS], At(i), At(j));
    AndNotClears(words[i / WORD_BITS], At(i), At(j));
  }

  predicate Fits(words: seq<bv32>, n: nat) {
    n <= |words| * WORD_BITS
  }

  /** Bits first .. first + n are clear. */
  predicate FreeRun(words: seq<bv32>, first: nat, n: nat)
    requires Fits(words, first + n)
  {
    forall i :: first <= i < first + n ==> !Bit(words, i)
  }

  predicate FullRun(words: seq<bv32>, first: nat, n: nat)
    requires Fits(words, first + n)
  {
    forall i :: first <= i < first + n ==> Bit(words, i)
  }

  /** `now` is `was` with exactly the bits of the run set (or cleared). */
  ghost predicate Changed(was: seq<bv32>, now: seq<bv32>, first: nat, n: nat, value: bool) {
    && |now| == |was|
    && forall j {:trigger Bit(now, j)} :: 0 <= j < |was| * WORD_BITS ==>
         (Bit(now, j) <==> if first <= j < first + n then value else Bit(was, j))
  }

  lemma ChangedNext(was: seq<bv32>, now: seq<bv32>, first: nat, n: nat, value: bool)
    requires Changed(was, now, first, n, value) && first + n < |was| * WORD_BITS
    ensures Changed(was, if value then WithBit(now, first + n) else WithoutBit(now, first + n), first, n + 1, value)
  {
    hide Bit;
    var next := if value then WithBit(now, first + n) else WithoutBit(now, first + n);
    forall j: nat | j < |was| * WORD_BITS ensures Bit(next, j) <==> if first <= j < first + n + 1 then value else Bit(was, j) {
      BitsExact(now, first + n, j);
    }
  }

  lemma ZeroWord(k: Shift)
    ensures !Nth(0, k)
  {
  }

  lemma NoneSet(words: seq<bv32>)
    requires forall i :: 0 <= i < |words| ==> words[i] == 0
    ensures forall j: nat :: j < |words| * WORD_BITS ==> !Bit(words, j)
  {
    forall j: nat | j < |words| * WORD_BITS ensures !Bit(words, j) { ZeroWord(At(j)); }
  }

  // ---------------------------------------------------------------------------
  // Operations
  // ---------------------------------------------------------------------------

  method TestBit(words: array<bv32>, i: nat) returns (b: bool)
    requires Fits(words[..], i + 1)
    ensures b == Bit(words[..], i)
  {
    hide Test, Nth, At;
    MaskTests(words[i / WORD_BITS], At(i));
    b := Test(words[i / WORD_BITS], At(i));
  }

  method PutBit(words: array<bv32>, i: nat, value: bool)
    requires Fits(words[..], i + 1)
    modifies words
    ensures words[..] == if value then WithBit(old(words[..]), i) else WithoutBit(old(words[..]), i)
  {
    hide Or, AndNot, At;
    if value {
      words[i / WORD_BITS] := Or(words[i / WORD_BITS], At(i));
    } else {
      words[i / WORD_BITS] := AndNot(words[i / WORD_BITS], At(i));
    }
  }

  /** find_and_set_first_free_bit: the least clear bit below the limit. */
  method FindAndSetFirstFree(words: array<bv32>, limit: nat) returns (r: int)
    requires Fits(words[..], limit)
    modifies words
    ensures r == -1 <==> FullRun(old(words[..]), 0, limit)
    ensures r == -1 ==> words[..] == old(words[..])
    ensures r != -1 ==> 0 <= r < limit && !Bit(old(words[..]), r) && FullRun(old(words[..]), 0, r) && Changed(old(words[..]), words[..], r, 1, true)
  {
    hide Bit;
    var i := 0;
    while i < limit
      invariant i <= limit && words[..] == old(words[..]) && FullRun(words[..], 0, i)
    {
      var b := TestBit(words, i);
      if !b {
        ChangedNext(words[..], words[..], i, 0, true);
        PutBit(words, i, true);
        return i;
      }
      i := i + 1;
    }
    r := -1;
  }

  /** The first set bit at or behind i, or the end of the words. */
  function NextSet(words: seq<bv32>, i: nat): (k: nat)
    requires Fits(words, i)
    ensures i <= k <= |words| * WORD_BITS && FreeRun(words, i, k - i) && (k < |words| * WORD_BITS ==> Bit(words, k))
    decreases |words| * WORD_BITS - i
  {
    if i == |words| * WORD_BITS || Bit(words, i) then i else NextSet(words, i + 1)
  }

  /** Whether a search for no bits at all, now at bit i, ends inside the words: it skips from
      set bit to set bit until it is past the limit. */
  predicate EmptySearchEnds(words: seq<bv32>, limit: nat, i: nat)
    requires Fits(words, i)
    decreases |words| * WORD_BITS - i
  {
    i > limit || (NextSet(words, i) < |words| * WORD_BITS && EmptySearchEnds(words, limit, NextSet(words, i) + 1))
  }

  /** It does exactly if some bit at or behind the limit is set. */
  lemma {:induction false} EmptySearchIff(words: seq<bv32>, limit: nat, i: nat)
    requires Fits(words, limit) && i <= limit
    ensures EmptySearchEnds(words, limit, i) <==> exists j :: limit <= j < |words| * WORD_BITS && Bit(words, j)
    decreases |words| * WORD_BITS - i
  {
    hide Bit;
    var k := NextSet(words, i);
    if k < limit {
      EmptySearchIff(words, limit, k + 1);
    } else if k < |words| * WORD_BITS {
      assert Bit(words, k) && EmptySearchEnds(words, limit, k + 1);
    }
  }

  /** The mask test on memory that goes on behind the words. */
  method TestMemory(words: array<bv32>, beyond: seq<bv32>, i: nat) returns (b: bool)
    requires Fits(words[..] + beyond, i + 1)
    ensures b == Bit(words[..] + beyond, i)
  {
    hide Test, Nth, At;
    var w := if i / WORD_BITS < words.Length then words[i / WORD_BITS] else beyond[i / WORD_BITS - words.Length];
    MaskTests(w, At(i));
    b := Test(w, At(i));
  }

  /** find_and_set_first_free_contig_bits with a count of 0: nothing is ever found. The search
      reads on into the memory behind the words until it meets a set bit past the limit. */
  method FindNone(words: array<bv32>, beyond: seq<bv32>, limit: nat) returns (r: int)
    requires Fits(words[..], limit) && EmptySearchEnds(words[..] + beyond, limit, 0)
    ensures r == -1
  {
    hide Bit;
    ghost var memory := words[..] + beyond;
    var i := 0;
    while i <= limit
      invariant Fits(memory, i) && EmptySearchEnds(memory, limit, i)
      decreases limit + 1 - i
    {
      var last := i;
      ghost var first := i;
      var b := TestMemory(words, beyond, last);
      while !b
        invariant first <= last == i && i < NextSet(memory, first) + 1 && NextSet(memory, i) == NextSet(memory, first)
        invariant NextSet(memory, first) < |memory| * WORD_BITS && b == Bit(memory, last)
        invariant EmptySearchEnds(memory, limit, NextSet(memory, first) + 1)
        decreases NextSet(memory, first) - i
      {
        last := last + 1;
        i := i + 1;
        b := TestMemory(words, beyond, last);
      }
      i := i + 1;
    }
    r := -1;
  }

  /** find_and_set_first_free_contig_bits: the least start of n clear bits. A search for no
      bits finds none; it ends if the memory behind the words, which it reads, has a set bit. */
  method FindAndSetContig(words: array<bv32>, beyond: seq<bv32>, limit: nat, n: nat) returns (r: int)
    requires Fits(words[..], limit) && (n == 0 ==> EmptySearchEnds(words[..] + beyond, limit, 0))
    modifies words
    ensures r == -1 <==> n == 0 || forall f :: 0 <= f && f + n <= limit ==> !FreeRun(old(words[..]), f, n)
    ensures r == -1 ==> words[..] == old(words[..])
    ensures r != -1 ==> 0 <= r && r + n <= limit && FreeRun(old(words[..]), r, n) && Changed(old(words[..]), words[..], r, n, true)
    ensures r != -1 ==> forall f :: 0 <= f < r ==> !FreeRun(old(words[..]), f, n)
  {
    hide Bit;
    r := -1;
    if n > limit { return; }
    if n == 0 {
      r := FindNone(words, beyond, limit);
      return;
    }
    var i := 0;
    while i + n <= limit && r == -1
      invariant words[..] == old(words[..]) && 0 <= i
      invariant r == -1 ==> forall f :: 0 <= f < i && f + n <= limit ==> !FreeRun(words[..], f, n)
      invariant r != -1 ==> 0 <= r && r + n <= limit && FreeRun(words[..], r, n) && forall f :: 0 <= f < r ==> !FreeRun(words[..], f, n)
      decreases limit - i, r == -1
    {
      var first := i;
      var last := i;
      var b := TestBit(words, last);
      while !b && r == -1
        invariant words[..] == old(words[..]) && first <= last == i <= first + n && FreeRun(words[..], first, last - first)
        invariant if r == -1 then last < first + n && b == Bit(words[..], last) else r == first && last == first + n
        decreases first + n - last
      {
        last := last + 1;
        i := i + 1;
        if last == first + n {
          r := first;
        } else {
          b := TestBit(words, last);
        }
      }
      if r == -1 {
        SkipRuns(words[..], first, last, n, limit);
        i := i + 1;
      }
    }
    if r != -1 { SetRun(words, r, n); }
  }

  /** No run of n clear bits starts between first and a set bit less than n behind it. */
  lemma SkipRuns(words: seq<bv32>, first: nat, last: nat, n: nat, limit: nat)
    requires Fits(words, limit) && first <= last < first + n && last < limit && Bit(words, last)
    ensures forall f :: first <= f <= last && f + n <= limit ==> !FreeRun(words, f, n)
  {
  }

  method SetRun(words: array<bv32>, first: nat, n: nat)
    requires Fits(words[..], first + n)
    modifies words
    ensures Changed(old(words[..]), words[..], first, n, true)
  {
    hide Bit;
    var k := 0;
    while k < n
      invariant k <= n && Changed(old(words[..]), words[..], first, k, true)
    {
      ChangedNext(old(words[..]), words[..], first, k, true);
      PutBit(words, first + k, true);
      k := k + 1;
    }
  }

  /** check_and_clear_contig_bits: clears up to the first bit that is clear already. */
  method ClearContig(words: array<bv32>, first: nat, n: nat) returns (r: int, k: nat)
    requires Fits(words[..], first + n)
    modifies words
    ensures r == 0 <==> FullRun(old(words[..]), first, n)
    ensures k <= n && FullRun(old(words[..]), first, k) && Changed(old(words[..]), words[..], first, k, false)
    ensures r == 0 ==> k == n
    ensures r != 0 ==> r == -1 && k < n && !Bit(old(words[..]), first + k)
  {
    hide Bit;
    k := 0;
    while k < n
      invariant k <= n && FullRun(old(words[..]), first, k) && Changed(old(words[..]), words[..], first, k, false)
    {
      var b := TestBit(words, first + k);
      if !b { return -1, k; }
      ChangedNext(old(words[..]), words[..], first, k, false);
      PutBit(words, first + k, false);
      k := k + 1;
    }
    r := 0;
  }
}
