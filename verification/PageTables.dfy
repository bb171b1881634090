/**
 Two-level page tables (src/arch/arm/mapping-common.c) and the flat map from pages to page
 table entries that each address space shows.

 Addresses are page numbers. A first-level table has PGD_ENTRIES slots, a second-level
 one PMD_ENTRIES entries. Slots in `globals` belong to the kernel and are shared.
 */
module PageTables {

  type Space = nat
  type PmdId = nat

  const PGD_ENTRIES := 4096
  const PMD_ENTRIES := 256
  const PAGES := 0x10_0000
  const PAGE_SIZE := 4096
  const ENOMEM := -12
  const ENOMAP := -136

  datatype Pte = NoMap | Small(phys: nat, prot: nat)

  datatype Slot = Fault | Pmd(id: PmdId)

  /** All tables. `units` is what is left of the MAPPOOL capability that second-level
      tables are charged to; `next` names the next table to be allocated. */
  datatype Tables = Tables(globals: set<nat>, spaces: map<Space, seq<Slot>>, pmds: map<PmdId, seq<Pte>>, units: nat, next: PmdId)

  function EmptyPmd(): seq<Pte> {
    seq(PMD_ENTRIES, i => NoMap)
  }

  // ---------------------------------------------------------------------------
  // Shape
  // ---------------------------------------------------------------------------

  ghost predicate SpaceOk(t: Tables, s: Space)
    requires s in t.spaces
  {
    |t.spaces[s]| == PGD_ENTRIES && forall i :: 0 <= i < PGD_ENTRIES && t.spaces[s][i].Pmd? ==> t.spaces[s][i].id in t.pmds
  }

  /** Slot i of s points to the table p. */
  predicate PointsTo(t: Tables, s: Space, i: nat, p: PmdId) {
    s in t.spaces && i < |t.spaces[s]| && t.spaces[s][i] == Pmd(p)
  }

  /** A table that a user slot points to is pointed to by no other slot. */
  ghost predicate Exclusive(t: Tables) {
    forall s, i, r, j, p {:trigger PointsTo(t, s, i, p), PointsTo(t, r, j, p)} ::
      PointsTo(t, s, i, p) && PointsTo(t, r, j, p) && i !in t.globals ==> s == r && i == j
  }

  ghost predicate Ok(t: Tables) {
    && (forall s :: s in t.spaces ==> SpaceOk(t, s))
    && (forall p :: p in t.pmds ==> |t.pmds[p]| == PMD_ENTRIES && p < t.next)
    && Exclusive(t)
  }

  // ---------------------------------------------------------------------------
  // The flat map
  // ---------------------------------------------------------------------------

  /** virt_to_pte_from_pgd. */
  function Lookup(t: Tables, s: Space, v: nat): Pte
    requires v < PAGES
  {
    if s in t.spaces && v / PMD_ENTRIES < |t.spaces[s]| && t.spaces[s][v / PMD_ENTRIES].Pmd?
       && t.spaces[s][v / PMD_ENTRIES].id in t.pmds && v % PMD_ENTRIES < |t.pmds[t.spaces[s][v / PMD_ENTRIES].id]|
    then t.pmds[t.spaces[s][v / PMD_ENTRIES].id][v % PMD_ENTRIES] else NoMap
  }

  predicate User(t: Tables, v: nat) {
    v < PAGES && v / PMD_ENTRIES !in t.globals
  }

  /** Both tables show the same but for page v of s, which now is e. */
  ghost predicate OnePage(t: Tables, t': Tables, s: Space, v: nat, e: Pte) {
    forall r: Space, w: nat {:trigger Lookup(t', r, w)} :: w < PAGES ==> Lookup(t', r, w) == if r == s && w == v then e else Lookup(t, r, w)
  }

  // ---------------------------------------------------------------------------
  // Writing one page
  // ---------------------------------------------------------------------------

  /** A fresh table with the given entries, attached to slot k of s. */
  function Attach(t: Tables, s: Space, k: nat, entries: seq<Pte>): Tables
    requires s in t.spaces && k < |t.spaces[s]| && t.units > 0
  {
    t.(spaces := t.spaces[s := t.spaces[s][k := Pmd(t.next)]],
       pmds := t.pmds[t.next := entries],
       units := t.units - 1, next := t.next + 1)
  }

  function Write(t: Tables, s: Space, v: nat, e: Pte): Tables
    requires s in t.spaces && v / PMD_ENTRIES < |t.spaces[s]| && t.spaces[s][v / PMD_ENTRIES].Pmd?
    requires var p := t.spaces[s][v / PMD_ENTRIES].id; p in t.pmds && |t.pmds[p]| == PMD_ENTRIES
  {
    var p := t.spaces[s][v / PMD_ENTRIES].id;
    t.(pmds := t.pmds[p := t.pmds[p][v % PMD_ENTRIES := e]])
  }

  /** Slot k of s, empty before, now shows the entries; nothing else changes. */
  ghost predicate OneSlot(t: Tables, t': Tables, s: Space, k: nat, entries: seq<Pte>)
    requires |entries| == PMD_ENTRIES
  {
    forall r: Space, w: nat {:trigger Lookup(t', r, w)} :: w < PAGES ==>
      Lookup(t', r, w) == if r == s && w / PMD_ENTRIES == k then entries[w % PMD_ENTRIES] else Lookup(t, r, w)
  }

  lemma AttachFacts(t: Tables, s: Space, k: nat, entries: seq<Pte>)
    requires Ok(t) && s in t.spaces && k < PGD_ENTRIES && SpaceOk(t, s) && t.spaces[s][k] == Fault
    requires t.units > 0 && |entries| == PMD_ENTRIES
    ensures Ok(Attach(t, s, k, entries)) && OneSlot(t, Attach(t, s, k, entries), s, k, entries)
  {
    var t' := Attach(t, s, k, entries);
    forall r | r in t'.spaces ensures SpaceOk(t', r) { assert SpaceOk(t, r); }
    forall r, i, q, j, p | PointsTo(t', r, i, p) && PointsTo(t', q, j, p) && i !in t'.globals ensures r == q && i == j {
      if r in t.spaces { assert SpaceOk(t, r); }
      if q in t.spaces { assert SpaceOk(t, q); }
      if p != t.next { assert PointsTo(t, r, i, p) && PointsTo(t, q, j, p); }
    }
    forall r: Space, w: nat | w < PAGES
      ensures Lookup(t', r, w) == if r == s && w / PMD_ENTRIES == k then entries[w % PMD_ENTRIES] else Lookup(t, r, w)
    {
      if r in t.spaces { assert SpaceOk(t, r); }
    }
  }

  /** A fresh table with a single entry is a change of one page. */
  lemma AttachOne(t: Tables, s: Space, v: nat, e: Pte)
    requires Ok(t) && s in t.spaces && SpaceOk(t, s) && v < PAGES && t.spaces[s][v / PMD_ENTRIES] == Fault && t.units > 0
    ensures var t' := Attach(t, s, v / PMD_ENTRIES, EmptyPmd()[v % PMD_ENTRIES := e]); Ok(t') && OnePage(t, t', s, v, e)
  {
    var entries := EmptyPmd()[v % PMD_ENTRIES := e];
    AttachFacts(t, s, v / PMD_ENTRIES, entries);
  }

  /** Writing the entry that is there changes nothing. */
  lemma SameWrite(pmds: map<PmdId, seq<Pte>>, p: PmdId, i: nat)
    requires p in pmds && i < |pmds[p]|
    ensures pmds[p := pmds[p][i := pmds[p][i]]] == pmds
  {
    assert pmds[p][i := pmds[p][i]] == pmds[p];
  }

  /** Page w of r has the entry of page v of s: both slots point to one table. */
  predicate Aliases(t: Tables, s: Space, v: nat, r: Space, w: nat) {
    && s in t.spaces && v / PMD_ENTRIES < |t.spaces[s]| && t.spaces[s][v / PMD_ENTRIES].Pmd?
    && PointsTo(t, r, w / PMD_ENTRIES, t.spaces[s][v / PMD_ENTRIES].id) && w % PMD_ENTRIES == v % PMD_ENTRIES
  }

  /** Every space that shares the table sees a write. */
  lemma WriteShared(t: Tables, s: Space, v: nat, e: Pte)
    requires Ok(t) && s in t.spaces && SpaceOk(t, s) && v < PAGES && t.spaces[s][v / PMD_ENTRIES].Pmd?
    ensures Ok(Write(t, s, v, e))
    ensures forall r: Space, w: nat {:trigger Lookup(Write(t, s, v, e), r, w)} :: w < PAGES ==>
              Lookup(Write(t, s, v, e), r, w) == if Aliases(t, s, v, r, w) then e else Lookup(t, r, w)
  {
    var t' := Write(t, s, v, e);
    var p := t.spaces[s][v / PMD_ENTRIES].id;
    forall r | r in t'.spaces ensures SpaceOk(t', r) { assert SpaceOk(t, r); }
    forall r, i, q, j, x | PointsTo(t', r, i, x) && PointsTo(t', q, j, x) && i !in t'.globals ensures r == q && i == j {
      assert PointsTo(t, r, i, x) && PointsTo(t, q, j, x);
    }
    forall r: Space, w: nat | w < PAGES ensures Lookup(t', r, w) == if Aliases(t, s, v, r, w) then e else Lookup(t, r, w) {
      if PointsTo(t, r, w / PMD_ENTRIES, p) { assert SpaceOk(t, r); }
    }
  }

  /** A user table is nobody else's. */
  lemma UserAliases(t: Tables, s: Space, v: nat, r: Space, w: nat)
    requires Ok(t) && s in t.spaces && SpaceOk(t, s) && v < PAGES && w < PAGES && (User(t, v) || User(t, w))
    ensures Aliases(t, s, v, r, w) ==> r == s && w == v
    ensures t.spaces[s][v / PMD_ENTRIES].Pmd? ==> Aliases(t, s, v, s, v)
  {
    if Aliases(t, s, v, r, w) {
      var p := t.spaces[s][v / PMD_ENTRIES].id;
      assert PointsTo(t, s, v / PMD_ENTRIES, p) && PointsTo(t, r, w / PMD_ENTRIES, p);
    }
  }

  lemma WriteFacts(t: Tables, s: Space, v: nat, e: Pte)
    requires Ok(t) && s in t.spaces && SpaceOk(t, s) && User(t, v) && t.spaces[s][v / PMD_ENTRIES].Pmd?
    ensures Ok(Write(t, s, v, e)) && OnePage(t, Write(t, s, v, e), s, v, e)
  {
    hide Lookup, Aliases;
    WriteShared(t, s, v, e);
    var t' := Write(t, s, v, e);
    forall r: Space, w: nat | w < PAGES ensures Lookup(t', r, w) == if r == s && w == v then e else Lookup(t, r, w) {
      UserAliases(t, s, v, r, w);
    }
  }

  /** One page mapped or unmapped in a space. */
  datatype Change = Map(s: Space, v: nat, e: Pte) | Unmap(s: Space, v: nat)

  ghost predicate Possible(t: Tables, c: Change) {
    c.s in t.spaces && c.v < PAGES
  }

  /** Mapping attaches a table where there is none, for a unit; without a unit nothing
      happens. Unmapping a page that is not mapped does nothing. */
  ghost function Changed(t: Tables, c: Change): Tables
    requires Ok(t) && Possible(t, c)
  {
    assert SpaceOk(t, c.s);
    var e := if c.Map? then c.e else NoMap;
    if t.spaces[c.s][c.v / PMD_ENTRIES].Pmd? then Write(t, c.s, c.v, e)
    else if c.Map? && t.units > 0 then Attach(t, c.s, c.v / PMD_ENTRIES, EmptyPmd()[c.v % PMD_ENTRIES := e])
    else t
  }

  /** A change shows in one page of one space, or nowhere; but for a kernel page, which may be
      shared, and then no user page shows it. */
  lemma ChangedFacts(t: Tables, c: Change)
    requires Ok(t) && Possible(t, c)
    ensures var t' := Changed(t, c);
            && Ok(t') && t'.globals == t.globals && t'.spaces.Keys == t.spaces.Keys
            && (User(t, c.v) ==> OnePage(t, t', c.s, c.v, if c.Map? then c.e else NoMap) || t' == t)
            && (User(t, c.v) && c.Unmap? ==> OnePage(t, t', c.s, c.v, NoMap))
            && (forall r: Space, w: nat {:trigger Lookup(t', r, w)} :: User(t, w) && !(r == c.s && w == c.v) ==> Lookup(t', r, w) == Lookup(t, r, w))
  {
    hide Ok, OnePage, Lookup, Aliases;
    SpaceIsOk(t, c.s);
    var e := if c.Map? then c.e else NoMap;
    if t.spaces[c.s][c.v / PMD_ENTRIES].Pmd? {
      WriteShared(t, c.s, c.v, e);
      if User(t, c.v) { WriteFacts(t, c.s, c.v, e); }
      forall r: Space, w: nat | User(t, w) && !(r == c.s && w == c.v) ensures Lookup(Changed(t, c), r, w) == Lookup(t, r, w) {
        UserAliases(t, c.s, c.v, r, w);
      }
    } else if c.Map? && t.units > 0 {
      AttachOne(t, c.s, c.v, c.e);
      OnePageElsewhere(t, Changed(t, c), c.s, c.v, c.e);
    } else if c.Unmap? && User(t, c.v) {
      NothingThere(t, c.s, c.v);
    }
  }

  lemma OnePageElsewhere(t: Tables, t': Tables, s: Space, v: nat, e: Pte)
    requires OnePage(t, t', s, v, e)
    ensures forall r: Space, w: nat {:trigger Lookup(t', r, w)} :: w < PAGES && !(r == s && w == v) ==> Lookup(t', r, w) == Lookup(t, r, w)
  {
  }

  lemma NothingThere(t: Tables, s: Space, v: nat)
    requires s in t.spaces && SpaceOk(t, s) && v < PAGES && t.spaces[s][v / PMD_ENTRIES] == Fault
    ensures OnePage(t, t, s, v, NoMap)
  {
  }

  lemma SpaceIsOk(t: Tables, s: Space)
    requires Ok(t) && s in t.spaces
    ensures SpaceOk(t, s)
  {
  }

  // ---------------------------------------------------------------------------
  // Histories
  // ---------------------------------------------------------------------------

  ghost predicate AllPossible(t: Tables, cs: seq<Change>) {
    forall i :: 0 <= i < |cs| ==> Possible(t, cs[i])
  }

  /** The tables after a sequence of changes. */
  ghost function After(t: Tables, cs: seq<Change>): (r: Tables)
    requires Ok(t) && AllPossible(t, cs)
    ensures Ok(r) && r.globals == t.globals && r.spaces.Keys == t.spaces.Keys
  {
    if cs == [] then t
    else
      var t1 := After(t, cs[..|cs| - 1]);
      assert Possible(t, cs[|cs| - 1]);
      ChangedFacts(t1, cs[|cs| - 1]);
      Changed(t1, cs[|cs| - 1])
  }

  /** A user page that no change names shows what it showed, whatever is mapped or unmapped
      elsewhere, kernel pages included. */
  lemma {:induction false} UnnamedPage(t: Tables, cs: seq<Change>, r: Space, w: nat)
    requires Ok(t) && AllPossible(t, cs) && User(t, w) && forall i :: 0 <= i < |cs| ==> cs[i].s != r || cs[i].v != w
    ensures Lookup(After(t, cs), r, w) == Lookup(t, r, w)
    decreases |cs|
  {
    hide Ok, Lookup, Changed;
    if cs != [] {
      var c := cs[|cs| - 1];
      UnnamedPage(t, cs[..|cs| - 1], r, w);
      assert Possible(t, c);
      ChangedFacts(After(t, cs[..|cs| - 1]), c);
    }
  }

  // ---------------------------------------------------------------------------
  // Ranges
  // ---------------------------------------------------------------------------

  /** Page arithmetic wraps around like the 32-bit addresses it stands for. */
  function Plus(v: nat, i: nat): nat
    requires v < PAGES && i <= PAGES
  {
    if v + i < PAGES then v + i else v + i - PAGES
  }

  /** How far w is behind v. */
  function Distance(v: nat, w: nat): nat
    requires v < PAGES && w < PAGES
  {
    if w >= v then w - v else w + PAGES - v
  }

  /** Pages that cover a size in bytes. */
  function PagesFor(bytes: nat): nat {
    bytes / PAGE_SIZE + if bytes % PAGE_SIZE != 0 then 1 else 0
  }

  /** The first k pages from v on map the frames from `phys` on; all else is as in t. */
  ghost predicate Mapped(t: Tables, t': Tables, s: Space, v: nat, phys: nat, prot: nat, k: nat)
    requires v < PAGES && phys < PAGES && k <= PAGES
  {
    forall r: Space, w: nat {:trigger Lookup(t', r, w)} :: w < PAGES ==>
      Lookup(t', r, w) == if r == s && Distance(v, w) < k then Small(Plus(phys, Distance(v, w)), prot) else Lookup(t, r, w)
  }

  /** The changes that add_mapping_space makes for its first k pages. */
  function MapChanges(s: Space, v: nat, phys: nat, prot: nat, k: nat): seq<Change>
    requires v < PAGES && phys < PAGES && k <= PAGES
  {
    if k == 0 then [] else MapChanges(s, v, phys, prot, k - 1) + [Map(s, Plus(v, k - 1), Small(Plus(phys, k - 1), prot))]
  }

  lemma {:induction false} MapChangesPossible(t: Tables, s: Space, v: nat, phys: nat, prot: nat, k: nat)
    requires s in t.spaces && v < PAGES && phys < PAGES && k <= PAGES
    ensures AllPossible(t, MapChanges(s, v, phys, prot, k))
  {
    if k > 0 { MapChangesPossible(t, s, v, phys, prot, k - 1); }
  }

  lemma AfterNext(t: Tables, s: Space, v: nat, phys: nat, prot: nat, k: nat)
    requires Ok(t) && s in t.spaces && v < PAGES && phys < PAGES && k < PAGES
    ensures AllPossible(t, MapChanges(s, v, phys, prot, k)) && AllPossible(t, MapChanges(s, v, phys, prot, k + 1))
    ensures Possible(After(t, MapChanges(s, v, phys, prot, k)), Map(s, Plus(v, k), Small(Plus(phys, k), prot)))
    ensures After(t, MapChanges(s, v, phys, prot, k + 1)) ==
            Changed(After(t, MapChanges(s, v, phys, prot, k)), Map(s, Plus(v, k), Small(Plus(phys, k), prot)))
  {
    hide Ok, Changed;
    MapChangesPossible(t, s, v, phys, prot, k);
    MapChangesPossible(t, s, v, phys, prot, k + 1);
    var cs := MapChanges(s, v, phys, prot, k + 1);
    assert cs[..|cs| - 1] == MapChanges(s, v, phys, prot, k);
  }

  lemma MappedNone(t: Tables, s: Space, v: nat, phys: nat, prot: nat)
    requires Ok(t) && v < PAGES && phys < PAGES
    ensures Mapped(t, t, s, v, phys, prot, 0) && AllPossible(t, MapChanges(s, v, phys, prot, 0))
    ensures After(t, MapChanges(s, v, phys, prot, 0)) == t
  {
  }

  lemma MappedNext(t: Tables, t1: Tables, t2: Tables, s: Space, v: nat, phys: nat, prot: nat, k: nat)
    requires v < PAGES && phys < PAGES && k < PAGES && Mapped(t, t1, s, v, phys, prot, k)
    requires OnePage(t1, t2, s, Plus(v, k), Small(Plus(phys, k), prot))
    ensures Mapped(t, t2, s, v, phys, prot, k + 1)
  {
    hide Lookup;
    forall r: Space, w: nat | w < PAGES
      ensures Lookup(t2, r, w) == if r == s && Distance(v, w) < k + 1 then Small(Plus(phys, Distance(v, w)), prot) else Lookup(t, r, w)
    {
      assert Lookup(t2, r, w) == if r == s && w == Plus(v, k) then Small(Plus(phys, k), prot) else Lookup(t1, r, w);
      assert Distance(v, w) == k <==> w == Plus(v, k);
    }
  }

  /** Whether an entry allows at least the access `prot`. */
  predicate Permits(e: Pte, prot: nat) {
    (if e.Small? then e.prot else 0) >= prot
  }

  // ---------------------------------------------------------------------------
  // Copies
  // ---------------------------------------------------------------------------

  /** A space without user tables, as a new one is before its tables are copied. */
  ghost predicate NoUserTables(t: Tables, s: Space) {
    s in t.spaces && forall i :: 0 <= i < |t.spaces[s]| && i !in t.globals ==> t.spaces[s][i] == Fault
  }

  /** The user pages below slot n of `to` are those of `from`; every other page is as in t. */
  ghost predicate Shows(t: Tables, t': Tables, to: Space, from: Space, n: nat) {
    forall r: Space, w: nat {:trigger Lookup(t', r, w)} :: w < PAGES ==>
      Lookup(t', r, w) == if r == to && w / PMD_ENTRIES < n && w / PMD_ENTRIES !in t.globals then Lookup(t, from, w) else Lookup(t, r, w)
  }

  /** A user slot below n of `to` points to p. */
  ghost predicate Within(t: Tables, to: Space, n: nat, p: PmdId) {
    exists i :: 0 <= i < n && i !in t.globals && PointsTo(t, to, i, p)
  }

  /** What a copy of the slots below n has taken: one table and one unit for each. */
  ghost predicate Took(t: Tables, t': Tables, to: Space, n: nat) {
    && t'.globals == t.globals && t'.spaces.Keys == t.spaces.Keys && to in t.spaces && t'.next >= t.next
    && (forall r :: r in t.spaces && r != to ==> t'.spaces[r] == t.spaces[r])
    && (forall p :: p in t.pmds ==> p in t'.pmds && t'.pmds[p] == t.pmds[p])
    && (forall p :: p in t'.pmds && p !in t.pmds ==> Within(t', to, n, p))
    && |t'.spaces[to]| == |t.spaces[to]|
    && (forall i :: 0 <= i < |t'.spaces[to]| && (n <= i || i in t.globals) ==> t'.spaces[to][i] == t.spaces[to][i])
    && (forall i :: 0 <= i < |t'.spaces[to]| && i !in t.globals && t'.spaces[to][i].Pmd? ==>
          t'.spaces[to][i].id in t'.pmds && t'.spaces[to][i].id !in t.pmds)
    && t'.units + |t'.pmds| == t.units + |t.pmds|
  }

  lemma CopyNext(t: Tables, t1: Tables, to: Space, from: Space, n: nat)
    requires Ok(t) && Ok(t1) && NoUserTables(t, to) && from in t.spaces && to != from && n < PGD_ENTRIES && n !in t.globals
    requires SpaceOk(t, to) && SpaceOk(t, from)
    requires Took(t, t1, to, n) && Shows(t, t1, to, from, n) && t1.units > 0
    requires t.spaces[from][n].Pmd?
    ensures var t2 := Attach(t1, to, n, t.pmds[t.spaces[from][n].id]);
            Ok(t2) && Took(t, t2, to, n + 1) && Shows(t, t2, to, from, n + 1)
  {
    var entries := t.pmds[t.spaces[from][n].id];
    assert SpaceOk(t1, to);
    AttachFacts(t1, to, n, entries);
    var t2 := Attach(t1, to, n, entries);
    TookNext(t, t1, to, n, entries);
    forall r: Space, w: nat | w < PAGES
      ensures Lookup(t2, r, w) == if r == to && w / PMD_ENTRIES < n + 1 && w / PMD_ENTRIES !in t.globals then Lookup(t, from, w) else Lookup(t, r, w)
    {
      var was := Lookup(t1, r, w);
    }
  }

  /** A copy leaves the original and its tables, and all other spaces, as they were. */
  lemma TookKeeps(t: Tables, t1: Tables, to: Space, from: Space, n: nat)
    requires Took(t, t1, to, n) && from in t.spaces && from != to && SpaceOk(t, from) && n <= |t.spaces[from]| == |t.spaces[to]|
    ensures from in t1.spaces && t1.spaces[from] == t.spaces[from] && to in t1.spaces && n <= |t1.spaces[to]| == |t.spaces[to]|
    ensures n < |t.spaces[from]| && t.spaces[from][n].Pmd? ==>
              t.spaces[from][n].id in t1.pmds && t.spaces[from][n].id in t.pmds && t1.pmds[t.spaces[from][n].id] == t.pmds[t.spaces[from][n].id]
    ensures t1.spaces.Keys == t.spaces.Keys && forall s :: s in t1.spaces && s != to ==> t1.spaces[s] == t.spaces[s]
  {
  }

  lemma TookNone(t: Tables, to: Space)
    requires to in t.spaces && NoUserTables(t, to)
    ensures Took(t, t, to, 0)
  {
  }

  lemma ShowsNone(t: Tables, to: Space, from: Space)
    ensures Shows(t, t, to, from, 0)
  {
  }

  lemma TookNext(t: Tables, t1: Tables, to: Space, n: nat, entries: seq<Pte>)
    requires Ok(t) && Ok(t1) && n < PGD_ENTRIES && n !in t.globals && to in t.spaces && SpaceOk(t, to)
    requires Took(t, t1, to, n) && t1.units > 0
    ensures Took(t, Attach(t1, to, n, entries), to, n + 1)
  {
    hide Within, Ok;
    var t2 := Attach(t1, to, n, entries);
    FreshName(t1);
    forall p | p in t2.pmds && p !in t.pmds ensures Within(t2, to, n + 1, p) { WithinNext(t1, to, n, entries, p); }
    assert |t2.pmds| == |t1.pmds| + 1 by {
      assert t2.pmds.Keys == t1.pmds.Keys + {t1.next};
      assert |t2.pmds| == |t2.pmds.Keys| && |t1.pmds| == |t1.pmds.Keys|;
    }
  }

  lemma FreshName(t: Tables)
    requires Ok(t)
    ensures t.next !in t.pmds
  {
  }

  lemma WithinNext(t: Tables, to: Space, n: nat, entries: seq<Pte>, p: PmdId)
    requires to in t.spaces && n < |t.spaces[to]| && n !in t.globals && t.units > 0
    requires p == t.next || Within(t, to, n, p)
    ensures Within(Attach(t, to, n, entries), to, n + 1, p)
  {
    var t2 := Attach(t, to, n, entries);
    if p == t.next {
      assert PointsTo(t2, to, n, p);
    } else {
      var i :| 0 <= i < n && i !in t.globals && PointsTo(t, to, i, p);
      assert PointsTo(t2, to, i, p);
    }
  }

  /** A slot without a table in the original needs no copy. */
  lemma CopySkip(t: Tables, t1: Tables, to: Space, from: Space, n: nat)
    requires NoUserTables(t, to) && from in t.spaces && SpaceOk(t, to) && SpaceOk(t, from) && n < PGD_ENTRIES
    requires Took(t, t1, to, n) && Shows(t, t1, to, from, n) && (n in t.globals || t.spaces[from][n] == Fault)
    ensures Took(t, t1, to, n + 1) && Shows(t, t1, to, from, n + 1)
  {
    forall p | p in t1.pmds && p !in t.pmds ensures Within(t1, to, n + 1, p) { assert Within(t1, to, n, p); }
    forall r: Space, w: nat | w < PAGES
      ensures Lookup(t1, r, w) == if r == to && w / PMD_ENTRIES < n + 1 && w / PMD_ENTRIES !in t.globals then Lookup(t, from, w) else Lookup(t, r, w)
    {
    }
  }

  /** The tables left after the user slots below n of `to` gave theirs back. */
  ghost function Unfreed(t: Tables, to: Space, n: nat): map<PmdId, seq<Pte>>
    requires to in t.spaces
  {
    map p | p in t.pmds && !Within(t, to, n, p) :: t.pmds[p]
  }

  lemma FreeNext(t: Tables, to: Space, n: nat)
    requires Ok(t) && to in t.spaces && SpaceOk(t, to) && n < PGD_ENTRIES
    ensures n in t.globals || t.spaces[to][n] == Fault ==> Unfreed(t, to, n + 1) == Unfreed(t, to, n)
    ensures n !in t.globals && t.spaces[to][n].Pmd? ==>
              var p := t.spaces[to][n].id;
              && p in Unfreed(t, to, n) && Unfreed(t, to, n + 1) == Unfreed(t, to, n) - {p}
              && |Unfreed(t, to, n + 1)| == |Unfreed(t, to, n)| - 1
  {
    forall q | q in t.pmds ensures Within(t, to, n + 1, q) <==> Within(t, to, n, q) || (n !in t.globals && t.spaces[to][n] == Pmd(q)) {
      if n !in t.globals && t.spaces[to][n] == Pmd(q) { assert PointsTo(t, to, n, q); }
    }
    if n !in t.globals && t.spaces[to][n].Pmd? {
      var p := t.spaces[to][n].id;
      assert PointsTo(t, to, n, p);
      assert !Within(t, to, n, p);
      assert Unfreed(t, to, n + 1) == Unfreed(t, to, n) - {p};
      assert Unfreed(t, to, n).Keys == Unfreed(t, to, n + 1).Keys + {p};
      assert |Unfreed(t, to, n)| == |Unfreed(t, to, n).Keys| && |Unfreed(t, to, n + 1)| == |Unfreed(t, to, n + 1).Keys|;
    }
  }

  /** Giving back every user table of `to` leaves the tables there were before the copy. */
  lemma AllFreed(t: Tables, t1: Tables, to: Space, n: nat)
    requires Took(t, t1, to, n) && n <= PGD_ENTRIES && |t.spaces[to]| == PGD_ENTRIES
    ensures Unfreed(t1, to, 0) == t1.pmds && Unfreed(t1, to, PGD_ENTRIES) == t.pmds
  {
    forall p | p in t1.pmds ensures Within(t1, to, PGD_ENTRIES, p) <==> p !in t.pmds {
      if p !in t.pmds { assert Within(t1, to, n, p); }
    }
  }

  lemma TookCount(t: Tables, t1: Tables, to: Space, n: nat)
    requires Took(t, t1, to, n)
    ensures t1.units + |t1.pmds| == t.units + |t.pmds|
  {
  }

  /** After a copy any space may change, in any order and any number of times, by maps and
      unmaps of user and kernel pages. A user page of the copy that no change names shows what
      the original showed at the copy; so does a page of the original. In particular no change
      in one space is ever visible in a user page of the other. */
  lemma CopyStaysApart(t: Tables, t1: Tables, to: Space, from: Space, cs: seq<Change>, w: nat)
    requires Ok(t1) && Took(t, t1, to, PGD_ENTRIES) && Shows(t, t1, to, from, PGD_ENTRIES) && to != from && AllPossible(t1, cs) && User(t, w)
    ensures (forall i :: 0 <= i < |cs| ==> cs[i].s != to || cs[i].v != w) ==> Lookup(After(t1, cs), to, w) == Lookup(t, from, w)
    ensures (forall i :: 0 <= i < |cs| ==> cs[i].s != from || cs[i].v != w) ==> Lookup(After(t1, cs), from, w) == Lookup(t, from, w)
  {
    hide Lookup, Ok, After;
    var a, b := Lookup(t1, to, w), Lookup(t1, from, w);
    if forall i :: 0 <= i < |cs| ==> cs[i].s != to || cs[i].v != w { UnnamedPage(t1, cs, to, w); }
    if forall i :: 0 <= i < |cs| ==> cs[i].s != from || cs[i].v != w { UnnamedPage(t1, cs, from, w); }
  }

  /** How many user tables the slots below n of s point to. */
  function UserTables(t: Tables, s: Space, n: nat): nat
    requires s in t.spaces && n <= |t.spaces[s]|
  {
    if n == 0 then 0 else UserTables(t, s, n - 1) + if n - 1 !in t.globals && t.spaces[s][n - 1].Pmd? then 1 else 0
  }

  lemma {:induction false} UserTablesGrow(t: Tables, s: Space, m: nat, n: nat)
    requires s in t.spaces && m <= n <= |t.spaces[s]|
    ensures UserTables(t, s, m) <= UserTables(t, s, n)
    decreases n
  {
    if m < n { UserTablesGrow(t, s, m, n - 1); }
  }

  lemma PagesForCovers(bytes: nat)
    ensures (PagesFor(bytes) - 1) * PAGE_SIZE < bytes <= PagesFor(bytes) * PAGE_SIZE || (bytes == 0 && PagesFor(bytes) == 0)
  {
  }

  // ---------------------------------------------------------------------------
  // The operations as they run
  // ---------------------------------------------------------------------------

  class AddressSpaces {
    const globals: set<nat>
    var spaces: map<Space, seq<Slot>>
    var pmds: map<PmdId, seq<Pte>>
    var units: nat
    var next: PmdId

    function Now(): Tables
      reads this
    {
      Tables(globals, spaces, pmds, units, next)
    }

    /** virt_to_pte_from_pgd by way of pmd_exists. */
    method VirtToPte(s: Space, v: nat) returns (e: Pte)
      requires Ok(Now()) && s in spaces && v < PAGES
      ensures e == Lookup(Now(), s, v)
    {
      assert SpaceOk(Now(), s);
      var slot := spaces[s][v / PMD_ENTRIES];
      if slot.Pmd? { e := pmds[slot.id][v % PMD_ENTRIES]; } else { e := NoMap; }
    }

    /** pmd_cap_alloc with attach_pmd: pays one unit for a table and hangs it into slot k. */
    method AttachPmd(s: Space, k: nat, entries: seq<Pte>)
      requires s in spaces && k < |spaces[s]| && units > 0
      modifies `spaces, `pmds, `units, `next
      ensures Now() == Attach(old(Now()), s, k, entries)
    {
      units := units - 1;
      pmds := pmds[next := entries];
      spaces := spaces[s := spaces[s][k := Pmd(next)]];
      next := next + 1;
    }

    /** add_mapping_space: maps all pages, or a prefix of them if no unit is left. */
    method AddMapping(s: Space, phys: nat, virt: nat, bytes: nat, prot: nat) returns (r: int, k: nat)
      requires Ok(Now()) && s in spaces && phys < PAGES && virt < PAGES && prot > 0
      requires bytes >= PAGE_SIZE && PagesFor(bytes) <= PAGES
      modifies `spaces, `pmds, `units, `next
      ensures Ok(Now()) && k <= PagesFor(bytes)
      ensures (forall i :: 0 <= i < PagesFor(bytes) ==> User(old(Now()), Plus(virt, i))) ==> Mapped(old(Now()), Now(), s, virt, phys, prot, k)
      ensures AllPossible(old(Now()), MapChanges(s, virt, phys, prot, k)) && Now() == After(old(Now()), MapChanges(s, virt, phys, prot, k))
      ensures r == 0 <==> k == PagesFor(bytes)
      ensures r != 0 ==> r == ENOMEM && units == 0 && s in spaces && |spaces[s]| == PGD_ENTRIES && spaces[s][Plus(virt, k) / PMD_ENTRIES] == Fault
    {
      hide Ok, Lookup, After, Mapped, OnePage;
      ghost var t := Now();
      MappedNone(t, s, virt, phys, prot);
      var npages := bytes / PAGE_SIZE;
      if bytes % PAGE_SIZE != 0 { npages := npages + 1; }
      k := 0;
      while k < npages
        invariant k <= npages && Ok(Now()) && s in spaces
        invariant (forall i :: 0 <= i < npages ==> User(t, Plus(virt, i))) ==> Mapped(t, Now(), s, virt, phys, prot, k)
        invariant AllPossible(t, MapChanges(s, virt, phys, prot, k)) && Now() == After(t, MapChanges(s, virt, phys, prot, k))
      {
        AfterNext(t, s, virt, phys, prot, k);
        ghost var t1 := Now();
        var v := Plus(virt, k);
        var done := SetPage(s, v, Small(Plus(phys, k), prot));
        if !done { return ENOMEM, k; }
        if forall i :: 0 <= i < npages ==> User(t, Plus(virt, i)) {
          assert User(t, Plus(virt, k));
          MappedNext(t, t1, Now(), s, virt, phys, prot, k);
        }
        k := k + 1;
      }
      r := 0;
    }

    /** One round of the loop: write the entry, or attach a fresh table that has it. */
    method SetPage(s: Space, v: nat, e: Pte) returns (done: bool)
      requires Ok(Now()) && s in spaces && v < PAGES
      modifies `spaces, `pmds, `units, `next
      ensures Ok(Now()) && s in spaces && |spaces[s]| == PGD_ENTRIES
      ensures Now() == Changed(old(Now()), Map(s, v, e))
      ensures done && User(old(Now()), v) ==> OnePage(old(Now()), Now(), s, v, e)
      ensures !done ==> Now() == old(Now()) && units == 0 && spaces[s][v / PMD_ENTRIES] == Fault
    {
      assert SpaceOk(Now(), s);
      if spaces[s][v / PMD_ENTRIES] == Fault {
        if units == 0 { return false; }
        AttachOne(Now(), s, v, e);
        AttachPmd(s, v / PMD_ENTRIES, EmptyPmd()[v % PMD_ENTRIES := e]);
      } else {
        WriteShared(Now(), s, v, e);
        if User(Now(), v) { WriteFacts(Now(), s, v, e); }
        var p := spaces[s][v / PMD_ENTRIES].id;
        pmds := pmds[p := pmds[p][v % PMD_ENTRIES := e]];
      }
      assert SpaceOk(Now(), s);
      done := true;
    }

    /** remove_mapping_space: takes the one page away, if it is there. */
    method RemoveMapping(s: Space, v: nat) returns (r: int)
      requires Ok(Now()) && s in spaces && v < PAGES
      modifies `pmds
      ensures Ok(Now()) && (r == ENOMAP <==> Lookup(old(Now()), s, v) == NoMap) && (r == 0 || r == ENOMAP)
      ensures Now() == Changed(old(Now()), Unmap(s, v)) && (User(old(Now()), v) ==> OnePage(old(Now()), Now(), s, v, NoMap))
    {
      assert SpaceOk(Now(), s);
      var slot := spaces[s][v / PMD_ENTRIES];
      if slot == Fault { return ENOMAP; }
      if pmds[slot.id][v % PMD_ENTRIES] == NoMap {
        SameWrite(pmds, slot.id, v % PMD_ENTRIES);
        return ENOMAP;
      }
      WriteShared(Now(), s, v, NoMap);
      if User(Now(), v) { WriteFacts(Now(), s, v, NoMap); }
      pmds := pmds[slot.id := pmds[slot.id][v % PMD_ENTRIES := NoMap]];
      r := 0;
    }

    /** check_mapping_pgd: true just if every page of the range allows the access. */
    method CheckMapping(s: Space, virt: nat, bytes: nat, prot: nat) returns (r: bool)
      requires Ok(Now()) && s in spaces && virt < PAGES && PagesFor(bytes) <= PAGES
      ensures r <==> forall i :: 0 <= i < PagesFor(bytes) ==> Permits(Lookup(Now(), s, Plus(virt, i)), prot)
    {
      hide Ok;
      var npages := PagesFor(bytes);
      var i := 0;
      while i < npages
        invariant i <= npages && forall j :: 0 <= j < i ==> Permits(Lookup(Now(), s, Plus(virt, j)), prot)
      {
        var e := VirtToPte(s, Plus(virt, i));
        if !Permits(e, prot) { return false; }
        i := i + 1;
      }
      r := true;
    }

    /** copy_user_tables into a space that has no user tables yet. */
    method CopyUserTables(to: Space, from: Space) returns (r: int)
      requires Ok(Now()) && to in spaces && from in spaces && to != from && NoUserTables(Now(), to)
      modifies `spaces, `pmds, `units, `next
      ensures |old(spaces)[from]| == PGD_ENTRIES && (r == 0 <==> UserTables(old(Now()), from, PGD_ENTRIES) <= old(units)) && (r == 0 || r == ENOMEM)
      ensures r == 0 ==> Ok(Now()) && Took(old(Now()), Now(), to, PGD_ENTRIES) && Shows(old(Now()), Now(), to, from, PGD_ENTRIES)
      ensures r == ENOMEM ==> pmds == old(pmds) && units == old(units)
      ensures spaces.Keys == old(spaces.Keys) && forall s :: s in spaces && s != to ==> spaces[s] == old(spaces)[s]
    {
      hide Lookup, Within, Shows, Ok, Took;
      ghost var t := Now();
      SpaceIsOk(t, to);
      SpaceIsOk(t, from);
      ShowsNone(t, to, from);
      TookNone(t, to);
      var i := 0;
      while i < PGD_ENTRIES
        invariant i <= PGD_ENTRIES && Ok(Now()) && Took(t, Now(), to, i) && Shows(t, Now(), to, from, i)
        invariant units + UserTables(t, from, i) == t.units
      {
        TookKeeps(t, Now(), to, from, i);
        if i !in globals && spaces[from][i].Pmd? {
          if units == 0 {
            UserTablesGrow(t, from, i + 1, PGD_ENTRIES);
            GiveBack(to, t, i);
            return ENOMEM;
          }
          CopyNext(t, Now(), to, from, i);
          var orig := spaces[from][i].id;
          AttachPmd(to, i, pmds[orig]);
        } else {
          CopySkip(t, Now(), to, from, i);
        }
        i := i + 1;
      }
      TookKeeps(t, Now(), to, from, i);
      r := 0;
    }

    /** The error path: frees the tables of all user slots of `to`. */
    method GiveBack(to: Space, ghost t: Tables, ghost n: nat)
      requires Ok(Now()) && to in spaces && n <= PGD_ENTRIES && Took(t, Now(), to, n) && |t.spaces[to]| == PGD_ENTRIES
      modifies `pmds, `units
      ensures pmds == t.pmds && units == t.units
    {
      hide Within, Unfreed, Took, Ok;
      ghost var t1 := Now();
      SpaceIsOk(t1, to);
      AllFreed(t, t1, to, n);
      TookCount(t, t1, to, n);
      var i := 0;
      while i < PGD_ENTRIES
        invariant i <= PGD_ENTRIES && spaces == t1.spaces && pmds == Unfreed(t1, to, i) && units + |pmds| == t1.units + |t1.pmds|
      {
        FreeNext(t1, to, i);
        if i !in globals && spaces[to][i].Pmd? {
          pmds := pmds - {spaces[to][i].id};
          units := units + 1;
        }
        i := i + 1;
      }
    }
  }
}
