/** The abstract state of the mapped-memory manager: one arena per thread slot, the regions
    obtained from the kernel, and the log of every range handed out (src/mmap_manager.cpp). */
module Bump {
  import opened SizeClass

  datatype Range = Range(base: nat, size: nat)

  /** A range handed out, with the slot whose arena served it. */
  datatype Grant = Grant(slot: nat, range: Range)

  /** The current pool of one slot: `pools_`, `sizes_`, `offsets_`, `firstTouchFlag_`. */
  datatype Arena = Arena(base: nat, size: nat, offset: nat, touched: bool) {
    function All(): Range { Range(base, size) }
    function Rest(): Range { Range(base + offset, if offset <= size then size - offset else 0) }
  }

  /** The pools of all slots, the regions mapped for them, the ranges handed out, and how often a pool was extended. */
  datatype Bump = Bump(page: nat, arenas: seq<Arena>, mapped: seq<Range>, granted: seq<Grant>, extensions: nat)

  predicate Disjoint(r: Range, s: Range) {
    r.size == 0 || s.size == 0 || r.base + r.size <= s.base || s.base + s.size <= r.base
  }

  predicate Inside(r: Range, s: Range) {
    s.base <= r.base && r.base + r.size <= s.base + s.size
  }

  /** `ALIGN(v, n)`. */
  function Align(v: nat, n: nat): (r: nat)
    requires n > 0
  {
    (v + n - 1) / n * n
  }

  lemma AlignBounds(v: nat, n: nat)
    requires n > 0
    ensures v <= Align(v, n) < v + n && Align(v, n) % n == 0
  {
    var q := (v + n - 1) / n;
    assert v + n - 1 == q * n + (v + n - 1) % n;
    MultipleMod(q, n);
  }

  lemma {:induction false} MultipleMod(q: nat, n: nat)
    requires n > 0
    ensures q * n % n == 0
    decreases q
  {
    if q > 0 {
      MultipleMod(q - 1, n);
      assert q * n == (q - 1) * n + n;
      ModPlus((q - 1) * n, n);
    }
  }

  lemma ModPlus(a: nat, n: nat)
    requires n > 0
    ensures (a + n) % n == a % n
  {
    var k := (a + n) / n - a / n - 1;
    assert k * n == a % n - (a + n) % n;
    MultipleIsLarge(k, n);
  }

  lemma MultipleIsLarge(k: int, n: nat)
    ensures k >= 1 ==> k * n >= n
    ensures k <= -1 ==> k * n + n <= 0
  {}

  lemma ModSum(a: nat, b: nat, n: nat)
    requires n > 0 && a % n == 0 && b % n == 0
    ensures (a + b) % n == 0
  {
    var q := a / n + b / n;
    assert a + b == q * n;
    MultipleMod(q, n);
  }

  // ---------------------------------------------------------------- invariant

  /** A pool with its offset inside, mapped and page-aligned, and unused until it is touched. */
  ghost predicate ArenaOk(page: nat, mapped: seq<Range>, a: Arena)
    requires page > 0
  {
    && a.offset <= a.size && a.size % page == 0
    && (a.size > 0 ==> a.All() in mapped && a.base > 0 && a.base % page == 0)
    && (!a.touched ==> a.offset == 0)
  }

  ghost predicate ArenasOk(b: Bump) {
    && b.page > 0
    && (forall i :: 0 <= i < |b.arenas| ==> ArenaOk(b.page, b.mapped, b.arenas[i]))
    && (forall i, j :: 0 <= i < j < |b.arenas| ==> Disjoint(b.arenas[i].All(), b.arenas[j].All()))
  }

  ghost predicate GrantsOk(b: Bump) {
    && (forall g :: 0 <= g < |b.granted| ==>
          && b.granted[g].slot < |b.arenas|
          && (b.granted[g].range.size > 0 ==>
                exists r :: r in b.mapped && Inside(b.granted[g].range, r)))
    && (forall g, i :: 0 <= g < |b.granted| && 0 <= i < |b.arenas| ==>
          Disjoint(b.granted[g].range, b.arenas[i].Rest()))
    && (forall g, h :: 0 <= g < h < |b.granted| ==>
          Disjoint(b.granted[g].range, b.granted[h].range))
  }

  /** Offsets stay inside their pools, pools and grants are pairwise disjoint, and every grant is mapped. */
  ghost predicate BumpInv(b: Bump) {
    ArenasOk(b) && GrantsOk(b)
  }

  /** A region the kernel may return: page-aligned, nonzero, apart from every region mapped before. */
  ghost predicate FreshRegion(b: Bump, r: Range) {
    && b.page > 0
    && r.base % b.page == 0 && r.base > 0
    && (forall s :: s in b.mapped ==> Disjoint(r, s))
  }

  // ---------------------------------------------------------------- one request

  /** Smallest extension: `oneGB >> 4`. */
  const MIN_EXTENSION: nat := 0x400_0000

  function ExtensionSize(page: nat, size: nat): nat
    requires page > 0
  {
    Align(Max(MIN_EXTENSION, size), page)
  }

  predicate Fits(b: Bump, slot: nat, size: nat)
    requires slot < |b.arenas|
  {
    b.arenas[slot].offset + size <= b.arenas[slot].size
  }

  /** A slot's pool after its pages have been touched for the first time. */
  function Touch(b: Bump, slot: nat): Bump
    requires slot < |b.arenas|
  {
    b.(arenas := b.arenas[slot := b.arenas[slot].(touched := true)])
  }

  /** A slot's pool replaced by a new region. */
  function Extend(b: Bump, slot: nat, r: Range): Bump
    requires slot < |b.arenas|
  {
    b.(arenas := b.arenas[slot := Arena(r.base, r.size, 0, b.arenas[slot].touched)],
       mapped := b.mapped + [r], extensions := b.extensions + 1)
  }

  /** The next `size` bytes of a slot's pool. */
  function NextRange(b: Bump, slot: nat, size: nat): Range
    requires slot < |b.arenas|
  {
    Range(b.arenas[slot].base + b.arenas[slot].offset, size)
  }

  /** A slot's offset moved past a range that is handed out. */
  function Advance(b: Bump, slot: nat, size: nat): Bump
    requires slot < |b.arenas|
  {
    b.(arenas := b.arenas[slot := b.arenas[slot].(offset := b.arenas[slot].offset + size)],
       granted := b.granted + [Grant(slot, NextRange(b, slot, size))])
  }

  /** One whole request with extension allowed; `region` is the base of the kernel's answer, if asked. */
  function Request(b: Bump, slot: nat, size: nat, region: nat): Bump
    requires slot < |b.arenas| && b.page > 0
  {
    var t := Touch(b, slot);
    Advance(if Fits(t, slot, size) then t
            else Extend(t, slot, Range(region, ExtensionSize(b.page, size))), slot, size)
  }

  /** One more slot, with an untouched pool. */
  function AddArena(b: Bump, r: Range): Bump {
    b.(arenas := b.arenas + [Arena(r.base, r.size, 0, false)],
       mapped := if r.size > 0 then b.mapped + [r] else b.mapped)
  }

  lemma AddArenaKeepsInv(b: Bump, r: Range)
    requires BumpInv(b) && OffsetsPaged(b) && b.granted == []
    requires r.size % b.page == 0 && (r.size > 0 ==> FreshRegion(b, r))
    ensures BumpInv(AddArena(b, r)) && OffsetsPaged(AddArena(b, r))
  {
    var b' := AddArena(b, r);
    NewArenaOk(b, r);
    forall i | 0 <= i < |b.arenas|
      ensures Disjoint(b.arenas[i].All(), r) && ArenaOk(b'.page, b'.mapped, b'.arenas[i])
    {
      OldArenaOk(b, r, i);
    }
    hide ArenaOk, FreshRegion, Disjoint;
  }

  lemma NewArenaOk(b: Bump, r: Range)
    requires b.page > 0 && r.size % b.page == 0 && (r.size > 0 ==> FreshRegion(b, r))
    ensures var b' := AddArena(b, r);
            && ArenaOk(b'.page, b'.mapped, b'.arenas[|b.arenas|]) && b'.arenas[|b.arenas|].All() == r
            && b'.arenas[|b.arenas|].offset == 0
  {
    assert r.size > 0 ==> AddArena(b, r).mapped[|b.mapped|] == r;
  }

  lemma OldArenaOk(b: Bump, r: Range, i: nat)
    requires ArenasOk(b) && (r.size > 0 ==> FreshRegion(b, r)) && i < |b.arenas|
    ensures Disjoint(b.arenas[i].All(), r) && ArenaOk(b.page, AddArena(b, r).mapped, b.arenas[i])
  {
    assert ArenaOk(b.page, b.mapped, b.arenas[i]);
  }

  lemma TouchKeepsInv(b: Bump, slot: nat)
    requires BumpInv(b) && slot < |b.arenas|
    ensures BumpInv(Touch(b, slot))
  {}

  lemma ExtendKeepsInv(b: Bump, slot: nat, r: Range)
    requires BumpInv(b) && slot < |b.arenas|
    requires FreshRegion(b, r) && r.size % b.page == 0
    ensures BumpInv(Extend(b, slot, r))
  {
    var b' := Extend(b, slot, r);
    assert r in b'.mapped;
    forall i | 0 <= i < |b.arenas| && i != slot
      ensures Disjoint(r, b.arenas[i].All())
      ensures b.arenas[i].size > 0 ==> b.arenas[i].All() in b'.mapped
    {}
    forall g | 0 <= g < |b.granted|
      ensures Disjoint(b.granted[g].range, b'.arenas[slot].Rest())
      ensures b.granted[g].range.size > 0 ==>
                exists s :: s in b'.mapped && Inside(b.granted[g].range, s)
    {
      if b.granted[g].range.size > 0 {
        var s :| s in b.mapped && Inside(b.granted[g].range, s);
        assert s in b'.mapped;
        assert Disjoint(r, s);
      }
    }
  }

  /** Advancing keeps the invariant exactly when the request fits. */
  lemma AdvanceKeepsInv(b: Bump, slot: nat, size: nat)
    requires BumpInv(b) && slot < |b.arenas| && b.arenas[slot].touched
    ensures BumpInv(Advance(b, slot, size)) <==> Fits(b, slot, size)
  {
    var b' := Advance(b, slot, size);
    var r := NextRange(b, slot, size);
    assert b'.arenas[slot].offset == b.arenas[slot].offset + size;
    if Fits(b, slot, size) {
      assert size > 0 ==> b.arenas[slot].All() in b'.mapped && Inside(r, b.arenas[slot].All());
      forall i | 0 <= i < |b.arenas|
        ensures Disjoint(r, b'.arenas[i].Rest())
      {
        if i < slot { assert Disjoint(b.arenas[i].All(), b.arenas[slot].All()); }
        if slot < i { assert Disjoint(b.arenas[slot].All(), b.arenas[i].All()); }
      }
      forall g | 0 <= g < |b.granted|
        ensures Disjoint(b.granted[g].range, r)
        ensures Disjoint(b.granted[g].range, b'.arenas[slot].Rest())
        ensures b.granted[g].range.size > 0 ==>
                  exists s :: s in b'.mapped && Inside(b.granted[g].range, s)
      {
        assert Disjoint(b.granted[g].range, b.arenas[slot].Rest());
      }
    }
  }

  lemma ExtensionFits(page: nat, size: nat)
    requires page > 0
    ensures size <= ExtensionSize(page, size) && ExtensionSize(page, size) % page == 0
    ensures ExtensionSize(page, size) > 0
    ensures 0x400_0000 <= ExtensionSize(page, size)
    ensures ExtensionSize(page, size) < (if size > 0x400_0000 then size else 0x400_0000) + page
  {
    AlignBounds(Max(MIN_EXTENSION, size), page);
  }

  /** Pool `a` has handed out `size` bytes and become `a'`: behind those it handed out before if they fit, or if it may
      not be extended; otherwise from the start of a new region, which has at least 64 MB and not a page more than it
      must. */
  predicate PoolServes(a: Arena, a': Arena, size: nat, page: nat, extend: bool)
    requires page > 0
  {
    && a'.touched
    && if extend && a.offset + size > a.size then
         && a'.offset == size && a'.size % page == 0 && a'.size >= 0x400_0000 && a'.size >= size
         && (a'.size < 0x400_0000 + page || a'.size < size + page)
       else
         a'.base == a.base && a'.size == a.size && a'.offset == a.offset + size
  }

  /** A request is served from its slot's pool, and leaves the other pools alone. */
  lemma RequestServes(b: Bump, slot: nat, size: nat, region: nat)
    requires slot < |b.arenas| && b.page > 0
    ensures var b' := Request(b, slot, size, region);
            && |b'.arenas| == |b.arenas| && |b'.granted| == |b.granted| + 1
            && (forall i :: 0 <= i < |b.arenas| && i != slot ==> b'.arenas[i] == b.arenas[i])
            && PoolServes(b.arenas[slot], b'.arenas[slot], size, b.page, true)
            && b'.granted[|b.granted|].slot == slot && b'.granted[|b.granted|].range.size == size
            && b'.granted[|b.granted|].range.base + size == b'.arenas[slot].base + b'.arenas[slot].offset
  {
    hide ExtensionSize;
    ExtensionFits(b.page, size);
  }

  /** One core and the main thread, with a pool of one page each, as the start leaves them. */
  function TwoPools(): Bump {
    Bump(4096, [Arena(4096, 4096, 0, false), Arena(8192, 4096, 0, false)], [Range(4096, 4096), Range(8192, 4096)], [],
         0)
  }

  /** A request of two pages against the first of these pools runs into the second when extension is disabled. */
  lemma OverrunWithoutExtension()
    ensures var b := TwoPools();
            && BumpInv(b) && OffsetsPaged(b) && !BumpInv(Advance(Touch(b, 0), 0, 8192))
            && !Disjoint(NextRange(b, 0, 8192), b.arenas[1].All())
  {
    var b := TwoPools();
    assert Range(4096, 4096) == b.mapped[0] && Range(8192, 4096) == b.mapped[1];
    TouchKeepsInv(b, 0);
    AdvanceKeepsInv(Touch(b, 0), 0, 8192);
  }

  /** With extension allowed every request keeps the invariant, and its range is the last grant. */
  lemma RequestKeepsInv(b: Bump, slot: nat, size: nat, region: nat)
    requires BumpInv(b) && slot < |b.arenas|
    requires !Fits(b, slot, size) ==> FreshRegion(b, Range(region, ExtensionSize(b.page, size)))
    ensures BumpInv(Request(b, slot, size, region))
    ensures |Request(b, slot, size, region).granted| == |b.granted| + 1
  {
    var t := Touch(b, slot);
    TouchKeepsInv(b, slot);
    if Fits(t, slot, size) {
      AdvanceKeepsInv(t, slot, size);
    } else {
      ExtensionFits(b.page, size);
      var r := Range(region, ExtensionSize(b.page, size));
      ExtendKeepsInv(t, slot, r);
      AdvanceKeepsInv(Extend(t, slot, r), slot, size);
    }
  }

  // ---------------------------------------------------------------- whole runs

  datatype Ask = Ask(slot: nat, size: nat, region: nat)

  /** The states after each of a sequence of requests. */
  ghost predicate RequestRun(states: seq<Bump>, asks: seq<Ask>) {
    && |states| == |asks| + 1
    && (forall k :: 0 <= k < |asks| ==>
          && asks[k].slot < |states[k].arenas|
          && states[k].page > 0
          && (!Fits(states[k], asks[k].slot, asks[k].size) ==>
                FreshRegion(states[k], Range(asks[k].region, ExtensionSize(states[k].page, asks[k].size))))
          && states[k + 1] == Request(states[k], asks[k].slot, asks[k].size, asks[k].region))
  }

  /** Over any sequence of requests: every grant stays mapped, no two grants overlap, and the
      log only grows, one entry of the asked size per request. */
  lemma {:induction false} RunIsSafe(states: seq<Bump>, asks: seq<Ask>, k: nat)
    requires RequestRun(states, asks) && k < |states|
    requires BumpInv(states[0]) && states[0].granted == []
    ensures BumpInv(states[k])
    ensures |states[k].granted| == k
    ensures forall g :: 0 <= g < k ==>
              states[k].granted[g].slot == asks[g].slot && states[k].granted[g].range.size == asks[g].size
    decreases k
  {
    if k > 0 {
      RunIsSafe(states, asks, k - 1);
      RequestKeepsInv(states[k - 1], asks[k - 1].slot, asks[k - 1].size, asks[k - 1].region);
    }
  }

  /** Offsets and pool sizes are page multiples as long as every request is. */
  ghost predicate OffsetsPaged(b: Bump) {
    b.page > 0 && forall i :: 0 <= i < |b.arenas| ==> b.arenas[i].offset % b.page == 0
  }

  lemma RequestKeepsPaging(b: Bump, slot: nat, size: nat, region: nat)
    requires OffsetsPaged(b) && slot < |b.arenas| && size % b.page == 0
    ensures OffsetsPaged(Request(b, slot, size, region))
    ensures BumpInv(b) && size > 0 && (!Fits(b, slot, size) ==> region % b.page == 0) ==>
              Request(b, slot, size, region).granted[|b.granted|].range.base % b.page == 0
  {
    ModSum(b.arenas[slot].offset, size, b.page);
    if BumpInv(b) && size > 0 && Fits(b, slot, size) {
      ModSum(b.arenas[slot].base, b.arenas[slot].offset, b.page);
    }
  }

  /** Bytes handed out from one slot. */
  function GrantedBytes(gs: seq<Grant>, slot: nat): nat {
    if gs == [] then 0
    else GrantedBytes(gs[..|gs| - 1], slot)
         + (if gs[|gs| - 1].slot == slot then gs[|gs| - 1].range.size else 0)
  }

  lemma GrantedBytesAppend(gs: seq<Grant>, g: Grant, slot: nat)
    ensures GrantedBytes(gs + [g], slot) == GrantedBytes(gs, slot) + (if g.slot == slot then g.range.size else 0)
  {
    assert (gs + [g])[..|gs|] == gs;
  }

  // ---------------------------------------------------------------- the 32-bit touch counter

  /** Value of the 32-bit loop counter of `FirstTouch` after `n` increments. */
  function TouchCounter(n: nat, page: nat): nat { n * page % TWO_32 }

  /** The touch loop reaches its exit exactly for pools below 2^32 bytes. */
  lemma TouchLoopTerminates(page: nat, size: nat)
    requires page > 0 && size % page == 0
    ensures (exists n: nat :: TouchCounter(n, page) >= size) <==> size < TWO_32
  {
    if size < TWO_32 {
      var n := size / page;
      assert n * page == size;
      assert TouchCounter(n, page) == size;
    }
  }
}
