/** The mapped-memory manager of src/mmap_manager.cpp: one pool per core and one for the main thread,
    each a mapped region with an offset, replaced by a new region when it runs out. */
module MmapManagers {
  import opened SizeClass
  import opened Bump
  import opened Chunks
  import opened Machines

  /** What a failing `mmap` returns, as it does for a size of 0. */
  const MAP_FAILED: nat := TWO_64 - 1

  /** Address space: every mapping is page-aligned and apart from all earlier ones. */
  class Kernel {
    var top: nat
    ghost var mapped: seq<Range>

    ghost predicate Valid()
      reads this
    {
      top > 0 && forall r :: r in mapped ==> r.base + r.size <= top
    }

    constructor ()
      ensures Valid() && mapped == []
    {
      top, mapped := 1, [];
    }

    method Mmap(size: nat, page: nat) returns (p: nat)
      requires Valid() && page > 0
      modifies this
      ensures Valid()
      ensures size == 0 ==> p == MAP_FAILED && mapped == old(mapped)
      ensures size > 0 ==>
                && mapped == old(mapped) + [Range(p, size)]
                && p > 0 && p % page == 0
                && forall r :: r in old(mapped) ==> Disjoint(Range(p, size), r)
    {
      if size == 0 {
        return MAP_FAILED;
      }
      AlignBounds(top, page);
      p := Align(top, page);
      top := p + size;
      mapped := mapped + [Range(p, size)];
    }
  }

  /** `a - b` on 64-bit words. */
  function WrapSub(a: nat, b: nat): nat { (a - b) % TWO_64 }

  /** A word whose byte at the lowest address has been cleared. */
  function ClearLowByte(v: nat): nat { v - v % 256 }

  /** The first byte of every page of `[base, base + size)` is cleared and no other word changes. */
  ghost predicate PagesCleared(w: Words, w': Words, base: nat, size: nat, page: nat)
    requires page > 0
  {
    forall a {:trigger Read(w', a)} ::
      Read(w', a) == if base <= a < base + size && (a - base) % page == 0 then ClearLowByte(Read(w, a)) else Read(w, a)
  }

  /** At each page start of `[base, base + size)` the low byte is zero and the rest as before; elsewhere nothing
      changed. */
  ghost predicate PageStartsZero(w: Words, w': Words, base: nat, size: nat, page: nat)
    requires page > 0
  {
    forall x {:trigger Read(w', x)} ::
      if base <= x < base + size && (x - base) % page == 0
      then Read(w', x) % 256 == 0 && Read(w', x) / 256 == Read(w, x) / 256
      else Read(w', x) == Read(w, x)
  }

  lemma ClearedMeans(w: Words, w': Words, base: nat, size: nat, page: nat)
    requires page > 0 && PagesCleared(w, w', base, size, page)
    ensures PageStartsZero(w, w', base, size, page)
  {
    forall v: nat ensures ClearLowByte(v) % 256 == 0 && ClearLowByte(v) / 256 == v / 256 {}
  }

  lemma NextMultiple(x: nat, of: nat, page: nat)
    requires page > 0 && of % page == 0
    ensures of <= x < of + page && x % page == 0 ==> x == of
  {
    var k := x / page - of / page;
    assert x - of == k * page + x % page;
    MultipleIsLarge(k, page);
  }

  /** One more page cleared. */
  lemma ClearOnePage(w0: Words, w: Words, base: nat, of: nat, page: nat)
    requires page > 0 && of % page == 0 && PagesCleared(w0, w, base, of, page)
    ensures PagesCleared(w0, w[base + of := ClearLowByte(Read(w, base + of))], base, of + page, page)
  {
    var w' := w[base + of := ClearLowByte(Read(w, base + of))];
    forall a
      ensures Read(w', a) ==
                if base <= a < base + (of + page) && (a - base) % page == 0 then ClearLowByte(Read(w0, a))
                  else Read(w0, a)
    {
      if base <= a { NextMultiple(a - base, of, page); }
      assert Read(w, a)
             == if base <= a < base + of && (a - base) % page == 0 then ClearLowByte(Read(w0, a)) else Read(w0, a);
    }
  }

  lemma NextPageFits(of: nat, size: nat, page: nat)
    requires page > 0 && of % page == 0 && size % page == 0 && of < size
    ensures of + page <= size && (of + page) % page == 0
  {
    NextMultiple(size, of, page);
    ModPlus(of, page);
  }

  /** Sum of `n` consecutive entries. */
  function RowSum(s: seq<nat>, from: nat, n: nat): nat
    requires from + n <= |s|
  {
    if n == 0 then 0 else RowSum(s, from, n - 1) + s[from + n - 1]
  }

  lemma {:induction false} RowSumUpdate(s: seq<nat>, from: nat, n: nat, k: nat, v: nat)
    requires from + n <= |s| && k < |s|
    ensures RowSum(s[k := v], from, n) == RowSum(s, from, n) + (if from <= k < from + n then v - s[k] else 0)
    decreases n
  {
    if n > 0 { RowSumUpdate(s, from, n - 1, k, v); }
  }

  const EXTEND_MAX := 10000

  /** Entry `k` of a slot's row in the tables of all regions. */
  function Entry(s: seq<nat>, i: nat, k: nat): nat
    requires EXTEND_MAX * i + k < |s|
  {
    s[EXTEND_MAX * i + k]
  }

  /** The statistics of the manager: what each slot has mapped and what it has handed out. */
  ghost predicate Ledger(b: Bump, sizess: seq<nat>, extendOffset: nat, debugSizes: seq<nat>, debugOffsets: seq<nat>) {
    && |debugSizes| == |debugOffsets| == |b.arenas| && |sizess| == |b.arenas| * EXTEND_MAX
    && (forall i :: 0 <= i < |b.arenas| ==>
          && debugSizes[i] == RowSum(sizess, EXTEND_MAX * i, EXTEND_MAX)
          && debugOffsets[i] == GrantedBytes(b.granted, i))
    && (forall i, k :: 0 <= i < |b.arenas| && extendOffset <= k < EXTEND_MAX ==> Entry(sizess, i, k) == 0)
  }

  /** No slot has handed out more than it has mapped, counting the unused rest of its pool. */
  ghost predicate Solvent(b: Bump, debugSizes: seq<nat>, debugOffsets: seq<nat>) {
    && |debugSizes| == |debugOffsets| == |b.arenas|
    && forall i :: 0 <= i < |b.arenas| ==> debugOffsets[i] + b.arenas[i].size - b.arenas[i].offset <= debugSizes[i]
  }

  lemma LedgerExtend(b: Bump, sizess: seq<nat>, extendOffset: nat, debugSizes: seq<nat>, debugOffsets: seq<nat>,
                     slot: nat, r: Range)
    requires Ledger(b, sizess, extendOffset, debugSizes, debugOffsets)
    requires slot < |b.arenas| && extendOffset < EXTEND_MAX
    ensures Ledger(Extend(b, slot, r), sizess[EXTEND_MAX * slot + extendOffset := r.size], extendOffset + 1,
                   debugSizes[slot := debugSizes[slot] + r.size], debugOffsets)
    ensures Solvent(b, debugSizes, debugOffsets) && b.arenas[slot].offset <= b.arenas[slot].size ==>
              Solvent(Extend(b, slot, r), debugSizes[slot := debugSizes[slot] + r.size], debugOffsets)
  {
    var k := EXTEND_MAX * slot + extendOffset;
    assert Entry(sizess, slot, extendOffset) == 0;
    var s' := sizess[k := r.size];
    forall i, c | 0 <= i < |b.arenas| && extendOffset + 1 <= c < EXTEND_MAX
      ensures Entry(s', i, c) == 0
    {
      assert Entry(sizess, i, c) == 0;
    }
    forall i | 0 <= i < |b.arenas|
      ensures RowSum(sizess[k := r.size], EXTEND_MAX * i, EXTEND_MAX)
              == RowSum(sizess, EXTEND_MAX * i, EXTEND_MAX) + if i == slot then r.size else 0
    {
      RowSumUpdate(sizess, EXTEND_MAX * i, EXTEND_MAX, k, r.size);
    }
  }

  lemma LedgerAdvance(b: Bump, sizess: seq<nat>, extendOffset: nat, debugSizes: seq<nat>, debugOffsets: seq<nat>,
                      slot: nat, size: nat)
    requires Ledger(b, sizess, extendOffset, debugSizes, debugOffsets) && slot < |b.arenas|
    ensures Ledger(Advance(b, slot, size), sizess, extendOffset, debugSizes,
                   debugOffsets[slot := debugOffsets[slot] + size])
    ensures Solvent(b, debugSizes, debugOffsets) ==>
              Solvent(Advance(b, slot, size), debugSizes, debugOffsets[slot := debugOffsets[slot] + size])
  {
    forall i | 0 <= i < |b.arenas|
      ensures GrantedBytes(Advance(b, slot, size).granted, i)
              == GrantedBytes(b.granted, i) + if i == slot then size else 0
    {
      GrantedBytesAppend(b.granted, Grant(slot, NextRange(b, slot, size)), i);
    }
  }

  /** The arrays hold the arenas of the abstract state. */
  ghost predicate Shows(b: Bump, pools: seq<nat>, sizes: seq<nat>, offsets: seq<nat>, touched: seq<bool>) {
    && b.page > 0 && |b.arenas| <= |pools| == |sizes| == |offsets| == |touched|
    && forall i :: 0 <= i < |b.arenas| ==>
         && b.arenas[i] == Arena(pools[i], sizes[i], offsets[i], touched[i])
         && sizes[i] < TWO_64 && sizes[i] % b.page == 0
  }

  /** The ledger while the first `n` slots are set up. */
  ghost predicate FirstRows(sizess: seq<nat>, debugSizes: seq<nat>, debugOffsets: seq<nat>, threads: nat, n: nat) {
    && |sizess| == threads * EXTEND_MAX && |debugSizes| == |debugOffsets| == threads
    && (forall j :: 0 <= j < n && j < threads ==> debugSizes[j] == Entry(sizess, j, 0))
    && (forall j :: 0 <= j < threads ==> debugOffsets[j] == 0)
    && (forall j, k :: 0 <= j < threads && 0 <= k < EXTEND_MAX && (j >= n || k >= 1) ==> Entry(sizess, j, k) == 0)
  }

  /** The pools set up so far are untouched, unused, and of the configured sizes. */
  ghost predicate PoolSizes(b: Bump, debugSizes: seq<nat>, threads: nat, mainSize: nat, subSize: nat) {
    && |b.arenas| <= |debugSizes| == threads
    && forall j :: 0 <= j < |b.arenas| ==>
         && !b.arenas[j].touched && b.arenas[j].offset == 0
         && b.arenas[j].size == debugSizes[j] == if j == threads - 1 then mainSize else subSize
  }

  lemma NoneShown(b: Bump, pools: seq<nat>, sizes: seq<nat>, offsets: seq<nat>, touched: seq<bool>,
                  debugSizes: seq<nat>, threads: nat, mainSize: nat, subSize: nat)
    requires b.page > 0 && b.arenas == [] && |pools| == |sizes| == |offsets| == |touched| == |debugSizes| == threads
    ensures Shows(b, pools, sizes, offsets, touched) && PoolSizes(b, debugSizes, threads, mainSize, subSize)
  {}

  lemma AddArenaShows(b: Bump, pools: seq<nat>, sizes: seq<nat>, offsets: seq<nat>, touched: seq<bool>, r: Range)
    requires Shows(b, pools, sizes, offsets, touched) && |b.arenas| < |pools| && r.size < TWO_64
    requires !touched[|b.arenas|] && r.size % b.page == 0
    ensures Shows(AddArena(b, r), pools[|b.arenas| := r.base], sizes[|b.arenas| := r.size], offsets[|b.arenas| := 0],
                  touched)
  {}

  lemma AddArenaSizes(b: Bump, debugSizes: seq<nat>, threads: nat, mainSize: nat, subSize: nat, r: Range)
    requires PoolSizes(b, debugSizes, threads, mainSize, subSize) && |b.arenas| < threads
    requires r.size == if |b.arenas| == threads - 1 then mainSize else subSize
    ensures PoolSizes(AddArena(b, r), debugSizes[|b.arenas| := r.size], threads, mainSize, subSize)
  {}

  lemma PoolSizesMean(b: Bump, debugSizes: seq<nat>, threads: nat, mainSize: nat, subSize: nat)
    requires PoolSizes(b, debugSizes, threads, mainSize, subSize)
    ensures forall j :: 0 <= j < |b.arenas| ==>
              && !b.arenas[j].touched && b.arenas[j].offset == 0 && b.arenas[j].size == debugSizes[j]
              && b.arenas[j].size == if j == threads - 1 then mainSize else subSize
  {}

  lemma ExtendShows(b: Bump, pools: seq<nat>, sizes: seq<nat>, offsets: seq<nat>, touched: seq<bool>, slot: nat,
                    r: Range)
    requires Shows(b, pools, sizes, offsets, touched) && slot < |b.arenas| && r.size < TWO_64 && r.size % b.page == 0
    ensures Shows(Extend(b, slot, r), pools[slot := r.base], sizes[slot := r.size], offsets[slot := 0], touched)
  {}

  lemma AdvanceShows(b: Bump, pools: seq<nat>, sizes: seq<nat>, offsets: seq<nat>, touched: seq<bool>, slot: nat,
                     size: nat)
    requires Shows(b, pools, sizes, offsets, touched) && slot < |b.arenas|
    ensures Shows(Advance(b, slot, size), pools, sizes, offsets[slot := offsets[slot] + size], touched)
  {}

  lemma TouchShows(b: Bump, pools: seq<nat>, sizes: seq<nat>, offsets: seq<nat>, touched: seq<bool>, slot: nat)
    requires Shows(b, pools, sizes, offsets, touched) && slot < |b.arenas|
    ensures Shows(Touch(b, slot), pools, sizes, offsets, touched[slot := true])
  {}

  lemma FirstRowsZero(sizess: seq<nat>, debugSizes: seq<nat>, debugOffsets: seq<nat>, threads: nat)
    requires |sizess| == threads * EXTEND_MAX && |debugSizes| == |debugOffsets| == threads
    requires forall k :: 0 <= k < |sizess| ==> sizess[k] == 0
    requires forall k :: 0 <= k < threads ==> debugOffsets[k] == 0
    ensures FirstRows(sizess, debugSizes, debugOffsets, threads, 0)
  {}

  lemma NoArenas(page: nat)
    requires page > 0
    ensures BumpInv(Bump(page, [], [], [], 0)) && OffsetsPaged(Bump(page, [], [], [], 0))
  {}

  lemma FirstRowsStep(sizess: seq<nat>, debugSizes: seq<nat>, debugOffsets: seq<nat>, threads: nat, n: nat, v: nat)
    requires FirstRows(sizess, debugSizes, debugOffsets, threads, n) && n < threads
    ensures FirstRows(sizess[EXTEND_MAX * n + 0 := v], debugSizes[n := v], debugOffsets[n := 0], threads, n + 1)
  {
    var s' := sizess[EXTEND_MAX * n + 0 := v];
    forall j, k | 0 <= j < threads && 0 <= k < EXTEND_MAX && (j >= n + 1 || k >= 1)
      ensures Entry(s', j, k) == 0
    {
      assert Entry(sizess, j, k) == 0;
    }
    forall j | 0 <= j < n + 1 && j < threads
      ensures debugSizes[n := v][j] == Entry(s', j, 0)
    {
      if j < n { assert debugSizes[j] == Entry(sizess, j, 0); }
    }
  }

  lemma FirstRowsLedger(b: Bump, sizess: seq<nat>, debugSizes: seq<nat>, debugOffsets: seq<nat>)
    requires FirstRows(sizess, debugSizes, debugOffsets, |b.arenas|, |b.arenas|) && b.granted == []
    requires forall j :: 0 <= j < |b.arenas| ==> b.arenas[j].size == debugSizes[j] && b.arenas[j].offset == 0
    ensures Ledger(b, sizess, 1, debugSizes, debugOffsets) && Solvent(b, debugSizes, debugOffsets)
  {
    forall j | 0 <= j < |b.arenas|
      ensures debugSizes[j] == RowSum(sizess, EXTEND_MAX * j, EXTEND_MAX)
    {
      RowSumFirst(sizess, j);
    }
  }

  /** A row whose only nonzero entry is the first one. */
  lemma RowSumFirst(s: seq<nat>, i: nat)
    requires EXTEND_MAX * (i + 1) <= |s|
    requires forall k :: 1 <= k < EXTEND_MAX ==> Entry(s, i, k) == 0
    ensures RowSum(s, EXTEND_MAX * i, EXTEND_MAX) == Entry(s, i, 0)
  {
    RowSumPrefix(s, i, EXTEND_MAX);
  }

  lemma {:induction false} RowSumPrefix(s: seq<nat>, i: nat, n: nat)
    requires EXTEND_MAX * (i + 1) <= |s| && 1 <= n <= EXTEND_MAX
    requires forall k :: 1 <= k < EXTEND_MAX ==> Entry(s, i, k) == 0
    ensures RowSum(s, EXTEND_MAX * i, n) == Entry(s, i, 0)
    decreases n
  {
    if n > 1 {
      RowSumPrefix(s, i, n - 1);
      assert Entry(s, i, n - 1) == 0;
    } else {
      assert RowSum(s, EXTEND_MAX * i, 0) == 0;
    }
  }

  class MmapManager {
    const mem: Machine
    const kernel: Kernel
    const coreN_: nat
    const threadN_: nat
    const mainThreadIndex_: nat
    const pageSize_: nat
    const firstTouchFlag_: array<bool>
    const sizes_: array<nat>
    const offsets_: array<nat>
    const pools_: array<nat>
    var extendOffset_: nat
    const sizess_: array<nat>
    const poolss_: array<nat>
    var forceMmapFlag_: bool
    const debugSizes_: array<nat>
    const debugOffsets_: array<nat>
    ghost const Repr: set<object>

    ghost predicate Shape()
      reads this
    {
      && threadN_ == coreN_ + 1 && mainThreadIndex_ == coreN_ && pageSize_ > 0
      && firstTouchFlag_.Length == threadN_
      && sizes_.Length == threadN_ && offsets_.Length == threadN_ && pools_.Length == threadN_
      && debugSizes_.Length == threadN_ && debugOffsets_.Length == threadN_
      && sizess_.Length == threadN_ * EXTEND_MAX && poolss_.Length == threadN_ * EXTEND_MAX
      && Repr == {this, firstTouchFlag_, sizes_, offsets_, pools_, sizess_, poolss_, debugSizes_, debugOffsets_}
      && sizes_ != offsets_ && sizes_ != pools_ && sizes_ != sizess_ && sizes_ != poolss_
      && sizes_ != debugSizes_ && sizes_ != debugOffsets_
      && offsets_ != pools_ && offsets_ != sizess_ && offsets_ != poolss_
      && offsets_ != debugSizes_ && offsets_ != debugOffsets_
      && pools_ != sizess_ && pools_ != poolss_ && pools_ != debugSizes_ && pools_ != debugOffsets_
      && sizess_ != poolss_ && sizess_ != debugSizes_ && sizess_ != debugOffsets_
      && poolss_ != debugSizes_ && poolss_ != debugOffsets_ && debugSizes_ != debugOffsets_
    }

    ghost predicate Valid()
      reads Repr, this, kernel, mem`bump
    {
      && Shape() && kernel.Valid()
      && mem.bump.page == pageSize_ && |mem.bump.arenas| == threadN_ && extendOffset_ == mem.bump.extensions + 1
      && Shows(mem.bump, pools_[..], sizes_[..], offsets_[..], firstTouchFlag_[..])
      && (forall r :: r in mem.bump.mapped ==> r in kernel.mapped)
      && Ledger(mem.bump, sizess_[..], extendOffset_, debugSizes_[..], debugOffsets_[..])
      && Solvent(mem.bump, debugSizes_[..], debugOffsets_[..])
    }

    /** The tables of the manager, zeroed, before any pool is mapped. */
    constructor Allocate(mem: Machine, kernel: Kernel, numCores: nat, pageSize: nat)
      requires pageSize > 0
      ensures Blank() && fresh(Repr) && extendOffset_ == 1 && !forceMmapFlag_
      ensures this.mem == mem && this.kernel == kernel && coreN_ == numCores && pageSize_ == pageSize
      ensures sizess_.Length == poolss_.Length == (numCores + 1) * 10000
    {
      this.mem, this.kernel := mem, kernel;
      coreN_, pageSize_ := numCores, pageSize;
      threadN_, mainThreadIndex_ := numCores + 1, numCores;
      var firstTouchFlag := new bool[numCores + 1](_ => false);
      var sizes := new nat[numCores + 1](_ => 0);
      var offsets := new nat[numCores + 1](_ => 0);
      var pools := new nat[numCores + 1](_ => 0);
      var sizess := new nat[(numCores + 1) * EXTEND_MAX](_ => 0);
      var poolss := new nat[(numCores + 1) * EXTEND_MAX](_ => 0);
      var debugSizes := new nat[numCores + 1](_ => 0);
      var debugOffsets := new nat[numCores + 1](_ => 0);
      firstTouchFlag_, sizes_, offsets_, pools_ := firstTouchFlag, sizes, offsets, pools;
      sizess_, poolss_, debugSizes_, debugOffsets_ := sizess, poolss, debugSizes, debugOffsets;
      forceMmapFlag_ := false;
      extendOffset_ := 1;
      Repr := {this, firstTouchFlag, sizes, offsets, pools, sizess, poolss, debugSizes, debugOffsets};
    }

    /** Nothing is recorded yet. */
    ghost predicate Blank()
      reads this, Repr
    {
      && Shape()
      && (forall i :: 0 <= i < threadN_ ==> !firstTouchFlag_[i] && debugOffsets_[i] == 0)
      && (forall k :: 0 <= k < sizess_.Length ==> sizess_[k] == 0)
    }

    /** One pool per core and one for the main thread, all mapped, none touched, nothing handed out. */
    method Init(mainSize: nat, subTotalSize: nat)
      requires Blank() && kernel.Valid() && coreN_ > 0 && extendOffset_ == 1
      requires Align(mainSize, pageSize_) < TWO_64 && Align(subTotalSize / coreN_, pageSize_) < TWO_64
      modifies Repr, kernel, mem`bump
      ensures Valid() && BumpInv(mem.bump) && OffsetsPaged(mem.bump) && mem.bump.granted == [] && extendOffset_ == 1
      ensures forall i :: 0 <= i < threadN_ ==>
                && !mem.bump.arenas[i].touched && mem.bump.arenas[i].offset == 0
                && mem.bump.arenas[i].size ==
                     Align(if i == mainThreadIndex_ then mainSize else subTotalSize / coreN_, pageSize_)
    {
      hide Ledger, Solvent, BumpInv, OffsetsPaged, FirstRows, RowSum, Shows, PoolSizes, Align, Setup;
      AlignBounds(mainSize, pageSize_);
      AlignBounds(subTotalSize / coreN_, pageSize_);
      var mainMmapSize := Align(mainSize, pageSize_);
      var subMmapSize := Align(subTotalSize / coreN_, pageSize_);
      mem.bump := Bump(pageSize_, [], [], [], 0);
      NoArenas(pageSize_);
      NoneShown(mem.bump, pools_[..], sizes_[..], offsets_[..], firstTouchFlag_[..],
                debugSizes_[..], threadN_, mainMmapSize, subMmapSize);
      FirstRowsZero(sizess_[..], debugSizes_[..], debugOffsets_[..], threadN_);
      SetupStart(mainMmapSize, subMmapSize);
      for i := 0 to threadN_
        modifies kernel, mem`bump, sizes_, offsets_, pools_, sizess_, poolss_, debugSizes_, debugOffsets_
        invariant kernel.Valid() && Setup(i, mainMmapSize, subMmapSize)
      {
        InitSlot(i, mainMmapSize, subMmapSize);
      }
      SetupDone(mainMmapSize, subMmapSize);
    }

    /** The first `n` slots are set up. */
    ghost predicate Setup(n: nat, mainSize: nat, subSize: nat)
      requires Shape()
      reads this, Repr, kernel, mem`bump
    {
      && |mem.bump.arenas| == n && mem.bump.page == pageSize_ && mem.bump.granted == [] && mem.bump.extensions == 0
      && BumpInv(mem.bump) && OffsetsPaged(mem.bump)
      && (forall r :: r in mem.bump.mapped ==> r in kernel.mapped)
      && Shows(mem.bump, pools_[..], sizes_[..], offsets_[..], firstTouchFlag_[..])
      && firstTouchFlag_[..] == seq(threadN_, _ => false)
      && PoolSizes(mem.bump, debugSizes_[..], threadN_, mainSize, subSize)
      && FirstRows(sizess_[..], debugSizes_[..], debugOffsets_[..], threadN_, n)
    }

    lemma SetupStart(mainSize: nat, subSize: nat)
      requires Shape() && mem.bump == Bump(pageSize_, [], [], [], 0)
      requires BumpInv(mem.bump) && OffsetsPaged(mem.bump)
      requires Shows(mem.bump, pools_[..], sizes_[..], offsets_[..], firstTouchFlag_[..])
      requires forall i :: 0 <= i < threadN_ ==> !firstTouchFlag_[i]
      requires PoolSizes(mem.bump, debugSizes_[..], threadN_, mainSize, subSize)
      requires FirstRows(sizess_[..], debugSizes_[..], debugOffsets_[..], threadN_, 0)
      ensures Setup(0, mainSize, subSize)
    {
      hide Ledger, Solvent, BumpInv, OffsetsPaged, FirstRows, RowSum, Shows, PoolSizes;
      assert firstTouchFlag_[..] == seq(threadN_, _ => false);
    }

    lemma SetupDone(mainSize: nat, subSize: nat)
      requires Shape() && kernel.Valid() && extendOffset_ == 1 && Setup(threadN_, mainSize, subSize)
      ensures Valid() && BumpInv(mem.bump) && OffsetsPaged(mem.bump) && mem.bump.granted == []
      ensures forall i :: 0 <= i < threadN_ ==>
                && !mem.bump.arenas[i].touched && mem.bump.arenas[i].offset == 0
                && mem.bump.arenas[i].size == if i == mainThreadIndex_ then mainSize else subSize
    {
      hide Ledger, Solvent, BumpInv, OffsetsPaged, FirstRows, RowSum, Shows, PoolSizes;
      PoolSizesMean(mem.bump, debugSizes_[..], threadN_, mainSize, subSize);
      FirstRowsLedger(mem.bump, sizess_[..], debugSizes_[..], debugOffsets_[..]);
    }

    /** Maps the pool of one slot and records it. */
    method InitSlot(i: nat, mainSize: nat, subSize: nat)
      requires Shape() && kernel.Valid() && i < threadN_ && Setup(i, mainSize, subSize)
      requires mainSize < TWO_64 && subSize < TWO_64 && mainSize % pageSize_ == 0 && subSize % pageSize_ == 0
      modifies mem`bump, kernel, sizes_, offsets_, pools_, sizess_, poolss_, debugSizes_, debugOffsets_
      ensures kernel.Valid() && Setup(i + 1, mainSize, subSize)
    {
      hide Ledger, Solvent, BumpInv, OffsetsPaged, FirstRows, RowSum, Shows, PoolSizes;
      var mmapSize := if i == mainThreadIndex_ then mainSize else subSize;
      var p := kernel.Mmap(mmapSize, pageSize_);
      ghost var r := Range(p, mmapSize);
      FirstRowsStep(sizess_[..], debugSizes_[..], debugOffsets_[..], threadN_, i, mmapSize);
      AddArenaKeepsInv(mem.bump, r);
      AddArenaShows(mem.bump, pools_[..], sizes_[..], offsets_[..], firstTouchFlag_[..], r);
      AddArenaSizes(mem.bump, debugSizes_[..], threadN_, mainSize, subSize, r);
      pools_[i] := p;
      sizes_[i] := mmapSize;
      offsets_[i] := 0;
      debugSizes_[i] := mmapSize;
      debugOffsets_[i] := 0;
      sizess_[EXTEND_MAX * i + 0] := mmapSize;
      poolss_[EXTEND_MAX * i + 0] := p;
      mem.bump := AddArena(mem.bump, r);
    }

    /** The slot that serves a request: the main thread has its own. */
    function SlotOf(core: nat): nat
      reads mem`mainThreadFlag
    {
      if mem.mainThreadFlag then mainThreadIndex_ else core
    }

    /** Records a new region as a slot's pool, in the ledger and in the tables of all regions. */
    method Install(core: nat, p: nat, mmapSize: nat)
      requires Shape() && core < threadN_ && extendOffset_ < EXTEND_MAX
      modifies this`extendOffset_, pools_, sizes_, offsets_, debugSizes_, sizess_, poolss_
      ensures pools_[..] == old(pools_[..])[core := p]
      ensures sizes_[..] == old(sizes_[..])[core := mmapSize]
      ensures offsets_[..] == old(offsets_[..])[core := 0]
      ensures debugSizes_[..] == old(debugSizes_[..])[core := old(debugSizes_[core]) + mmapSize]
      ensures sizess_[..] == old(sizess_[..])[EXTEND_MAX * core + old(extendOffset_) := mmapSize]
      ensures poolss_[..] == old(poolss_[..])[EXTEND_MAX * core + old(extendOffset_) := p]
      ensures extendOffset_ == old(extendOffset_) + 1
    {
      pools_[core] := p;
      sizes_[core] := mmapSize;
      offsets_[core] := 0;
      debugSizes_[core] := debugSizes_[core] + mmapSize;
      sizess_[EXTEND_MAX * core + extendOffset_] := sizes_[core];
      poolss_[EXTEND_MAX * core + extendOffset_] := pools_[core];
      extendOffset_ := extendOffset_ + 1;
    }

    /** Replaces a slot's pool by a new region. */
    method ExtendBuffer(core: nat, size: nat) returns (ghost r: Range)
      requires Valid() && core < threadN_ && size > 0 && Align(size, pageSize_) < TWO_64
      requires extendOffset_ < EXTEND_MAX
      requires mem.bump.arenas[core].offset <= mem.bump.arenas[core].size
      modifies Repr, kernel, mem`bump
      ensures Valid() && forceMmapFlag_ == old(forceMmapFlag_)
      ensures r.size == Align(size, pageSize_) && FreshRegion(old(mem.bump), r)
      ensures mem.bump == Extend(old(mem.bump), core, r) && extendOffset_ == old(extendOffset_) + 1
      ensures pools_[..] == old(pools_[..])[core := r.base] && sizes_[..] == old(sizes_[..])[core := r.size]
      ensures offsets_[..] == old(offsets_[..])[core := 0]
      ensures debugSizes_[..] == old(debugSizes_[..])[core := old(debugSizes_[core]) + r.size]
      ensures debugOffsets_[..] == old(debugOffsets_[..])
    {
      hide Ledger, Solvent, RowSum, Align, Shows;
      AlignBounds(size, pageSize_);
      var mmapSize := Align(size, pageSize_);
      var p := kernel.Mmap(mmapSize, pageSize_);
      r := Range(p, mmapSize);
      LedgerExtend(mem.bump, sizess_[..], extendOffset_, debugSizes_[..], debugOffsets_[..], core, r);
      ExtendShows(mem.bump, pools_[..], sizes_[..], offsets_[..], firstTouchFlag_[..], core, r);
      Install(core, p, mmapSize);
      mem.bump := Extend(mem.bump, core, r);
    }

    /** Writes to every page of the serving slot's pool; the loop counter has 32 bits. */
    method FirstTouch(core: nat)
      requires Valid() && SlotOf(core) < threadN_
      requires mem.bump.arenas[SlotOf(core)].size < TWO_32
      modifies mem`words
      ensures var a := mem.bump.arenas[SlotOf(core)];
              PagesCleared(old(mem.words), mem.words, a.base, a.size, pageSize_)
      ensures var a := mem.bump.arenas[if mem.mainThreadFlag then coreN_ else core];
              PageStartsZero(old(mem.words), mem.words, a.base, a.size, pageSize_)
    {
      var slot := SlotOf(core);
      ShowsAt(mem.bump, pools_[..], sizes_[..], offsets_[..], firstTouchFlag_[..], slot);
      hide Ledger, Solvent, RowSum, Shows, PageStartsZero;
      var p := pools_[slot];
      var mmapSize := sizes_[slot];
      var of := 0;
      while of < mmapSize
        invariant of <= mmapSize && of % pageSize_ == 0
        invariant PagesCleared(old(mem.words), mem.words, p, of, pageSize_)
        decreases mmapSize - of
      {
        ClearOnePage(old(mem.words), mem.words, p, of, pageSize_);
        NextPageFits(of, mmapSize, pageSize_);
        mem.words := mem.words[p + of := ClearLowByte(Read(mem.words, p + of))];
        of := (of + pageSize_) % TWO_32;
      }
      ClearedMeans(old(mem.words), mem.words, p, mmapSize, pageSize_);
    }

    method SetForceMmapFlag(forceMmapFlag: bool)
      requires Valid()
      modifies this`forceMmapFlag_
      ensures Valid() && forceMmapFlag_ == forceMmapFlag
    {
      forceMmapFlag_ := forceMmapFlag;
    }

    /** Touches the pool before its first use. */
    method TouchOnce(core: nat)
      requires Valid() && SlotOf(core) < threadN_
      requires var a := mem.bump.arenas[SlotOf(core)]; !a.touched ==> a.size < TWO_32
      modifies mem`words, mem`bump, firstTouchFlag_
      ensures Valid() && mem.bump == Touch(old(mem.bump), SlotOf(core))
      ensures FirstUse(old(mem.bump), SlotOf(core), old(mem.words), mem.words)
      ensures var a := old(mem.bump.arenas[SlotOf(core)]);
              if a.touched then mem.words == old(mem.words)
              else PageStartsZero(old(mem.words), mem.words, a.base, a.size, pageSize_)
    {
      var slot := SlotOf(core);
      ShowsAt(mem.bump, pools_[..], sizes_[..], offsets_[..], firstTouchFlag_[..], slot);
      TouchShows(mem.bump, pools_[..], sizes_[..], offsets_[..], firstTouchFlag_[..], slot);
      TouchLedger(mem.bump, sizess_[..], extendOffset_, debugSizes_[..], debugOffsets_[..], slot);
      hide Ledger, Solvent, RowSum, Shows, PagesCleared, PageStartsZero;
      if !firstTouchFlag_[slot] {
        FirstTouch(core);
        firstTouchFlag_[slot] := true;
      } else {
        assert firstTouchFlag_[..] == firstTouchFlag_[..][slot := true];
      }
      mem.bump := Touch(mem.bump, slot);
    }

    /** Ready to serve page-multiple requests of any size: extension is enabled, the page size is a small
        multiple of 16, and every pool still to be touched is below the reach of the 32-bit touch counter. */
    ghost predicate Ready()
      reads Repr, this, kernel, mem`bump
    {
      && Valid() && BumpInv(mem.bump) && OffsetsPaged(mem.bump) && forceMmapFlag_
      && pageSize_ % 16 == 0 && pageSize_ < TWO_32
      && Touchable(mem.bump)
    }

    /** The index of the next region to record is one more than the number of extensions. */
    lemma ExtensionsCounted()
      requires Ready()
      ensures extendOffset_ == mem.bump.extensions + 1
    {}

    lemma MemOutside()
      requires Ready()
      ensures (mem as object) !in Repr && (kernel as object) !in Repr
    {}

    /** Extends a pool that is too small, when extension is enabled; the pool then always has room. */
    method MakeRoom(slot: nat, size: nat) returns (ghost region: nat)
      requires Valid() && BumpInv(mem.bump) && slot < threadN_ && mem.bump.arenas[slot].touched && size < TWO_64
      requires forceMmapFlag_ && !Fits(mem.bump, slot, size) ==>
                 extendOffset_ < EXTEND_MAX && ExtensionSize(pageSize_, size) < TWO_64
      modifies Repr, kernel, mem`bump
      ensures Valid() && forceMmapFlag_ == old(forceMmapFlag_) && BumpInv(mem.bump)
      ensures var r := Range(region, ExtensionSize(pageSize_, size));
              if forceMmapFlag_ && !Fits(old(mem.bump), slot, size) then
                FreshRegion(old(mem.bump), r) && mem.bump == Extend(old(mem.bump), slot, r)
                  && Fits(mem.bump, slot, size)
              else mem.bump == old(mem.bump)
      ensures extendOffset_ == old(extendOffset_) + if forceMmapFlag_ && !Fits(old(mem.bump), slot, size) then 1 else 0
    {
      hide Ledger, Solvent, RowSum, Shows, BumpInv, ExtensionSize, Align, FreshRegion;
      ArenaInv(mem.bump, slot);
      ShowsAt(mem.bump, pools_[..], sizes_[..], offsets_[..], firstTouchFlag_[..], slot);
      var restSize := WrapSub(sizes_[slot], offsets_[slot]);
      region := 0;
      if restSize < size {
        if forceMmapFlag_ {
          ghost var b := mem.bump;
          ExtensionFits(pageSize_, size);
          ExtensionIs(pageSize_, size);
          var allocSize := if MIN_EXTENSION > size then MIN_EXTENSION else size;
          ghost var r := ExtendBuffer(slot, allocSize);
          region := r.base;
          ExtendKeepsInv(b, slot, r);
          ShowsAt(mem.bump, pools_[..], sizes_[..], offsets_[..], firstTouchFlag_[..], slot);
          restSize := WrapSub(sizes_[slot], offsets_[slot]);
          if restSize < size {
            assert false;
          }
        }
      }
    }

    /** Hands out the next `size` bytes of a pool. */
    method TakeNext(slot: nat, size: nat) returns (p: nat)
      requires Valid() && slot < threadN_
      modifies offsets_, debugOffsets_, mem`bump
      ensures Valid() && mem.bump == Advance(old(mem.bump), slot, size)
      ensures p == NextRange(old(mem.bump), slot, size).base
    {
      hide Ledger, Solvent, RowSum, Shows;
      ShowsAt(mem.bump, pools_[..], sizes_[..], offsets_[..], firstTouchFlag_[..], slot);
      LedgerAdvance(mem.bump, sizess_[..], extendOffset_, debugSizes_[..], debugOffsets_[..], slot, size);
      AdvanceShows(mem.bump, pools_[..], sizes_[..], offsets_[..], firstTouchFlag_[..], slot, size);
      p := pools_[slot] + offsets_[slot];
      offsets_[slot] := offsets_[slot] + size;
      debugOffsets_[slot] := debugOffsets_[slot] + size;
      mem.bump := Advance(mem.bump, slot, size);
    }

    /** The next `size` bytes of the serving slot's pool, which is first extended when it is too small
        and extension is enabled. */
    method Malloc(core: nat, size: nat) returns (p: nat, ghost region: nat)
      requires Valid() && BumpInv(mem.bump) && SlotOf(core) < threadN_ && size < TWO_64
      requires var a := mem.bump.arenas[SlotOf(core)]; !a.touched ==> a.size < TWO_32
      requires forceMmapFlag_ && !Fits(mem.bump, SlotOf(core), size) ==>
                 extendOffset_ < EXTEND_MAX && ExtensionSize(pageSize_, size) < TWO_64
      modifies Repr, kernel, mem`bump, mem`words
      ensures Valid() && forceMmapFlag_ == old(forceMmapFlag_)
      ensures SlotOf(core) == if mem.mainThreadFlag then coreN_ else core
      ensures forall i :: 0 <= i < threadN_ && i != SlotOf(core) ==> mem.bump.arenas[i] == old(mem.bump.arenas[i])
      ensures PoolServes(old(mem.bump.arenas[SlotOf(core)]), mem.bump.arenas[SlotOf(core)], size, pageSize_,
                         forceMmapFlag_)
      ensures p + size == mem.bump.arenas[SlotOf(core)].base + mem.bump.arenas[SlotOf(core)].offset
      ensures forceMmapFlag_ ==>
                && mem.bump == Request(old(mem.bump), SlotOf(core), size, region)
                && (!Fits(old(mem.bump), SlotOf(core), size) ==>
                      FreshRegion(old(mem.bump), Range(region, ExtensionSize(pageSize_, size))))
      ensures !forceMmapFlag_ ==> mem.bump == Advance(Touch(old(mem.bump), SlotOf(core)), SlotOf(core), size)
      ensures BumpInv(mem.bump) <==> forceMmapFlag_ || Fits(old(mem.bump), SlotOf(core), size)
      ensures extendOffset_
              == old(extendOffset_) + if forceMmapFlag_ && !Fits(old(mem.bump), SlotOf(core), size) then 1 else 0
      ensures |mem.bump.granted| == |old(mem.bump.granted)| + 1
      ensures mem.bump.granted[|old(mem.bump.granted)|] == Grant(SlotOf(core), Range(p, size))
      ensures FirstUse(old(mem.bump), SlotOf(core), old(mem.words), mem.words)
      ensures var a := old(mem.bump.arenas[SlotOf(core)]);
              if a.touched then mem.words == old(mem.words)
              else PageStartsZero(old(mem.words), mem.words, a.base, a.size, pageSize_)
    {
      hide Ledger, Solvent, RowSum, Shows, PagesCleared, PageStartsZero, BumpInv, FirstUse, ExtensionSize,
        FreshRegion, Fits;
      var slot := SlotOf(core);
      ArenaInv(mem.bump, slot);
      ghost var b0 := mem.bump;
      RequestParts(b0, slot, size);
      AdvanceServes(b0, slot, size);
      TouchKeepsInv(b0, slot);
      TouchOnce(core);
      region := MakeRoom(slot, size);
      AdvanceKeepsInv(mem.bump, slot, size);
      p := TakeNext(slot, size);
      if forceMmapFlag_ { RequestServes(b0, slot, size, region); }
    }
  }

  /** Without extension. */
  lemma AdvanceServes(b: Bump, slot: nat, size: nat)
    requires slot < |b.arenas| && b.page > 0
    ensures var b' := Advance(Touch(b, slot), slot, size);
            && |b'.arenas| == |b.arenas| && (forall i :: 0 <= i < |b.arenas| && i != slot ==>
                                               b'.arenas[i] == b.arenas[i])
            && PoolServes(b.arenas[slot], b'.arenas[slot], size, b.page, false)
            && NextRange(Touch(b, slot), slot, size).base + size == b'.arenas[slot].base + b'.arenas[slot].offset
  {}

  ghost predicate Touchable(b: Bump) {
    forall i :: 0 <= i < |b.arenas| && !b.arenas[i].touched ==> b.arenas[i].size < TWO_32
  }

  /** The words after the first use of a slot's pool: its pages are cleared, once. */
  ghost predicate FirstUse(b: Bump, slot: nat, w: Words, w': Words) {
    && slot < |b.arenas| && b.page > 0
    && if b.arenas[slot].touched then w' == w
       else PagesCleared(w, w', b.arenas[slot].base, b.arenas[slot].size, b.page)
  }

  lemma RequestParts(b: Bump, slot: nat, size: nat)
    requires slot < |b.arenas| && b.page > 0
    ensures Touch(b, slot).arenas[slot].touched && Touch(b, slot).page == b.page
    ensures Fits(Touch(b, slot), slot, size) <==> Fits(b, slot, size)
    ensures forall r :: FreshRegion(Touch(b, slot), r) <==> FreshRegion(b, r)
  {}

  lemma ShowsAt(b: Bump, pools: seq<nat>, sizes: seq<nat>, offsets: seq<nat>, touched: seq<bool>, i: nat)
    requires Shows(b, pools, sizes, offsets, touched) && i < |b.arenas|
    ensures |pools| == |sizes| == |offsets| == |touched| > i
    ensures b.arenas[i] == Arena(pools[i], sizes[i], offsets[i], touched[i])
    ensures sizes[i] < TWO_64 && b.page > 0 && sizes[i] % b.page == 0
  {}

  lemma ArenaInv(b: Bump, i: nat)
    requires BumpInv(b) && i < |b.arenas|
    ensures b.page > 0 && b.arenas[i].offset <= b.arenas[i].size
  {}

  lemma ExtensionIs(page: nat, size: nat)
    requires page > 0
    ensures ExtensionSize(page, size) == Align(if MIN_EXTENSION > size then MIN_EXTENSION else size, page)
  {}

  lemma TouchLedger(b: Bump, sizess: seq<nat>, extendOffset: nat, debugSizes: seq<nat>, debugOffsets: seq<nat>,
                    slot: nat)
    requires Ledger(b, sizess, extendOffset, debugSizes, debugOffsets) && slot < |b.arenas|
    ensures Ledger(Touch(b, slot), sizess, extendOffset, debugSizes, debugOffsets)
    ensures Solvent(b, debugSizes, debugOffsets) ==> Solvent(Touch(b, slot), debugSizes, debugOffsets)
  {}
}
