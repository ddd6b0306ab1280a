/** The table of heaps that threads take and return (src/global_memory_manager.cpp). Each method body is the
    region under the table's mutex. */
module HeapTables {
  import opened SizeClass
  import opened Bump
  import opened Chunks
  import opened Machines
  import opened MmapManagers
  import opened LinkedLists
  import opened SizeTables
  import opened CommonPools
  import opened LocalHeaps
  import opened Stocks
  import opened Donations
  import opened HeapLayouts

  // ---------------------------------------------------------------- Init

  /** The queue managers of all heaps, empty, each in its role. */
  method BuildQueues(mem: Machine, coreN: nat, poolN: nat) returns (ms: seq<MemoryLinkedListManager>)
    requires poolN > 0 && forall a :: a in mem.places ==> !mem.places[a].In?
    ensures |ms| == coreN * poolN * (coreN + 1)
    ensures forall n :: 0 <= n < |ms| ==>
              && ms[n].mem == mem && ms[n].Valid() && ms[n].id == RoleAt(coreN, poolN, n) && ms[n].q == Empty()
              && ms[n].coreN_ == coreN && fresh(ms[n].Repr)
    ensures forall i, j :: 0 <= i < j < |ms| ==> ms[i].Repr !! ms[j].Repr
  {
    hide Housed, Represents, RoleAt;
    ms := [];
    var npool := coreN * poolN * (coreN + 1);
    for n := 0 to npool
      invariant |ms| == n
      invariant forall k :: 0 <= k < n ==>
                  && ms[k].mem == mem && ms[k].Valid() && ms[k].id == RoleAt(coreN, poolN, k) && ms[k].q == Empty()
                  && ms[k].coreN_ == coreN && fresh(ms[k].Repr)
      invariant forall i, j :: 0 <= i < j < n ==> ms[i].Repr !! ms[j].Repr
    {
      var m := new MemoryLinkedListManager.Init(mem, RoleAt(coreN, poolN, n), coreN);
      ms := ms + [m];
    }
  }

  /** Heap `h` is the one at position `b`: it has the slot of that position, and its lists are the queue managers
      of its block. */
  ghost predicate HeapAt(h: LocalMemoryManager, mem: Machine, mm: MmapManager, cmp: CommonMemoryPool, coreN: nat,
                         poolN: nat, ms: seq<MemoryLinkedListManager>, b: nat)
    requires poolN > 0 && b < coreN * poolN && |ms| == coreN * poolN * (coreN + 1)
  {
    var first: nat := b * (coreN + 1);
    && h.Shape() && h.mem == mem && h.mm == mm && h.cmp_ == cmp && h.coreN_ == coreN && h.slot == SlotAt(poolN, b)
    && first + coreN < |ms| && h.malloc_ == ms[first]
    && forall k :: 0 <= k < coreN ==> h.free_[k] == ms[first + 1 + k]
  }

  /** One heap with its block of queue managers. */
  method BuildHeap(mem: Machine, mm: MmapManager, cmp: CommonMemoryPool, coreN: nat, poolN: nat,
                   ms: seq<MemoryLinkedListManager>, core: nat, i: nat, cnt: nat)
    returns (h: LocalMemoryManager)
    requires poolN > 0 && |ms| == coreN * poolN * (coreN + 1) && mm.mem == mem && mm.coreN_ == coreN
    requires cmp.mem == mem && cmp.coreN_ == coreN && cmp.Shape()
    requires forall n :: 0 <= n < |ms| ==>
              ms[n].mem == mem && ms[n].coreN_ == coreN && ms[n].id == RoleAt(coreN, poolN, n)
    requires core < coreN && i < poolN && cnt == Index(poolN, core, i) * (coreN + 1)
    requires Index(poolN, core, i) < coreN * poolN
    ensures HeapAt(h, mem, mm, cmp, coreN, poolN, ms, Index(poolN, core, i))
  {
    hide RoleAt, CommonMemoryPool.Shape, Index;
    SlotPosition(coreN, poolN, core, i);
    ghost var b := Index(poolN, core, i);
    BlockRoles(coreN, poolN, b, 0);
    BlockRoles(coreN, poolN, b, coreN);
    var free := [];
    for k := 0 to coreN
      invariant |free| == k
      invariant forall n :: 0 <= n < k ==>
                  free[n] == ms[cnt + 1 + n] && free[n].mem == mem && free[n].id == FreeList(Slot(core, i), n)
    {
      BlockRoles(coreN, poolN, b, k + 1);
      free := free + [ms[cnt + 1 + k]];
    }
    h := new LocalMemoryManager.Init(mem, mm, cmp, Slot(core, i), core, coreN, ms[cnt], free);
  }

  /** The heaps, core by core, each with the next block of queue managers. */
  method BuildHeaps(mem: Machine, mm: MmapManager, cmp: CommonMemoryPool, coreN: nat, poolN: nat,
                    ms: seq<MemoryLinkedListManager>)
    returns (hs: seq<LocalMemoryManager>)
    requires poolN > 0 && |ms| == coreN * poolN * (coreN + 1) && mm.mem == mem && mm.coreN_ == coreN
    requires cmp.mem == mem && cmp.coreN_ == coreN && cmp.Shape()
    requires forall n :: 0 <= n < |ms| ==>
              ms[n].mem == mem && ms[n].coreN_ == coreN && ms[n].id == RoleAt(coreN, poolN, n)
    ensures |hs| == coreN * poolN
    ensures forall b :: 0 <= b < |hs| ==> HeapAt(hs[b], mem, mm, cmp, coreN, poolN, ms, b)
  {
    hide RoleAt, HeapAt, CommonMemoryPool.Shape;
    hs := [];
    var cnt := 0;
    for j := 0 to coreN
      invariant |hs| == j * poolN <= coreN * poolN && cnt == |hs| * (coreN + 1)
      invariant forall b :: 0 <= b < |hs| ==> HeapAt(hs[b], mem, mm, cmp, coreN, poolN, ms, b)
    {
      Products(j + 1, coreN, poolN);
      Products(j, coreN, poolN);
      for i := 0 to poolN
        invariant |hs| == Index(poolN, j, i) <= coreN * poolN && cnt == |hs| * (coreN + 1)
        invariant forall b :: 0 <= b < |hs| ==> HeapAt(hs[b], mem, mm, cmp, coreN, poolN, ms, b)
      {
        SlotPosition(coreN, poolN, j, i);
        Products(|hs|, |hs|, coreN + 1);
        var h := BuildHeap(mem, mm, cmp, coreN, poolN, ms, j, i, cnt);
        hs := hs + [h];
        cnt := cnt + 1 + coreN;
      }
    }
  }

  /** The common pools are set up: empty, valid, and apart. */
  ghost predicate PoolsReady(cmp: CommonMemoryPool, mem: Machine, coreN: nat)
    reads cmp.poolsPerCore_, set m | m in cmp.poolsPerCore_ :: m.heads_
    reads set m | m in cmp.poolsPerCore_ :: m.lasts_
    reads mem`words, mem`places
  {
    && cmp.mem == mem && cmp.coreN_ == coreN && cmp.Shape()
    && (forall m :: m in cmp.poolsPerCore_ ==> m.mem == mem && m.Valid() && m.q == Empty())
    && (forall i, j :: 0 <= i < j < coreN ==> cmp.poolsPerCore_[i].Repr !! cmp.poolsPerCore_[j].Repr)
  }

  /** Queue managers for all heaps, beside the common pools. */
  method BuildBeside(mem: Machine, cmp: CommonMemoryPool, coreN: nat, poolN: nat)
    returns (ms: seq<MemoryLinkedListManager>)
    requires poolN > 0 && (forall a :: a in mem.places ==> !mem.places[a].In?) && PoolsReady(cmp, mem, coreN)
    ensures |ms| == coreN * poolN * (coreN + 1)
    ensures forall n :: 0 <= n < |ms| ==>
              ms[n].mem == mem && ms[n].id == RoleAt(coreN, poolN, n) && ms[n].coreN_ == coreN && fresh(ms[n].Repr)
    ensures var all := ms + cmp.poolsPerCore_;
            && (forall m :: m in all ==> m.mem == mem && m.Valid() && m.q == Empty())
            && (forall i, j :: 0 <= i < j < |all| ==> all[i].Repr !! all[j].Repr)
  {
    hide RoleAt, Housed, Represents;
    ms := BuildQueues(mem, coreN, poolN);
    ghost var all := ms + cmp.poolsPerCore_;
    forall i, j | 0 <= i < j < |all| ensures all[i].Repr !! all[j].Repr {
      if i < |ms| && j >= |ms| {
        var p := cmp.poolsPerCore_[j - |ms|];
        assert p.Valid() && p.Repr == {p, p.heads_, p.lasts_};
      }
    }
  }

  /** Flags that are all clear. */
  method ClearFlags(n: nat) returns (flags: array<bool>)
    ensures fresh(flags) && flags.Length == n && forall k :: 0 <= k < n ==> !flags[k]
  {
    flags := new bool[n];
    for b := 0 to n
      invariant forall k :: 0 <= k < b ==> !flags[k]
    {
      flags[b] := false;
    }
  }

  /** The slots whose flags are set. */
  ghost function BusyOf(flags: seq<bool>, poolN: nat): set<Slot>
    requires poolN > 0
  {
    set b | 0 <= b < |flags| && flags[b] :: SlotAt(poolN, b)
  }

  lemma NoFlags(flags: seq<bool>, poolN: nat)
    requires poolN > 0 && forall k :: 0 <= k < |flags| ==> !flags[k]
    ensures BusyOf(flags, poolN) == {}
  {}

  lemma FlagMeans(flags: seq<bool>, coreN: nat, poolN: nat, core: nat, i: nat)
    requires core < coreN && i < poolN && |flags| == coreN * poolN
    ensures Index(poolN, core, i) < |flags|
    ensures flags[Index(poolN, core, i)] <==> Slot(core, i) in BusyOf(flags, poolN)
  {
    SlotPosition(coreN, poolN, core, i);
    hide SlotAt;
    if Slot(core, i) in BusyOf(flags, poolN) {
      var b :| 0 <= b < |flags| && flags[b] && SlotAt(poolN, b) == Slot(core, i);
      PositionSlot(coreN, poolN, b);
    }
  }

  /** One flag changes, and so does membership of one slot. */
  lemma FlagSet(flags: seq<bool>, coreN: nat, poolN: nat, core: nat, i: nat, v: bool)
    requires core < coreN && i < poolN && |flags| == coreN * poolN
    ensures Index(poolN, core, i) < |flags|
    ensures BusyOf(flags[Index(poolN, core, i) := v], poolN)
            == if v then BusyOf(flags, poolN) + {Slot(core, i)} else BusyOf(flags, poolN) - {Slot(core, i)}
  {
    SlotPosition(coreN, poolN, core, i);
    hide SlotAt;
    var x := Index(poolN, core, i);
    var flags' := flags[x := v];
    forall b | 0 <= b < |flags| && SlotAt(poolN, b) == Slot(core, i) ensures b == x {
      PositionSlot(coreN, poolN, b);
    }
    forall s ensures s in BusyOf(flags', poolN) <==> if s == Slot(core, i) then v else s in BusyOf(flags, poolN) {
      if s in BusyOf(flags, poolN) {
        var b :| 0 <= b < |flags| && flags[b] && SlotAt(poolN, b) == s;
        assert b != x ==> flags'[b];
      }
      if s == Slot(core, i) && v {
        assert flags'[x];
      }
    }
  }

  class GlobalMemoryManager {
    const mem: Machine
    const mm: MmapManager
    const cmp: CommonMemoryPool
    const coreN_: nat
    const poolN_: nat
    const poolFlags_: array<bool>
    const memoryPools_: seq<MemoryLinkedListManager>
    const managerPools_: seq<LocalMemoryManager>
    /** The function-local statics of the two scans. */
    var allocOffset: int
    var freeOffset: int

    ghost predicate Shape()
    {
      && coreN_ > 0 && poolN_ > 0
      && cmp.Shape() && cmp.mem == mem && cmp.coreN_ == coreN_
      && |memoryPools_| == coreN_ * poolN_ * (coreN_ + 1)
      && |managerPools_| == coreN_ * poolN_ == poolFlags_.Length
      && (forall n :: 0 <= n < |memoryPools_| ==>
            memoryPools_[n].mem == mem && memoryPools_[n].id == RoleAt(coreN_, poolN_, n))
      && (forall b :: 0 <= b < |managerPools_| ==>
            HeapAt(managerPools_[b], mem, mm, cmp, coreN_, poolN_, memoryPools_, b))
    }

    predicate OffsetsOk()
      reads `allocOffset, `freeOffset
    {
      -1 <= allocOffset < poolN_ && -1 <= freeOffset < coreN_
    }

    /** The slots whose flags are set. */
    ghost function Busy(): set<Slot>
      requires poolN_ > 0
      reads poolFlags_
    {
      BusyOf(poolFlags_[..], poolN_)
    }

    /** Some heap of the core is idle. */
    ghost predicate HasIdle(core: nat)
      requires poolN_ > 0
      reads poolFlags_
    {
      exists i: nat :: i < poolN_ && Slot(core, i) !in Busy()
    }

    /** Every queue manager of the allocator. */
    ghost function All(): seq<MemoryLinkedListManager> { memoryPools_ + cmp.poolsPerCore_ }

    /** They share no storage. */
    ghost predicate Apart()
    {
      forall i, j :: 0 <= i < j < |All()| ==> All()[i].Repr !! All()[j].Repr
    }

    ghost predicate AllValid()
      reads All(), set m | m in All() :: m.heads_
      reads set m | m in All() :: m.lasts_
      reads mem`words, mem`places
    {
      forall m :: m in All() ==> m.mem == mem && m.Valid()
    }

    /** The queues and places are those of `st`. */
    ghost predicate Agrees(st: Stock)
      reads All(), mem`places
    {
      mem.places == st.places && forall m :: m in All() ==> m.q == Q(st.qs, m.id)
    }

    constructor Init(mem: Machine, mm: MmapManager, cmp: CommonMemoryPool, numCores: nat, poolN: nat)
      requires numCores > 0 && poolN > 0 && mm.mem == mem && mm.coreN_ == numCores
      requires PoolsReady(cmp, mem, numCores) && forall a :: a in mem.places ==> !mem.places[a].In?
      ensures Shape() && OffsetsOk() && Apart() && AllValid()
      ensures this.mem == mem && this.mm == mm && this.cmp == cmp && coreN_ == numCores && poolN_ == poolN
      ensures Busy() == {} && Agrees(Stock(map[], mem.places))
      ensures fresh(poolFlags_) && forall m :: m in memoryPools_ ==> fresh(m.Repr)
    {
      hide HeapAt, RoleAt, MemoryLinkedListManager.Valid, MemoryLinkedListManager.Shape, Housed, Represents,
        MmapManager.Ready, LocalMemoryManager.Shape, BusyOf, SlotAt, CommonMemoryPool.Shape, Q, Empty;
      var ms := BuildBeside(mem, cmp, numCores, poolN);
      var hs := BuildHeaps(mem, mm, cmp, numCores, poolN, ms);
      this.mem, this.mm, this.cmp, coreN_, poolN_ := mem, mm, cmp, numCores, poolN;
      memoryPools_, managerPools_ := ms, hs;
      var flags := ClearFlags(numCores * poolN);
      poolFlags_ := flags;
      allocOffset, freeOffset := -1, -1;
      new;
      NoFlags(poolFlags_[..], poolN);
      AllEmpty();
    }

    /** Empty queue managers agree with the empty stock. */
    lemma AllEmpty()
      requires forall m :: m in All() ==> m.q == Empty()
      ensures Agrees(Stock(map[], mem.places))
    {}

    lemma BusyAt(core: nat, i: nat)
      requires Shape() && core < coreN_ && i < poolN_
      ensures Index(poolN_, core, i) < poolFlags_.Length
      ensures poolFlags_[Index(poolN_, core, i)] <==> Slot(core, i) in Busy()
    {
      hide HeapAt, RoleAt, BusyOf;
      FlagMeans(poolFlags_[..], coreN_, poolN_, core, i);
    }

    lemma HeapOfSlot(core: nat, i: nat)
      requires Shape() && core < coreN_ && i < poolN_
      ensures Index(poolN_, core, i) < |managerPools_| && managerPools_[Index(poolN_, core, i)].slot == Slot(core, i)
      ensures HeapAt(managerPools_[Index(poolN_, core, i)], mem, mm, cmp, coreN_, poolN_, memoryPools_,
                     Index(poolN_, core, i))
    {
      hide RoleAt;
      SlotPosition(coreN_, poolN_, core, i);
    }

    /** Takes the first idle heap of a core in rotating order; null exactly when all of them are busy. */
    method AllocLocalMemoryManager(core: nat) returns (m: LocalMemoryManager?)
      requires Shape() && OffsetsOk() && core < coreN_
      modifies poolFlags_, `allocOffset
      ensures OffsetsOk()
      ensures m == null <==> forall i :: 0 <= i < poolN_ ==> Slot(core, i) in old(Busy())
      ensures m == null ==> Busy() == old(Busy())
      ensures m != null ==>
                && m in managerPools_ && m.slot.core == core && m.slot.i < poolN_ && m.slot !in old(Busy())
                && Busy() == old(Busy()) + {m.slot}
                && 0 <= allocOffset == (old(allocOffset) + 1) % poolN_
                && exists r: nat :: r < poolN_ && m.slot.i == Turn(allocOffset, r, poolN_)
                                    && forall k: nat :: k < r ==>
                                         Slot(core, Turn(allocOffset, k, poolN_)) in old(Busy())
    {
      hide HeapAt, RoleAt, BusyOf, Turn;
      allocOffset := (allocOffset + 1) % poolN_;
      ghost var start: nat := allocOffset;
      ghost var busy := Busy();
      m := null;
      for i := 0 to poolN_
        invariant poolFlags_[..] == old(poolFlags_[..]) && Busy() == busy && start == allocOffset
        invariant forall k: nat :: k < i ==> Slot(core, Turn(start, k, poolN_)) in busy
      {
        ghost var at := Turn(start, i, poolN_);
        TurnMeans(start, i, poolN_);
        BusyAt(core, at);
        HeapOfSlot(core, at);
        var index := poolN_ * core + (allocOffset + i) % poolN_;
        assert index == Index(poolN_, core, at);
        if !poolFlags_[index] {
          FlagSet(poolFlags_[..], coreN_, poolN_, core, at, true);
          poolFlags_[index] := true;
          assert poolFlags_[..] == old(poolFlags_[..])[index := true];
          return managerPools_[index];
        }
      }
      forall j | 0 <= j < poolN_ ensures Slot(core, j) in busy {
        RotationVisitsOnce(start, poolN_, j);
      }
    }

    /** Everything the heap methods need: all queue managers valid and apart, memory in order, and the queues
        and places those of `st`. */
    ghost predicate In(st: Stock)
      requires Shape()
      reads All(), set m | m in All() :: m.heads_
      reads set m | m in All() :: m.lasts_
      reads mem
    {
      Apart() && AllValid() && mem.Ok() && Agrees(st)
    }

    lemma InKeys(st: Stock)
      requires Shape() && In(st)
      ensures mem.places.Keys == mem.infos.Keys
    {}

    ghost function MalPosition(b: nat): nat { b * (coreN_ + 1) }

    ghost function FreePosition(b: nat, k: nat): nat { b * (coreN_ + 1) + 1 + k }

    /** A heap of the table, with the positions of its lists. */
    lemma TableAt(b: nat, k: nat)
      requires Shape() && b < |managerPools_| && k < coreN_
      ensures var h := managerPools_[b];
              && h.Shape() && h.mem == mem && h.coreN_ == coreN_ == |h.free_| && h.slot == SlotAt(poolN_, b)
              && MalPosition(b) < |memoryPools_| <= |All()| && FreePosition(b, k) < |memoryPools_|
              && h.core_ == h.slot.core
              && h.malloc_ == All()[MalPosition(b)] && h.free_[k] == All()[FreePosition(b, k)]
              && h.malloc_.id == Mal(h.slot) && h.free_[k].id == FreeList(h.slot, k)
    {
      assert HeapAt(managerPools_[b], mem, mm, cmp, coreN_, poolN_, memoryPools_, b);
      hide RoleAt, HeapAt;
      HeapParts(managerPools_[b], mem, mm, cmp, coreN_, poolN_, memoryPools_, b, k);
    }

    /** Two queue managers and the rest. */
    lemma PairAndRest(x: nat, y: nat)
      requires Shape() && Apart() && x < |memoryPools_| && y < |memoryPools_| && x != y
      ensures x < |All()| && y < |All()| && All()[x] in All() && All()[y] in All() && All()[x].Repr !! All()[y].Repr
      ensures All()[x].id != All()[y].id
      ensures forall z :: z in All() && z != All()[x] && z != All()[y] ==>
                && z.Repr !! All()[x].Repr && z.Repr !! All()[y].Repr && z.id != All()[x].id && z.id != All()[y].id
    {
      DistinctRoles(x, y);
      hide GlobalMemoryManager.Shape;
      assert x < |All()| && y < |All()|;
      forall z | z in All() && z != All()[x] && z != All()[y]
        ensures z.Repr !! All()[x].Repr && z.Repr !! All()[y].Repr && z.id != All()[x].id && z.id != All()[y].id
      {
        var n :| 0 <= n < |All()| && All()[n] == z;
        DistinctRoles(n, x);
        DistinctRoles(n, y);
      }
    }

    /** The two queue managers a donation to one heap touches. */
    lemma DonationPair(m: LocalMemoryManager, k: nat, i: nat)
      requires Shape() && Apart() && m in managerPools_ && k < coreN_ && i < poolN_ && m.slot != Slot(k, i)
      ensures Index(poolN_, k, i) < |managerPools_|
      ensures var h := managerPools_[Index(poolN_, k, i)];
              && h.Shape() && m.Shape() && h.mem == m.mem == mem && h.slot == Slot(k, i)
              && h.coreN_ == m.coreN_ == coreN_
              && h.core_ == k && |m.free_| == coreN_
              && h.malloc_ in All() && m.free_[k] in All() && h.malloc_ != m.free_[k]
              && h.malloc_.Repr !! m.free_[k].Repr
              && h.malloc_.id == Mal(Slot(k, i)) && m.free_[k].id == FreeList(m.slot, k)
              && (forall z :: z in All() && z != h.malloc_ && z != m.free_[k] ==>
                    && z.Repr !! h.malloc_.Repr && z.Repr !! m.free_[k].Repr
                    && z.id != Mal(Slot(k, i)) && z.id != FreeList(m.slot, k))
    {
      hide GlobalMemoryManager.Shape, GlobalMemoryManager.Apart, LocalMemoryManager.Shape, GlobalMemoryManager.All,
        GlobalMemoryManager.MalPosition, GlobalMemoryManager.FreePosition, HeapAt, SlotAt, Index;
      HeapOfSlot(k, i);
      var b :| 0 <= b < |managerPools_| && managerPools_[b] == m;
      var a := Index(poolN_, k, i);
      TableAt(a, k);
      TableAt(b, k);
      var x, y := MalPosition(a), FreePosition(b, k);
      assert x != y by { assert All()[x].id != All()[y].id; }
      PairAndRest(x, y);
    }

    /** Different queue managers have different roles. */
    lemma DistinctRoles(n: nat, x: nat)
      requires Shape() && n < |All()| && x < |memoryPools_| && n != x
      ensures All()[n].id != All()[x].id
    {
      hide HeapAt, RoleAt;
      PositionRole(coreN_, poolN_, x);
      if n < |memoryPools_| {
        PositionRole(coreN_, poolN_, n);
      } else {
        assert All()[n] == cmp.poolsPerCore_[n - |memoryPools_|];
      }
    }

    /** One idle heap takes over what the leaving heap has freed for its core. */
    method JoinOne(m: LocalMemoryManager, k: nat, i: nat, ghost st: Stock)
      requires Shape() && In(st) && m in managerPools_ && k < coreN_ && i < poolN_ && m.slot != Slot(k, i)
      modifies set z, o | z in All() && o in z.Repr :: o
      modifies mem`words, mem`places
      ensures In(MoveAll(st, FreeList(m.slot, k), Mal(Slot(k, i)))) && poolFlags_[..] == old(poolFlags_[..])
      ensures LiveSet(mem.places) == old(LiveSet(mem.places))
      ensures BodiesKept(old(mem.words), mem.words, mem.infos, LiveSet(mem.places))
      ensures mem.infos == old(mem.infos) && mem.bump == old(mem.bump) && mem.mainThreadFlag == old(mem.mainThreadFlag)
      ensures allocOffset == old(allocOffset) && freeOffset == old(freeOffset)
      ensures Frame(old(mem.words), old(mem.places), mem.infos, mem.words, mem.places, mem.infos,
                    {Mal(Slot(k, i)), FreeList(m.slot, k)})
    {
      hide MemoryOk, Housed, Represents, Frame, LiveSet, Joined, MemoryLinkedListManager.Valid,
        MemoryLinkedListManager.Shape, HeapAt, RoleAt, BodiesKept, Index, LocalMemoryManager.Shape,
        GlobalMemoryManager.Shape;
      DonationPair(m, k, i);
      ghost var w, p, inf, ids := mem.words, mem.places, mem.infos, {Mal(Slot(k, i)), FreeList(m.slot, k)};
      var index := Index(poolN_, k, i);
      var h := managerPools_[index];
      ghost var to, from := h.malloc_, m.free_[k];
      forall z | z in All()
        ensures z.Shape() && Represents(w, z.q, z.heads_[..], z.lasts_[..]) && Housed(p, z.id, z.q)
        ensures p.Keys == inf.Keys
        ensures (mem as object) !in z.Repr && z.Repr == {z, z.heads_, z.lasts_}
      {
        UnfoldValid(z);
      }
      h.Join(k, m);
      FrameKeepsLive(w, p, inf, mem.words, mem.places, mem.infos, ids, LiveSet(p));
      forall z | z in All() && z != from && z != to
        ensures z.Valid() && z.q == old(z.q)
      {
        assert z.Repr !! from.Repr && z.Repr !! to.Repr;
        assert z.q == old(z.q) && z.heads_[..] == old(z.heads_[..]) && z.lasts_[..] == old(z.lasts_[..]);
        BystanderValid(z, w, p, inf, ids);
      }
    }

    /** A heap of the table is where its slot says. */
    lemma HomeOf(m: LocalMemoryManager)
      requires Shape() && m in managerPools_
      ensures m.slot.core < coreN_ && m.slot.i < poolN_ && Index(poolN_, m.slot.core, m.slot.i) < |managerPools_|
      ensures managerPools_[Index(poolN_, m.slot.core, m.slot.i)] == m
    {
      var b :| 0 <= b < |managerPools_| && managerPools_[b] == m;
      TableAt(b, 0);
      PositionSlot(coreN_, poolN_, b);
    }

    lemma Sizes()
      requires Shape()
      ensures coreN_ > 0 && poolN_ > 0 && |managerPools_| == coreN_ * poolN_ == poolFlags_.Length
    {}

    /** Only sequences and places matter. */
    lemma SameIn(st: Stock, st': Stock)
      requires Shape() && In(st) && st'.places == st.places && forall id :: Q(st'.qs, id) == Q(st.qs, id)
      ensures In(st')
    {}

    /** The leaving heap's free list of core `k`: the lowest idle heap of that core in another slot takes it, and
        the idle heaps after that one find it empty. */
    method HandOn(m: LocalMemoryManager, i: nat, k: nat, ghost st: Stock)
      requires Shape() && In(st) && Tracked(st) && m in managerPools_ && i == m.slot.i && k < coreN_
      modifies set z, o | z in All() && o in z.Repr :: o
      modifies mem`words, mem`places
      ensures poolFlags_[..] == old(poolFlags_[..])
      ensures var h := Heir(old(Busy()), m.slot, poolN_, k);
              In(if h < poolN_ then MoveAll(st, FreeList(m.slot, k), Mal(Slot(k, h))) else st)
      ensures LiveSet(mem.places) == old(LiveSet(mem.places))
      ensures BodiesKept(old(mem.words), mem.words, mem.infos, LiveSet(mem.places))
      ensures mem.infos == old(mem.infos) && mem.bump == old(mem.bump) && mem.mainThreadFlag == old(mem.mainThreadFlag)
      ensures allocOffset == old(allocOffset) && freeOffset == old(freeOffset)
      ensures Frame(old(mem.words), old(mem.places), mem.infos, mem.words, mem.places, mem.infos,
                    HandIds(old(Busy()), m.slot, poolN_, k))
    {
      hide MemoryOk, LiveSet, BodiesKept, Index, GlobalMemoryManager.Shape, GlobalMemoryManager.In, MoveAll, Tracked,
        BusyOf, GlobalMemoryManager.All, Frame, HandIds;
      Sizes();
      ghost var busy, from := Busy(), FreeList(m.slot, k);
      ghost var h := Heir(busy, m.slot, poolN_, k);
      HeirIsLowest(busy, m.slot, poolN_, k);
      HomeOf(m);
      ghost var cur := st;
      ghost var w0, p0, ids := mem.words, mem.places, HandIds(busy, m.slot, poolN_, k);
      InKeys(st);
      SameFrame(w0, p0, mem.infos, ids);
      NothingWritten(mem.words, mem.infos, LiveSet(mem.places));
      for ii := 0 to poolN_
        invariant In(cur) && poolFlags_[..] == old(poolFlags_[..]) && Busy() == busy
        invariant cur == if h < ii then MoveAll(st, from, Mal(Slot(k, h))) else st
        invariant LiveSet(mem.places) == old(LiveSet(mem.places))
        invariant BodiesKept(old(mem.words), mem.words, mem.infos, LiveSet(mem.places))
        invariant mem.infos == old(mem.infos) && mem.bump == old(mem.bump)
        invariant mem.mainThreadFlag == old(mem.mainThreadFlag)
        invariant allocOffset == old(allocOffset) && freeOffset == old(freeOffset)
        invariant Frame(w0, p0, mem.infos, mem.words, mem.places, mem.infos, ids)
      {
        BusyAt(k, ii);
        if i != ii {
          if !poolFlags_[Index(poolN_, k, ii)] {
            ghost var w, p := mem.words, mem.places;
            InKeys(cur);
            JoinOne(m, k, ii, cur);
            InHandIds(busy, m.slot, poolN_, k, ii);
            FrameOnward(w0, p0, w, p, mem.words, mem.places, mem.infos, ids, {Mal(Slot(k, ii)), FreeList(m.slot, k)});
            SameInfosFrame(mem.infos);
            BodiesKeptTransitive(old(mem.words), w, mem.words, mem.infos, mem.infos, LiveSet(mem.places));
            if ii == h {
              cur := MoveAll(st, from, Mal(Slot(k, h)));
            } else {
              MoveTwice(st, from, Mal(Slot(k, h)), Mal(Slot(k, ii)));
              SameIn(MoveAll(cur, from, Mal(Slot(k, ii))), cur);
            }
          }
        }
      }
    }

    /** All of the leaving heap's free lists. */
    method HandOnAll(m: LocalMemoryManager, i: nat, ghost st: Stock)
      requires Shape() && In(st) && Tracked(st) && Homed(st.places, mem.infos) && m in managerPools_ && i == m.slot.i
      modifies set z, o | z in All() && o in z.Repr :: o
      modifies mem`words, mem`places
      ensures poolFlags_[..] == old(poolFlags_[..])
      ensures In(Donate(st, old(Busy()), m.slot, poolN_, coreN_))
      ensures LiveSet(mem.places) == old(LiveSet(mem.places))
      ensures BodiesKept(old(mem.words), mem.words, mem.infos, LiveSet(mem.places))
      ensures mem.infos == old(mem.infos) && mem.bump == old(mem.bump) && mem.mainThreadFlag == old(mem.mainThreadFlag)
      ensures allocOffset == old(allocOffset) && freeOffset == old(freeOffset)
      ensures Frame(old(mem.words), old(mem.places), mem.infos, mem.words, mem.places, mem.infos,
                    DonateIds(old(Busy()), m.slot, poolN_, coreN_))
    {
      hide MemoryOk, LiveSet, BodiesKept, Index, GlobalMemoryManager.Shape, GlobalMemoryManager.In, MoveAll, Tracked,
        BusyOf, GlobalMemoryManager.All, Heir, Homed, Frame, HandIds, DonateIds;
      Sizes();
      ghost var busy := Busy();
      ghost var w0, p0, ids := mem.words, mem.places, DonateIds(busy, m.slot, poolN_, coreN_);
      InKeys(st);
      SameFrame(w0, p0, mem.infos, ids);
      NothingWritten(mem.words, mem.infos, LiveSet(mem.places));
      for k := 0 to coreN_
        invariant In(Donate(st, busy, m.slot, poolN_, k)) && poolFlags_[..] == old(poolFlags_[..])
        invariant LiveSet(mem.places) == old(LiveSet(mem.places))
        invariant BodiesKept(old(mem.words), mem.words, mem.infos, LiveSet(mem.places))
        invariant mem.infos == old(mem.infos) && mem.bump == old(mem.bump)
        invariant mem.mainThreadFlag == old(mem.mainThreadFlag)
        invariant allocOffset == old(allocOffset) && freeOffset == old(freeOffset)
        invariant Frame(w0, p0, mem.infos, mem.words, mem.places, mem.infos, ids)
      {
        ghost var w, p := mem.words, mem.places;
        InKeys(Donate(st, busy, m.slot, poolN_, k));
        DonateTracked(st, mem.infos, busy, m.slot, poolN_, k);
        HandOn(m, i, k, Donate(st, busy, m.slot, poolN_, k));
        HandWithin(busy, m.slot, poolN_, coreN_, k);
        FrameOnward(w0, p0, w, p, mem.words, mem.places, mem.infos, ids, HandIds(busy, m.slot, poolN_, k));
        SameInfosFrame(mem.infos);
        BodiesKeptTransitive(old(mem.words), w, mem.words, mem.infos, mem.infos, LiveSet(mem.places));
      }
    }

    /** The scan of one core's slots for a heap. */
    method LocateIn(m: LocalMemoryManager, core: nat) returns (found: bool, i: nat)
      requires Shape() && m in managerPools_ && core < coreN_
      ensures found <==> m.slot in Busy() && m.slot.core == core
      ensures found ==> i < poolN_ && m.slot == Slot(core, i)
    {
      hide BusyOf, GlobalMemoryManager.Shape, Index;
      Sizes();
      HomeOf(m);
      i := 0;
      while i < poolN_
        invariant i <= poolN_
        invariant core == m.slot.core && m.slot.i < i ==> m.slot !in Busy()
      {
        BusyAt(core, i);
        HeapOfSlot(core, i);
        IndexIs(poolN_, core, i);
        if poolFlags_[poolN_ * core + i] && managerPools_[poolN_ * core + i] == m {
          return true, i;
        }
        i := i + 1;
      }
      found := false;
    }

    /** The rotating scan for a heap: it finds every heap whose flag is set, and no other. */
    method Locate(m: LocalMemoryManager, start: nat) returns (found: bool, core: nat, i: nat)
      requires Shape() && start < coreN_ && m in managerPools_
      ensures found <==> m.slot in Busy()
      ensures found ==> m.slot == Slot(core, i) && core < coreN_ && i < poolN_
    {
      hide BusyOf, Turn, GlobalMemoryManager.Shape, Index;
      Sizes();
      HomeOf(m);
      core, i := 0, 0;
      for j := 0 to coreN_
        invariant forall x: nat :: x < j && Turn(start, x, coreN_) == m.slot.core ==> m.slot !in Busy()
      {
        TurnMeans(start, j, coreN_);
        core := (j + start) % coreN_;
        found, i := LocateIn(m, core);
        if found {
          return;
        }
      }
      RotationVisitsOnce(start, coreN_, m.slot.core);
      found := false;
    }

    /** Takes a heap back: it is always found, hands on what it has freed, and becomes idle. */
    method FreeLocalMemoryManager(m: LocalMemoryManager, ghost st: Stock)
      requires Shape() && OffsetsOk() && In(st) && Tracked(st) && Homed(st.places, mem.infos)
      requires m in managerPools_ && m.slot in Busy()
      modifies set z, o | z in All() && o in z.Repr :: o
      modifies mem`words, mem`places, poolFlags_, `freeOffset
      ensures OffsetsOk() && Busy() == old(Busy()) - {m.slot}
      ensures In(Donate(st, old(Busy()), m.slot, poolN_, coreN_))
      ensures LiveSet(mem.places) == old(LiveSet(mem.places))
      ensures BodiesKept(old(mem.words), mem.words, mem.infos, LiveSet(mem.places))
      ensures mem.infos == old(mem.infos) && mem.bump == old(mem.bump) && mem.mainThreadFlag == old(mem.mainThreadFlag)
      ensures Frame(old(mem.words), old(mem.places), mem.infos, mem.words, mem.places, mem.infos,
                    DonateIds(old(Busy()), m.slot, poolN_, coreN_))
    {
      hide MemoryOk, LiveSet, BodiesKept, GlobalMemoryManager.Shape, Tracked, BusyOf, Donate, Homed, Index, Frame,
        DonateIds;
      Sizes();
      freeOffset := (freeOffset + 1) % coreN_;
      var found, core, i := Locate(m, freeOffset);
      if found {
        HandOnAll(m, i, st);
        FlagSet(poolFlags_[..], coreN_, poolN_, core, i, false);
        poolFlags_[Index(poolN_, core, i)] := false;
        assert poolFlags_[..] == old(poolFlags_[..])[Index(poolN_, core, i) := false];
      }
    }

    /** A heap of the table queues a live chunk. */
    method QueueIn(m: LocalMemoryManager, ptr: Addr, ghost k: nat, ghost st: Stock)
      requires Shape() && In(st) && m in managerPools_ && k < coreN_ && ptr != 0
      requires mem.Live(ptr - HEADER) && mem.infos[ptr - HEADER].core == k
      modifies set z, o | z in All() && o in z.Repr :: o
      modifies mem`words, mem`places
      ensures In(PutBack(st, FreeList(m.slot, k), Logarithm2(old(mem.infos[ptr - HEADER].size)), ptr - HEADER))
      ensures poolFlags_[..] == old(poolFlags_[..])
      ensures LiveSet(mem.places) == old(LiveSet(mem.places)) - {ptr - HEADER}
      ensures BodiesKept(old(mem.words), mem.words, mem.infos, old(LiveSet(mem.places)))
      ensures mem.infos == old(mem.infos) && mem.bump == old(mem.bump) && mem.mainThreadFlag == old(mem.mainThreadFlag)
      ensures allocOffset == old(allocOffset) && freeOffset == old(freeOffset)
      ensures Frame(old(mem.words), old(mem.places), mem.infos, mem.words, mem.places, mem.infos,
                    {FreeList(m.slot, k)})
    {
      hide MemoryOk, Housed, Represents, Frame, LiveSet, Logarithm2, MemoryLinkedListManager.Valid,
        MemoryLinkedListManager.Shape, HeapAt, RoleAt, BodiesKept, Index, LocalMemoryManager.Shape,
        GlobalMemoryManager.Shape;
      ListAt(m, k);
      ghost var w, p, inf, ids := mem.words, mem.places, mem.infos, {FreeList(m.slot, k)};
      ghost var to := m.free_[k];
      forall z | z in All()
        ensures z.Shape() && Represents(w, z.q, z.heads_[..], z.lasts_[..]) && Housed(p, z.id, z.q)
        ensures p.Keys == inf.Keys
        ensures (mem as object) !in z.Repr && z.Repr == {z, z.heads_, z.lasts_}
      {
        UnfoldValid(z);
      }
      m.Free(ptr, k);
      FrameKeepsLive(w, p, inf, mem.words, mem.places, mem.infos, ids, LiveSet(p));
      forall z | z in All() && z != to
        ensures z.Valid() && z.q == old(z.q)
      {
        assert z.Repr !! to.Repr;
        assert z.q == old(z.q) && z.heads_[..] == old(z.heads_[..]) && z.lasts_[..] == old(z.lasts_[..]);
        BystanderValid(z, w, p, inf, ids);
      }
    }

    /** One list of a heap, and the rest. */
    lemma ListAt(m: LocalMemoryManager, k: nat)
      requires Shape() && Apart() && m in managerPools_ && k < coreN_
      ensures m.Shape() && m.mem == mem && m.coreN_ == coreN_ == |m.free_| && m.free_[k] in All()
      ensures m.free_[k].id == FreeList(m.slot, k)
      ensures forall z :: z in All() && z != m.free_[k] ==> z.Repr !! m.free_[k].Repr && z.id != FreeList(m.slot, k)
    {
      hide GlobalMemoryManager.Shape, GlobalMemoryManager.Apart, LocalMemoryManager.Shape, GlobalMemoryManager.All,
        GlobalMemoryManager.MalPosition, GlobalMemoryManager.FreePosition, HeapAt, SlotAt, Index;
      var b :| 0 <= b < |managerPools_| && managerPools_[b] == m;
      TableAt(b, k);
      assert All()[MalPosition(b)].id != All()[FreePosition(b, k)].id;
      PairAndRest(MalPosition(b), FreePosition(b, k));
    }

    /** A release by a thread without a heap: an idle heap of the chunk's core queues it and is given back. */
    method Free(ptr: Addr, ghost st: Stock) returns (ghost slot: Slot)
      requires Shape() && OffsetsOk() && In(st) && Tracked(st) && Homed(st.places, mem.infos)
      requires ptr != 0 && mem.Live(ptr - HEADER) && mem.infos[ptr - HEADER].core < coreN_
      requires HasIdle(mem.infos[ptr - HEADER].core)
      modifies set z, o | z in All() && o in z.Repr :: o
      modifies mem`words, mem`places, poolFlags_, `allocOffset, `freeOffset
      ensures OffsetsOk() && Busy() == old(Busy()) && mem.infos == old(mem.infos)
      ensures var info := old(mem.infos[ptr - HEADER]);
              && slot.core == info.core && slot.i < poolN_ && slot !in old(Busy())
              && In(Donate(PutBack(st, FreeList(slot, info.core), Logarithm2(info.size), ptr - HEADER),
                           old(Busy()) + {slot}, slot, poolN_, coreN_))
      ensures LiveSet(mem.places) == old(LiveSet(mem.places)) - {ptr - HEADER}
      ensures BodiesKept(old(mem.words), mem.words, mem.infos, LiveSet(mem.places))
      ensures Frame(old(mem.words), old(mem.places), mem.infos, mem.words, mem.places, mem.infos,
                    {FreeList(slot, old(mem.infos[ptr - HEADER]).core)}
                    + DonateIds(old(Busy()) + {slot}, slot, poolN_, coreN_))
    {
      hide MemoryOk, LiveSet, BodiesKept, GlobalMemoryManager.Shape, Tracked, BusyOf, Donate, Homed, Index, Logarithm2,
        PutBack, Frame, DonateIds;
      ghost var x := ptr - HEADER;
      HeaderSize(mem.words, mem.places, mem.infos, mem.bump.granted, x);
      var core := mem.Get(ptr - HEADER, OFF_CORE);
      assert (this as object) != mem;
      var lp := AllocLocalMemoryManager(core);
      slot := lp.slot;
      ghost var st1 := PutBack(st, FreeList(slot, core), Logarithm2(mem.infos[x].size), x);
      QueuedStock(st, mem.infos, slot, x);
      ghost var w, p, ids := mem.words, mem.places, {FreeList(slot, core)};
      OkKeys(mem);
      QueueIn(lp, ptr, core, st);
      ghost var w1, p1, gone := mem.words, mem.places, DonateIds(Busy(), slot, poolN_, coreN_);
      OkKeys(mem);
      FreeLocalMemoryManager(lp, st1);
      FrameWider(w, p, mem.infos, w1, p1, mem.infos, ids, ids + gone);
      FrameOnward(w, p, w1, p1, mem.words, mem.places, mem.infos, ids + gone, gone);
      SameInfosFrame(mem.infos);
      FewerBodies(w, w1, mem.infos, old(LiveSet(mem.places)), LiveSet(mem.places));
      BodiesKeptTransitive(w, w1, mem.words, mem.infos, mem.infos, LiveSet(mem.places));
    }
  }

  lemma OkKeys(mem: Machine)
    requires mem.Ok()
    ensures mem.places.Keys == mem.infos.Keys
  {}

  lemma InHandIds(busy: set<Slot>, slot: Slot, poolN: nat, k: nat, i: nat)
    requires i < poolN && Slot(k, i) !in busy
    ensures {Mal(Slot(k, i)), FreeList(slot, k)} <= HandIds(busy, slot, poolN, k)
  {}

  /** One operation more, confined to part of `ids`. */
  lemma FrameOnward(w0: Words, p0: Places, w1: Words, p1: Places, w2: Words, p2: Places, infos: Infos,
                    ids: set<QueueId>, part: set<QueueId>)
    requires p0.Keys == infos.Keys && p1.Keys == infos.Keys && part <= ids
    requires Frame(w0, p0, infos, w1, p1, infos, ids) && Frame(w1, p1, infos, w2, p2, infos, part)
    ensures Frame(w0, p0, infos, w2, p2, infos, ids)
  {
    hide Frame;
    FrameWider(w1, p1, infos, w2, p2, infos, part, ids);
    FrameTransitive(w0, p0, infos, w1, p1, infos, w2, p2, infos, ids);
  }

  lemma QueuedStock(st: Stock, infos: Infos, slot: Slot, x: Addr)
    requires Tracked(st) && Homed(st.places, infos) && x in infos && x in st.places && st.places[x].Out?
    ensures var st1 := PutBack(st, FreeList(slot, infos[x].core), Logarithm2(infos[x].size), x);
            Tracked(st1) && Homed(st1.places, infos)
  {
    hide Tracked, Homed, Logarithm2, PutBack;
    PutBackTracked(st, FreeList(slot, infos[x].core), Logarithm2(infos[x].size), x);
    PutBackHomed(st, infos, FreeList(slot, infos[x].core), Logarithm2(infos[x].size), x);
  }

  lemma FewerBodies(w: Words, w': Words, infos: Infos, live: set<Addr>, fewer: set<Addr>)
    requires BodiesKept(w, w', infos, live) && fewer <= live
    ensures BodiesKept(w, w', infos, fewer)
  {}

  lemma SameInfosFrame(infos: Infos)
    ensures InfosFrame(infos, infos)
  {}

  /** Nothing moves from an empty queue manager. */
  lemma MoveTwice(st: Stock, from: QueueId, to: QueueId, to': QueueId)
    requires Tracked(st) && from != to && from != to'
    ensures var st1 := MoveAll(st, from, to);
            var st2 := MoveAll(st1, from, to');
            st2.places == st1.places && forall id :: Q(st2.qs, id) == Q(st1.qs, id)
  {
    var st1 := MoveAll(st, from, to);
    var st2 := MoveAll(st1, from, to');
    forall a | a in st1.places ensures st2.places[a] == st1.places[a] {}
    forall id ensures Q(st2.qs, id) == Q(st1.qs, id) {
      assert Q(st1.qs, from) == Empty();
      if id == to' { JoinedEmpty(Q(st1.qs, id)); }
    }
  }

  lemma JoinedEmpty(q: Queues)
    ensures Joined(q, Empty()) == q
  {
    forall k | 0 <= k < CLASSES ensures Joined(q, Empty())[k] == q[k] {
      assert q[k] + [] == q[k];
    }
  }

  lemma HeapParts(h: LocalMemoryManager, mem: Machine, mm: MmapManager, cmp: CommonMemoryPool, coreN: nat, poolN: nat,
                  ms: seq<MemoryLinkedListManager>, b: nat, k: nat)
    requires poolN > 0 && b < coreN * poolN && |ms| == coreN * poolN * (coreN + 1) && k < coreN
    requires HeapAt(h, mem, mm, cmp, coreN, poolN, ms, b)
    ensures h.Shape() && h.mem == mem && h.coreN_ == coreN && h.slot == SlotAt(poolN, b)
    ensures b * (coreN + 1) + 1 + k < |ms| && h.malloc_ == ms[b * (coreN + 1)]
    ensures h.free_[k] == ms[b * (coreN + 1) + 1 + k]
    ensures h.malloc_.id == Mal(h.slot) && h.free_[k].id == FreeList(h.slot, k)
  {}

  lemma IndexIs(poolN: nat, core: nat, i: nat)
    ensures poolN * core + i == Index(poolN, core, i)
  {}

  lemma TurnMeans(start: nat, i: nat, n: nat)
    requires n > 0
    ensures Turn(start, i, n) == (start + i) % n < n
  {}
}
