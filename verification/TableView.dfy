/** What the heap methods do to the whole table: the effect of a flush, a request or a reallocation of one heap on the
    stock of the allocator, with every other heap and pool as it was. */
module TableViews {
  import opened SizeClass
  import opened Bump
  import opened Chunks
  import opened Machines
  import opened MmapManagers
  import opened LinkedLists
  import opened Carving
  import opened SizeTables
  import opened CommonPools
  import opened LocalHeaps
  import opened Stocks
  import opened Donations
  import opened HeapLayouts
  import opened HeapTables
  import opened Matters
  import opened Lanes
  import opened Requests
  import opened Protocol

  // ---------------------------------------------------------------- a flush, seen from the whole table

  /** The queue managers in reach of a heap of the table, and the others. */
  lemma TeamOf(g: GlobalMemoryManager, m: LocalMemoryManager)
    requires g.Shape() && g.Apart() && m in g.managerPools_
    ensures m.Shape() && m.mem == g.mem && m.mm == g.mm && m.cmp_ == g.cmp && m.coreN_ == g.coreN_
    ensures forall z :: z in m.Team() ==> z in g.All()
    ensures forall z :: z in g.All() && z !in m.Team() ==> z.id !in m.FlushIds()
    ensures forall z, y :: z in g.All() && y in m.Team() && z != y ==> z.Repr !! y.Repr
  {
    AllApart(g);
    hide RoleAt, SlotAt, HeapAt, Index, GlobalMemoryManager.Shape;
    MemberOf(g, m);
    PoolsOf(g);
    forall k | 0 <= k < m.coreN_
      ensures m.free_[k] in g.All() && forall z :: z in g.All() && z != m.free_[k] ==> z.id != FreeList(m.slot, k)
    {
      g.ListAt(m, k);
    }
  }

  lemma AllApart(g: GlobalMemoryManager)
    requires g.Apart()
    ensures forall z, y :: z in g.All() && y in g.All() && z != y ==> z.Repr !! y.Repr
  {
    forall z, y | z in g.All() && y in g.All() && z != y ensures z.Repr !! y.Repr {
      var i :| 0 <= i < |g.All()| && g.All()[i] == z;
      var j :| 0 <= j < |g.All()| && g.All()[j] == y;
    }
  }

  lemma MemberOf(g: GlobalMemoryManager, m: LocalMemoryManager)
    requires g.Shape() && m in g.managerPools_
    ensures m.msm_ == g.cmp.msm_ && m.Shape() && m.mem == g.mem && m.mm == g.mm && m.cmp_ == g.cmp
    ensures m.coreN_ == g.coreN_ && m.malloc_ in g.All()
  {
    var b :| 0 <= b < |g.managerPools_| && g.managerPools_[b] == m;
    assert HeapAt(m, g.mem, g.mm, g.cmp, g.coreN_, g.poolN_, g.memoryPools_, b);
    hide RoleAt, SlotAt;
  }

  lemma PoolsOf(g: GlobalMemoryManager)
    requires g.Shape()
    ensures g.cmp.Shape() && g.cmp.coreN_ == g.coreN_
    ensures forall z :: z in g.cmp.poolsPerCore_ ==> z in g.All()
    ensures forall z :: z in g.All() && z.id.Pool? ==> z in g.cmp.poolsPerCore_
  {
    hide SlotAt, HeapAt;
    forall z | z in g.All() && z.id.Pool? ensures z in g.cmp.poolsPerCore_ {
      var n :| 0 <= n < |g.All()| && g.All()[n] == z;
      if n < |g.memoryPools_| { assert false; }
    }
  }

  /** The flags of the table are not stored in its queue managers. */
  lemma FlagsOutside(g: GlobalMemoryManager)
    requires forall z :: z in g.All() ==> z.Repr == {z, z.heads_, z.lasts_}
    ensures forall z :: z in g.All() ==> (g as object) !in z.Repr && (g.poolFlags_ as object) !in z.Repr
  {}

  /** The mapped-memory manager shares no storage with any queue manager or with the flags. */
  ghost predicate MmapApart(g: GlobalMemoryManager) {
    && (forall z :: z in g.All() ==> z.Repr !! g.mm.Repr)
    && (g.poolFlags_ as object) !in g.mm.Repr && (g as object) !in g.mm.Repr
  }

  lemma TeamReady(g: GlobalMemoryManager, m: LocalMemoryManager, st: Stock)
    requires g.Shape() && g.In(st) && MmapApart(g) && m in g.managerPools_
    ensures m.Shape() && m.mem == g.mem && m.TeamApart() && m.TeamValid()
  {
    TeamOf(g, m);
    hide RoleAt, SlotAt, HeapAt, Index, GlobalMemoryManager.Shape, MemoryLinkedListManager.Valid,
      LocalMemoryManager.Shape, LocalMemoryManager.FlushIds, LocalMemoryManager.Team;
  }

  /** The lists of a heap and the common pools after its flush, in terms of the stock before. */
  ghost predicate TeamFlushed(m: LocalMemoryManager, st: Stock)
    requires m.Shape()
    reads m.malloc_, m.free_, m.cmp_.poolsPerCore_
  {
    && m.malloc_.q == Q(st.qs, Mal(m.slot)) && m.free_[m.core_].q == Q(st.qs, FreeList(m.slot, m.core_))
    && m.cmp_.poolsPerCore_[m.core_].q == Q(st.qs, Pool(m.core_))
    && forall k: nat :: k < m.coreN_ && k != m.core_ ==>
         && m.cmp_.poolsPerCore_[k].q == Joined(Q(st.qs, Pool(k)), Q(st.qs, FreeList(m.slot, k)))
         && m.free_[k].q == Empty()
  }

  /** `AllFreeToCommonMemoryPool`, beside the other heaps of the table. */
  method FlushBeside(g: GlobalMemoryManager, m: LocalMemoryManager, ghost st: Stock)
    requires g.Shape() && g.In(st) && MmapApart(g) && m in g.managerPools_ && m.Shape()
    modifies set z, o | z in g.All() && o in z.Repr :: o
    modifies g.mem`words, g.mem`places
    ensures g.mem.Ok() && g.AllValid() && TeamFlushed(m, st) && g.mem.places == FlushPlaces(st.places, m.slot, g.coreN_)
    ensures forall z :: z in g.All() && z !in m.Team() ==> z.q == Q(st.qs, z.id)
    ensures g.poolFlags_[..] == old(g.poolFlags_[..])
    ensures LiveSet(g.mem.places) == old(LiveSet(g.mem.places))
    ensures BodiesKept(old(g.mem.words), g.mem.words, g.mem.infos, LiveSet(g.mem.places))
    ensures g.mem.infos == old(g.mem.infos) && g.mem.bump == old(g.mem.bump)
    ensures g.mem.mainThreadFlag == old(g.mem.mainThreadFlag)
    ensures g.allocOffset == old(g.allocOffset) && g.freeOffset == old(g.freeOffset)
    ensures Frame(old(g.mem.words), st.places, g.mem.infos, g.mem.words, g.mem.places, g.mem.infos, m.FlushIds())
  {
    hide MemoryOk, Housed, Represents, Frame, LiveSet, Joined, MemoryLinkedListManager.Valid,
      MemoryLinkedListManager.Shape, HeapAt, RoleAt, BodiesKept, LocalMemoryManager.Shape, GlobalMemoryManager.Shape,
      LocalMemoryManager.TeamApart, LocalMemoryManager.TeamValid, FlushBelow, FlushPlaces, BusyOf,
      LocalMemoryManager.Team, LocalMemoryManager.FlushIds;
    TeamReady(g, m, st);
    TeamOf(g, m);
    TeamRoles(m);
    ghost var mem := g.mem;
    ghost var w, p, inf, ids := mem.words, mem.places, mem.infos, m.FlushIds();
    forall z | z in g.All()
      ensures z.Shape() && Represents(w, z.q, z.heads_[..], z.lasts_[..]) && Housed(p, z.id, z.q) && p.Keys == inf.Keys
      ensures (mem as object) !in z.Repr && z.Repr == {z, z.heads_, z.lasts_}
    {
      UnfoldValid(z);
    }
    FlagsOutside(g);
    m.AllFreeToCommonMemoryPool();
    assert g.poolFlags_[..] == old(g.poolFlags_[..]) && g.allocOffset == old(g.allocOffset)
           && g.freeOffset == old(g.freeOffset);
    FrameKeepsLive(w, p, inf, mem.words, mem.places, mem.infos, ids, LiveSet(p));
    forall z | z in g.All() && z !in m.Team()
      ensures z.Valid() && z.q == old(z.q)
    {
      assert z.q == old(z.q) && z.heads_[..] == old(z.heads_[..]) && z.lasts_[..] == old(z.lasts_[..]);
      BystanderValid(z, w, p, inf, ids);
    }
    TeamMembersValid(m);
  }

  /** A heap of the table flushes: the queues and places become those of the flushed stock. */
  method FlushHeap(g: GlobalMemoryManager, m: LocalMemoryManager, ghost st: Stock)
    requires g.Shape() && g.In(st) && MmapApart(g) && m in g.managerPools_
    modifies set z, o | z in g.All() && o in z.Repr :: o
    modifies g.mem`words, g.mem`places
    ensures g.In(FlushBelow(st, m.slot, g.coreN_)) && g.poolFlags_[..] == old(g.poolFlags_[..])
    ensures LiveSet(g.mem.places) == old(LiveSet(g.mem.places))
    ensures BodiesKept(old(g.mem.words), g.mem.words, g.mem.infos, LiveSet(g.mem.places))
    ensures g.mem.infos == old(g.mem.infos) && g.mem.bump == old(g.mem.bump)
    ensures g.mem.mainThreadFlag == old(g.mem.mainThreadFlag)
    ensures g.allocOffset == old(g.allocOffset) && g.freeOffset == old(g.freeOffset)
    ensures Frame(old(g.mem.words), st.places, g.mem.infos, g.mem.words, g.mem.places, g.mem.infos, m.FlushIds())
  {
    hide MemoryOk, LiveSet, BodiesKept, LocalMemoryManager.Shape, GlobalMemoryManager.Shape, FlushBelow, FlushPlaces,
      LocalMemoryManager.Team, LocalMemoryManager.FlushIds, TeamFlushed, Q, MemoryLinkedListManager.Valid, Frame;
    TeamOf(g, m);
    FlushPlacesOf(st, m.slot, g.coreN_);
    FlushBeside(g, m, st);
    FlushedAgree(g, m, st);
  }

  /** The sequences after a flush are those of the flushed stock. */
  lemma FlushedAgree(g: GlobalMemoryManager, m: LocalMemoryManager, st: Stock)
    requires m.Shape() && m.coreN_ == g.coreN_
    requires TeamFlushed(m, st)
    requires forall z :: z in g.All() && z !in m.Team() ==> z.q == Q(st.qs, z.id) && z.id !in m.FlushIds()
    ensures forall z :: z in g.All() ==> z.q == Q(FlushBelow(st, m.slot, g.coreN_).qs, z.id)
  {
    hide FlushBelow, Joined, Q, LocalMemoryManager.Team, LocalMemoryManager.FlushIds, Empty;
    forall z | z in g.All()
      ensures z.q == Q(FlushBelow(st, m.slot, g.coreN_).qs, z.id)
    {
      FlushReads(st, m.slot, g.coreN_, z.id);
      if z in m.Team() {
        TeamRole(m, z);
      } else {
        NotFlushed(m, z);
      }
    }
  }

  lemma TeamMembersValid(m: LocalMemoryManager)
    requires m.TeamValid()
    ensures forall z :: z in m.Team() ==> z.mem == m.mem && z.Valid()
  {
    hide MemoryLinkedListManager.Valid, LocalMemoryManager.Team;
  }

  lemma TeamRoles(m: LocalMemoryManager)
    requires m.Shape()
    ensures m.core_ == m.slot.core < m.coreN_ == |m.free_| == |m.cmp_.poolsPerCore_|
    ensures m.malloc_ in m.Team() && m.malloc_.id == Mal(m.slot)
    ensures forall k :: 0 <= k < m.coreN_ ==>
              && m.free_[k] in m.Team() && m.free_[k].id == FreeList(m.slot, k)
              && m.cmp_.poolsPerCore_[k] in m.Team() && m.cmp_.poolsPerCore_[k].id == Pool(k)
  {}

  /** A member of a heap's team by its role. */
  lemma TeamRole(m: LocalMemoryManager, z: MemoryLinkedListManager)
    requires m.Shape() && z in m.Team()
    ensures match z.id
            case Mal(s) => s == m.slot && z == m.malloc_
            case FreeList(s, k) => s == m.slot && k < m.coreN_ == |m.free_| && z == m.free_[k]
            case Pool(k) => k < m.coreN_ == |m.cmp_.poolsPerCore_| && z == m.cmp_.poolsPerCore_[k]
  {}

  lemma NotFlushed(m: LocalMemoryManager, z: MemoryLinkedListManager)
    requires m.Shape() && z.id !in m.FlushIds()
    ensures match z.id
            case Mal(_) => true
            case FreeList(s, k) => s != m.slot || k >= m.coreN_ || k == m.core_
            case Pool(k) => k >= m.coreN_ || k == m.core_
  {}

  // ---------------------------------------------------------------- a request, seen from the whole table

  /** The near lists of a heap, and the rest. */
  lemma NearAndRest(g: GlobalMemoryManager, m: LocalMemoryManager)
    requires g.Shape() && g.Apart() && m in g.managerPools_
    ensures m.Shape() && m.mem == g.mem && m.mm == g.mm && m.cmp_ == g.cmp && m.msm_ == g.cmp.msm_
    ensures m.core_ == m.slot.core < |m.free_| == |m.cmp_.poolsPerCore_|
    ensures forall z :: z in {m.malloc_, m.free_[m.core_], m.cmp_.poolsPerCore_[m.core_]} ==>
              z in g.All() && z.id in m.NearIds()
    ensures m.malloc_.id == Mal(m.slot) && m.free_[m.core_].id == FreeList(m.slot, m.core_)
    ensures m.cmp_.poolsPerCore_[m.core_].id == Pool(m.core_)
    ensures forall z :: z in g.All() && z !in {m.malloc_, m.free_[m.core_], m.cmp_.poolsPerCore_[m.core_]} ==>
              && z.id !in m.NearIds()
              && z.Repr !! m.malloc_.Repr && z.Repr !! m.free_[m.core_].Repr
              && z.Repr !! m.cmp_.poolsPerCore_[m.core_].Repr
  {
    hide RoleAt, SlotAt, HeapAt, Index, GlobalMemoryManager.Shape, GlobalMemoryManager.Apart, GlobalMemoryManager.All,
      CommonMemoryPool.Shape;
    AllApart(g);
    MemberOf(g, m);
    PoolsOf(g);
    TeamOf(g, m);
    TeamRoles(m);
    g.ListAt(m, m.core_);
    MalAlone(g, m);
    PoolAlone(g, m.core_);
  }

  lemma MalAlone(g: GlobalMemoryManager, m: LocalMemoryManager)
    requires g.Shape() && g.Apart() && m in g.managerPools_
    ensures forall z :: z in g.All() && z != m.malloc_ ==> z.id != Mal(m.slot)
  {
    hide GlobalMemoryManager.Shape, GlobalMemoryManager.Apart, LocalMemoryManager.Shape, GlobalMemoryManager.All,
      GlobalMemoryManager.MalPosition, GlobalMemoryManager.FreePosition, HeapAt, SlotAt, Index;
    g.Sizes();
    var b :| 0 <= b < |g.managerPools_| && g.managerPools_[b] == m;
    g.TableAt(b, 0);
    assert g.All()[g.MalPosition(b)].id != g.All()[g.FreePosition(b, 0)].id;
    g.PairAndRest(g.MalPosition(b), g.FreePosition(b, 0));
  }

  lemma PoolAlone(g: GlobalMemoryManager, k: nat)
    requires g.Shape() && k < g.coreN_
    ensures k < |g.cmp.poolsPerCore_| && forall z :: z in g.All() && z != g.cmp.poolsPerCore_[k] ==> z.id != Pool(k)
  {
    PoolsOf(g);
    hide GlobalMemoryManager.Shape, GlobalMemoryManager.All;
  }

  /** What a request leaves of the queues, in terms of the stock before. */
  ghost predicate NearServed(m: LocalMemoryManager, st: Stock, k: nat, r: Attempt)
    requires m.Shape() && k < CLASSES
    reads m.malloc_, m.free_[m.core_], m.cmp_.poolsPerCore_[m.core_]
  {
    m.Holds(Q(st.qs, Mal(m.slot)), Q(st.qs, FreeList(m.slot, m.core_)), Q(st.qs, Pool(m.core_)), k, r.lane)
  }

  lemma LaneAgrees(m: LocalMemoryManager, st: Stock, k: nat)
    requires m.Shape() && k < CLASSES
    requires m.malloc_.q == Q(st.qs, Mal(m.slot)) && m.free_[m.core_].q == Q(st.qs, FreeList(m.slot, m.core_))
    requires m.cmp_.poolsPerCore_[m.core_].q == Q(st.qs, Pool(m.core_))
    ensures m.LaneAt(k) == LaneOf(st.qs, m.slot, k)
  {}

  /** `Malloc` of a heap, beside the other heaps of the table. */
  method ServeBeside(g: GlobalMemoryManager, m: LocalMemoryManager, size: nat, ghost st: Stock)
    returns (ptr: Addr, ghost p: nat, ghost region: nat, ghost s: seq<Addr>)
    requires g.Shape() && g.In(st) && MmapApart(g) && m in g.managerPools_ && 0 < size < TWO_64
    requires m.Shape() && TableOk(g.cmp.msm_.nPerSize_, g.mm.pageSize_) && g.mm.Ready()
    requires g.mm.extendOffset_ < EXTEND_MAX
    modifies set z, o | z in g.All() && o in z.Repr :: o
    modifies g.mm.Repr, g.mm.kernel, g.mem`words, g.mem`places, g.mem`errno, g.mem`bump, g.mem`infos
    ensures g.mem.Ok() && g.AllValid() && g.mm.Ready() && g.poolFlags_[..] == old(g.poolFlags_[..])
    ensures forall z :: z in g.All() && z.id !in m.NearIds() ==> z.q == Q(st.qs, z.id)
    ensures var k := Logarithm2(size);
            var l := LaneOf(st.qs, m.slot, Logarithm2(size));
            var n := g.cmp.msm_.GetMemorySize(k);
            var r := FourStages(l, n, s);
            && NearServed(m, st, k, r) && g.mem.Served(ptr, r.got, size)
            && LiveSet(g.mem.places) == LiveSet(st.places) + Elements(r.got)
            && LocalHeaps.Supplied(l, n, old(g.mem.infos), old(g.mem.bump), g.mem.infos, g.mem.bump,
                                   g.mm.SlotOf(m.core_), m.core_, size, p, region, s)
    ensures ptr == 0 ==> g.mem.errno == ENOMEM
    ensures Frame(old(g.mem.words), st.places, old(g.mem.infos), g.mem.words, g.mem.places, g.mem.infos, m.NearIds())
    ensures g.allocOffset == old(g.allocOffset) && g.freeOffset == old(g.freeOffset)
    ensures g.mm.extendOffset_ <= old(g.mm.extendOffset_) + 1
  {
    hide MemoryOk, Housed, Represents, Frame, LiveSet, Logarithm2, FourStages, MemoryLinkedListManager.Valid,
      MemoryLinkedListManager.Shape, HeapAt, RoleAt, SlotAt, LocalMemoryManager.Shape, GlobalMemoryManager.Shape,
      LocalMemoryManager.TeamApart, LocalMemoryManager.TeamValid, TableOk, MmapManager.Ready,
      LocalMemoryManager.NearIds, CommonMemoryPool.Shape, LocalHeaps.Supplied, LocalMemoryManager.Near,
      LocalMemoryManager.Backed, LocalMemoryManager.Holds, LocalMemoryManager.LaneAt, LaneOf, Q, Machine.Served;
    HeapIsReady(g, m, st);
    NearAndRest(g, m);
    g.mm.MemOutside();
    ghost var mem := g.mem;
    ghost var w, pl, inf, ids := mem.words, mem.places, mem.infos, m.NearIds();
    forall z | z in g.All()
      ensures z.Shape() && Represents(w, z.q, z.heads_[..], z.lasts_[..]) && Housed(pl, z.id, z.q)
      ensures pl.Keys == inf.Keys
      ensures (mem as object) !in z.Repr && z.Repr == {z, z.heads_, z.lasts_}
    {
      UnfoldValid(z);
    }
    LaneAgrees(m, st, Logarithm2(size));
    FlagsOutside(g);
    ptr, p, region, s := m.Malloc(size);
    assert g.poolFlags_[..] == old(g.poolFlags_[..]) && g.allocOffset == old(g.allocOffset)
           && g.freeOffset == old(g.freeOffset);
    NearValid(m);
    forall z | z in g.All() && z !in {m.malloc_, m.free_[m.core_], m.cmp_.poolsPerCore_[m.core_]}
      ensures z.Valid() && z.q == old(z.q)
    {
      assert z.q == old(z.q) && z.heads_[..] == old(z.heads_[..]) && z.lasts_[..] == old(z.lasts_[..]);
      BystanderValid(z, w, pl, inf, ids);
    }
  }

  /** The lists of the three near queue managers, as the served stock has them. */
  lemma NearAgrees(m: LocalMemoryManager, st: Stock, k: nat, n: nat, s: seq<Addr>)
    requires m.Shape() && k < CLASSES && NearServed(m, st, k, FourStages(LaneOf(st.qs, m.slot, k), n, s))
    ensures var qs := Served(st, m.slot, k, n, s).qs;
            && m.malloc_.q == Q(qs, Mal(m.slot)) && m.free_[m.core_].q == Q(qs, FreeList(m.slot, m.core_))
            && m.cmp_.poolsPerCore_[m.core_].q == Q(qs, Pool(m.core_))
            && (forall id :: id !in m.NearIds() ==> Q(qs, id) == Q(st.qs, id))
            && qs == SetLane(st.qs, m.slot, k, FourStages(LaneOf(st.qs, m.slot, k), n, s).lane)
  {
    hide FourStages, LaneOf;
    var l := FourStages(LaneOf(st.qs, m.slot, k), n, s).lane;
    SetLaneReads(st.qs, m.slot, k, l, Mal(m.slot));
    SetLaneReads(st.qs, m.slot, k, l, FreeList(m.slot, m.core_));
    SetLaneReads(st.qs, m.slot, k, l, Pool(m.core_));
    forall id | id !in m.NearIds() ensures Q(Served(st, m.slot, k, n, s).qs, id) == Q(st.qs, id) {
      SetLaneReads(st.qs, m.slot, k, l, id);
    }
  }

  /** What a request says about its carved chunks. */
  lemma SuppliedCarvable(st: Stock, slot: Slot, t: Table, page: nat, infos: Infos, b: Bump, infos': Infos, b': Bump,
                         arena: nat, core: nat, size: nat, p: nat, region: nat, s: seq<Addr>)
    requires size < TWO_64 && st.places.Keys == infos.Keys && TableOk(t, page)
    requires LocalHeaps.Supplied(LaneOf(st.qs, slot, Logarithm2(size)), t[Logarithm2(size)], infos, b, infos', b',
                                 arena, core, size, p, region, s)
    ensures Carvable(st, slot, Logarithm2(size), t[Logarithm2(size)], s)
    ensures Recorded(infos, infos', core, Logarithm2(size), s)
    ensures |s| == if NeedsCarve(LaneOf(st.qs, slot, Logarithm2(size)), t[Logarithm2(size)]) then t[Logarithm2(size)]
            else 0
  {
    hide *;
    ChunkInfoFacts(core, size);
    TableServes(t, page, size);
    SuppliedParts(LaneOf(st.qs, slot, Logarithm2(size)), t[Logarithm2(size)], infos, b, infos', b', arena, core, size,
                  p, region, s);
    FoldCarvable(st, slot, t[Logarithm2(size)], infos, infos', core, size, s);
  }

  lemma SuppliedParts(l: Lane, n: nat, infos: Infos, b: Bump, infos': Infos, b': Bump,
                      arena: nat, core: nat, size: nat, p: nat, region: nat, s: seq<Addr>)
    requires size < TWO_64 && LocalHeaps.Supplied(l, n, infos, b, infos', b', arena, core, size, p, region, s)
    ensures NoDup(s) && (forall a :: a in s ==> a !in infos) && |s| == (if NeedsCarve(l, n) then n else 0)
    ensures infos' == if s == [] then infos else infos + NewInfos(s, ChunkInfo(core, size))
  {
    hide RangeEffect, TotalSize, MmapSize, Headers, ChunkInfo, NeedsCarve;
    assert s == [] ==> infos + NewInfos(s, ChunkInfo(core, size)) == infos;
  }

  lemma FoldCarvable(st: Stock, slot: Slot, n: nat, infos: Infos, infos': Infos, core: nat, size: nat, s: seq<Addr>)
    requires size < TWO_64 && st.places.Keys == infos.Keys
    requires NoDup(s) && (forall a :: a in s ==> a !in infos)
    requires s != [] ==> NeedsCarve(LaneOf(st.qs, slot, Logarithm2(size)), n)
    requires infos' == if s == [] then infos else infos + NewInfos(s, ChunkInfo(core, size))
    requires s != [] ==>
              ChunkInfo(core, size).core == core && Logarithm2(ChunkInfo(core, size).size) == Logarithm2(size)
    ensures Carvable(st, slot, Logarithm2(size), n, s) && Recorded(infos, infos', core, Logarithm2(size), s)
  {
    hide ChunkInfo, NeedsCarve, LaneOf, Logarithm2, NoDup;
    assert s == [] ==> Elements(s) == {};
  }

  lemma FrameParts(w: Words, p: Places, i: Infos, w': Words, p': Places, i': Infos, ids: set<QueueId>)
    requires Frame(w, p, i, w', p', i', ids)
    ensures PlacesFrame(p, p', ids) && Touches(w, w', p, i, ids, {})
  {
    hide PlacesFrame, InfosFrame;
    WordsTouched(w, w', p, i, ids);
  }

  lemma NearIdsAre(m: LocalMemoryManager)
    requires m.core_ == m.slot.core
    ensures m.NearIds() == NearOf(m.slot)
  {}

  /** A valid manager lists what is placed in it. */
  lemma ValidHoused(m: MemoryLinkedListManager, q: Queues)
    requires m.Valid() && m.q == q
    ensures Housed(m.mem.places, m.id, q)
  {}

  /** The table agrees with a sound stock if its queues do, and its chunks and live chunks are the same. */
  lemma AgreesAfter(g: GlobalMemoryManager, st: Stock, target: Stock, ids: set<QueueId>)
    requires g.AllValid() && Sound(target, g.mem.infos) && g.mem.places.Keys == target.places.Keys
    requires PlacesFrame(st.places, target.places, ids) && PlacesFrame(st.places, g.mem.places, ids)
    requires LiveSet(g.mem.places) == LiveSet(target.places)
    requires forall z :: z in g.All() ==> z.q == Q(target.qs, z.id)
    requires forall id :: id in ids ==> exists z :: z in g.All() && z.id == id
    ensures g.Agrees(target)
  {
    hide *;
    forall id | id in ids ensures Housed(g.mem.places, id, Q(target.qs, id)) {
      var z :| z in g.All() && z.id == id;
      ValidOf(g, z);
      ValidHoused(z, z.q);
    }
    PlacesDetermined(st, target, g.mem.infos, g.mem.places, ids);
    FoldAgrees(g, target);
  }

  /** The table after a request agrees with the served stock. */
  lemma ServedAgrees(g: GlobalMemoryManager, m: LocalMemoryManager, st: Stock, infos: Infos, k: nat, n: nat,
                     s: seq<Addr>)
    requires g.Shape() && g.Apart() && m in g.managerPools_ && m.Shape() && g.AllValid() && k < CLASSES
    requires Sound(st, infos) && Carvable(st, m.slot, k, n, s) && Recorded(infos, g.mem.infos, m.slot.core, k, s)
    requires NearServed(m, st, k, FourStages(LaneOf(st.qs, m.slot, k), n, s)) && g.mem.places.Keys == g.mem.infos.Keys
    requires LiveSet(g.mem.places) == LiveSet(st.places) + Elements(FourStages(LaneOf(st.qs, m.slot, k), n, s).got)
    requires PlacesFrame(st.places, g.mem.places, m.NearIds())
    requires forall z :: z in g.All() && z.id !in m.NearIds() ==> z.q == Q(st.qs, z.id)
    ensures g.Agrees(Served(st, m.slot, k, n, s)) && Sound(Served(st, m.slot, k, n, s), g.mem.infos)
  {
    hide *;
    NearAndRest(g, m);
    NearAgrees(m, st, k, n, s);
    NearIdsAre(m);
    ServedSound(st, infos, g.mem.infos, m.slot, k, n, s);
    forall z | z in g.All() ensures z.q == Q(Served(st, m.slot, k, n, s).qs, z.id) {
      if z in {m.malloc_, m.free_[m.core_], m.cmp_.poolsPerCore_[m.core_]} {
      } else {
        assert z.id !in m.NearIds();
      }
    }
    NearListed(g, m);
    AgreesAfter(g, st, Served(st, m.slot, k, n, s), NearOf(m.slot));
  }

  lemma NearListed(g: GlobalMemoryManager, m: LocalMemoryManager)
    requires m.Shape() && m.malloc_ in g.All() && m.free_[m.core_] in g.All()
    requires m.cmp_.poolsPerCore_[m.core_] in g.All()
    requires m.malloc_.id == Mal(m.slot) && m.free_[m.core_].id == FreeList(m.slot, m.core_)
    requires m.cmp_.poolsPerCore_[m.core_].id == Pool(m.core_)
    ensures forall id :: id in NearOf(m.slot) ==> exists z :: z in g.All() && z.id == id
  {
    hide GlobalMemoryManager.All;
  }

  lemma ValidOf(g: GlobalMemoryManager, z: MemoryLinkedListManager)
    requires g.AllValid() && z in g.All()
    ensures z.mem == g.mem && z.Valid()
  {
    hide MemoryLinkedListManager.Valid;
  }

  lemma FoldAgrees(g: GlobalMemoryManager, st: Stock)
    requires g.mem.places == st.places && forall z :: z in g.All() ==> z.q == Q(st.qs, z.id)
    ensures g.Agrees(st)
  {}

  // ---------------------------------------------------------------- a reallocation, seen from the whole table

  /** The queue managers a growing reallocation of a block of core `core` works on. */
  ghost function ResizeIds(m: LocalMemoryManager, core: nat): set<QueueId> { m.NearIds() + {FreeList(m.slot, core)} }

  /** The near lists of a heap and its list for `core`, and the rest. */
  lemma ResizeAndRest(g: GlobalMemoryManager, m: LocalMemoryManager, core: nat)
    requires g.Shape() && g.Apart() && m in g.managerPools_ && core < g.coreN_
    ensures m.Shape() && core < m.coreN_ == |m.free_| && m.free_[core] in g.All()
    ensures m.free_[core].id == FreeList(m.slot, core)
    ensures forall z ::
              z in g.All() && z !in {m.malloc_, m.free_[m.core_], m.cmp_.poolsPerCore_[m.core_], m.free_[core]} ==>
              && z.id !in ResizeIds(m, core)
              && z.Repr !! m.malloc_.Repr && z.Repr !! m.free_[m.core_].Repr
              && z.Repr !! m.cmp_.poolsPerCore_[m.core_].Repr
              && z.Repr !! m.free_[core].Repr
  {
    hide *;
    NearAndRest(g, m);
    g.ListAt(m, core);
    assert ResizeIds(m, core) == m.NearIds() + {FreeList(m.slot, core)} by { ResizeIdsAre(m, core); }
  }

  lemma ResizeIdsAre(m: LocalMemoryManager, core: nat)
    ensures ResizeIds(m, core) == m.NearIds() + {FreeList(m.slot, core)}
  {}

  /** What a reallocation of a block with header `info` leaves of the queues it works on. */
  ghost predicate GrownFrom(m: LocalMemoryManager, st: Stock, w: Words, infos: Infos, b: Bump, x: Addr, info: Info,
                            size: nat, newPtr: Addr, r: Attempt, p: nat, region: nat, s: seq<Addr>)
    requires m.Shape() && info.core < m.coreN_ && size < TWO_64
    reads m.malloc_, m.free_[m.core_], m.free_[info.core], m.cmp_.poolsPerCore_[m.core_], m.mem
  {
    m.Grown(LaneOf(st.qs, m.slot, Logarithm2(size)), Q(st.qs, Mal(m.slot)), Q(st.qs, FreeList(m.slot, m.core_)),
            Q(st.qs, FreeList(m.slot, info.core)), Q(st.qs, Pool(m.core_)), w, infos, b, LiveSet(st.places), x, info,
            size, newPtr, r, p, region, s)
  }

  /** `Realloc` of a heap, beside the other heaps of the table. */
  method ResizeBeside(g: GlobalMemoryManager, m: LocalMemoryManager, ptr: Addr, size: nat, ghost info: Info,
                      ghost st: Stock)
    returns (newPtr: Addr, ghost p: nat, ghost region: nat, ghost s: seq<Addr>, ghost r: Attempt)
    requires g.Shape() && g.In(st) && MmapApart(g) && m in g.managerPools_ && size < TWO_64 && m.Shape()
    requires TableOk(g.cmp.msm_.nPerSize_, g.mm.pageSize_) && g.mm.Ready() && g.mm.extendOffset_ < EXTEND_MAX
    requires ptr != 0 && g.mem.Live(ptr - HEADER) && g.mem.infos[ptr - HEADER] == info
    requires info.core < g.coreN_ == m.coreN_
    requires m.mem == g.mem
    modifies set z, o | z in g.All() && o in z.Repr :: o
    modifies g.mm.Repr, g.mm.kernel, g.mem`words, g.mem`places, g.mem`errno, g.mem`bump, g.mem`infos
    ensures g.mem.Ok() && g.AllValid() && g.mm.Ready() && g.poolFlags_[..] == old(g.poolFlags_[..])
    ensures forall z :: z in g.All() && z.id !in ResizeIds(m, info.core) ==> z.q == Q(st.qs, z.id)
    ensures size <= info.size ==>
              && newPtr == ptr && g.Agrees(st) && g.mem.words == old(g.mem.words) && g.mem.infos == old(g.mem.infos)
              && g.mem.bump == old(g.mem.bump)
    ensures size > info.size ==>
              GrownFrom(m, st, old(g.mem.words), old(g.mem.infos), old(g.mem.bump), ptr - HEADER, info, size, newPtr, r,
                        p, region, s)
    ensures WideFrame(old(g.mem.words), st.places, old(g.mem.infos), g.mem.words, g.mem.places, g.mem.infos,
                      ResizeIds(m, info.core), Elements(r.got))
    ensures BodiesKept(old(g.mem.words), g.mem.words, old(g.mem.infos), LiveSet(st.places))
    ensures newPtr == 0 && size > 0 ==> g.mem.errno == ENOMEM
    ensures g.allocOffset == old(g.allocOffset) && g.freeOffset == old(g.freeOffset)
    ensures g.mm.extendOffset_ <= old(g.mm.extendOffset_) + 1
  {
    hide MemoryOk, Housed, Represents, WideFrame, LiveSet, Logarithm2, MemoryLinkedListManager.Valid,
      MemoryLinkedListManager.Shape, HeapAt, RoleAt, SlotAt, LocalMemoryManager.Shape, GlobalMemoryManager.Shape,
      LocalMemoryManager.TeamApart, LocalMemoryManager.TeamValid, TableOk, MmapManager.Ready,
      LocalMemoryManager.NearIds, CommonMemoryPool.Shape, LocalMemoryManager.Near, LocalMemoryManager.Backed,
      LocalMemoryManager.Grown, LocalMemoryManager.LaneAt, LaneOf, Q, ResizeIds, BodiesKept;
    HeapIsReady(g, m, st);
    NearAndRest(g, m);
    ResizeAndRest(g, m, info.core);
    ResizeIdsAre(m, info.core);
    g.mm.MemOutside();
    ghost var mem := g.mem;
    ghost var w, pl, inf, ids := mem.words, mem.places, mem.infos, ResizeIds(m, info.core);
    forall z | z in g.All()
      ensures z.Shape() && Represents(w, z.q, z.heads_[..], z.lasts_[..]) && Housed(pl, z.id, z.q)
      ensures pl.Keys == inf.Keys
      ensures (mem as object) !in z.Repr && z.Repr == {z, z.heads_, z.lasts_}
    {
      UnfoldValid(z);
    }
    LaneAgrees(m, st, Logarithm2(size));
    FlagsOutside(g);
    newPtr, p, region, s, r := m.Realloc(ptr, size, info);
    assert g.poolFlags_[..] == old(g.poolFlags_[..]) && g.allocOffset == old(g.allocOffset)
           && g.freeOffset == old(g.freeOffset);
    NearValid(m);
    forall z | z in g.All() && z !in {m.malloc_, m.free_[m.core_], m.cmp_.poolsPerCore_[m.core_], m.free_[info.core]}
      ensures z.Valid() && z.q == old(z.q)
    {
      assert z.q == old(z.q) && z.heads_[..] == old(z.heads_[..]) && z.lasts_[..] == old(z.lasts_[..]);
      WideBystanderValid(z, w, pl, inf, ids, Elements(r.got));
    }
  }

  lemma WideParts(w: Words, p: Places, i: Infos, w': Words, p': Places, i': Infos, ids: set<QueueId>,
                  written: set<Addr>)
    requires WideFrame(w, p, i, w', p', i', ids, written)
    ensures PlacesFrame(p, p', ids) && Touches(w, w', p, i, ids, written)
  {}

  /** The sequences after a growing reallocation are those of the regrown stock. */
  lemma GrownQueues(m: LocalMemoryManager, st: Stock, w: Words, infos: Infos, b: Bump, x: Addr, info: Info, size: nat,
                    newPtr: Addr, r: Attempt, p: nat, region: nat, s: seq<Addr>)
    requires m.Shape() && info.core < m.coreN_ == |m.free_| && size < TWO_64
    requires GrownFrom(m, st, w, infos, b, x, info, size, newPtr, r, p, region, s)
    ensures r == FourStages(LaneOf(st.qs, m.slot, Logarithm2(size)), m.msm_.GetMemorySize(Logarithm2(size)), s)
    ensures var qs := Regrown(st, m.slot, Logarithm2(size), m.msm_.GetMemorySize(Logarithm2(size)), s, x, info).qs;
            && m.malloc_.q == Q(qs, Mal(m.slot)) && m.free_[m.core_].q == Q(qs, FreeList(m.slot, m.core_))
            && m.cmp_.poolsPerCore_[m.core_].q == Q(qs, Pool(m.core_))
            && m.free_[info.core].q == Q(qs, FreeList(m.slot, info.core))
  {
    var k, n := Logarithm2(size), m.msm_.GetMemorySize(Logarithm2(size));
    RegrownIs(st, m.slot, k, n, s, x, info);
    ServedIs(st, m.slot, k, n, s);
    SetLaneReads(st.qs, m.slot, k, r.lane, Mal(m.slot));
    SetLaneReads(st.qs, m.slot, k, r.lane, FreeList(m.slot, m.core_));
    SetLaneReads(st.qs, m.slot, k, r.lane, FreeList(m.slot, info.core));
    SetLaneReads(st.qs, m.slot, k, r.lane, Pool(m.core_));
    hide SetLane, FourStages, LaneOf, Logarithm2, LocalHeaps.Supplied, SameContents, LiveSet, Regrown, Q, Served,
      PutBack, MemorySizeManager.GetMemorySize;
    var st1, id, j := Served(st, m.slot, k, n, s), FreeList(m.slot, info.core), Logarithm2(info.size);
    PutBackReads(st1, id, j, x, Mal(m.slot));
    PutBackReads(st1, id, j, x, FreeList(m.slot, m.core_));
    PutBackReads(st1, id, j, x, id);
    PutBackReads(st1, id, j, x, Pool(m.core_));
  }

  /** What a growing reallocation did, read off its outcome. */
  lemma GrownMeans(m: LocalMemoryManager, st: Stock, w: Words, infos: Infos, b: Bump, x: Addr, info: Info, size: nat,
                   newPtr: Addr, r: Attempt, p: nat, region: nat, s: seq<Addr>)
    requires m.Shape() && info.core < m.coreN_ && size < TWO_64 && x in LiveSet(st.places)
    requires GrownFrom(m, st, w, infos, b, x, info, size, newPtr, r, p, region, s)
    ensures LocalHeaps.Supplied(LaneOf(st.qs, m.slot, Logarithm2(size)), m.msm_.GetMemorySize(Logarithm2(size)), infos,
                                b, m.mem.infos, m.mem.bump, m.mm.SlotOf(m.core_), m.core_, size, p, region, s)
    ensures LiveSet(m.mem.places) == LiveSet(st.places) + Elements(r.got) - (if r.got == [] then {} else {x})
    ensures m.mem.Served(newPtr, r.got, size)
    ensures forall y :: y in r.got ==> SameContents(w, x, m.mem.words, y, info.size)
  {
    var l, n := LaneOf(st.qs, m.slot, Logarithm2(size)), m.msm_.GetMemorySize(Logarithm2(size));
    AtMostOne(l, n, s);
    hide FourStages, LaneOf, Logarithm2, LocalHeaps.Supplied, SameContents, Q, MemorySizeManager.GetMemorySize,
      LocalMemoryManager.Shape, LiveSet, Machine.Served;
    OneElement(r.got);
    if r.got != [] {
      ServedFrom(m.mem, newPtr, r.got, size, LiveSet(st.places), x);
    } else {
      ServedNone(m.mem, newPtr, r.got, size);
    }
  }

  lemma OneElement(got: seq<Addr>)
    requires |got| <= 1
    ensures Elements(got) == if got == [] then {} else {got[0]}
  {}

  lemma ServedNone(mem: Machine, ptr: Addr, got: seq<Addr>, size: nat)
    requires got == [] && ptr == 0
    ensures mem.Served(ptr, got, size)
  {}

  lemma ServedFrom(mem: Machine, ptr: Addr, got: seq<Addr>, size: nat, live: set<Addr>, x: Addr)
    requires got != [] && ptr == got[0] + HEADER && got[0] in mem.infos && size <= mem.infos[got[0]].size
    requires LiveSet(mem.places) == live + {got[0]} - {x} && x in live && got[0] !in live
    ensures mem.Served(ptr, got, size)
  {
    assert got[0] in LiveSet(mem.places);
  }

  lemma RegrownElsewhere(m: LocalMemoryManager, st: Stock, k: nat, n: nat, s: seq<Addr>, x: Addr, info: Info,
                         id: QueueId)
    requires m.core_ == m.slot.core && k < CLASSES && id !in ResizeIds(m, info.core)
    ensures Q(Regrown(st, m.slot, k, n, s, x, info).qs, id) == Q(st.qs, id)
  {
    RegrownIs(st, m.slot, k, n, s, x, info);
    ServedIs(st, m.slot, k, n, s);
    SetLaneReads(st.qs, m.slot, k, FourStages(LaneOf(st.qs, m.slot, k), n, s).lane, id);
    hide SetLane, FourStages, LaneOf, Logarithm2, Regrown, Q, Served, PutBack;
    PutBackReads(Served(st, m.slot, k, n, s), FreeList(m.slot, info.core), Logarithm2(info.size), x, id);
  }

  /** The table after a growing reallocation agrees with the regrown stock. */
  lemma RegrownAgrees(g: GlobalMemoryManager, m: LocalMemoryManager, st: Stock, w: Words, infos: Infos, b: Bump,
                      x: Addr, info: Info, size: nat, newPtr: Addr, r: Attempt, p: nat, region: nat, s: seq<Addr>)
    requires g.Shape() && g.Apart() && m in g.managerPools_ && m.Shape() && g.AllValid() && m.mem == g.mem
    requires size < TWO_64
    requires TableOk(m.msm_.nPerSize_, g.mm.pageSize_) && g.mem.places.Keys == g.mem.infos.Keys
    requires info.core < g.coreN_ == m.coreN_
    requires Sound(st, infos) && x in infos && infos[x] == info && x in LiveSet(st.places)
    requires GrownFrom(m, st, w, infos, b, x, info, size, newPtr, r, p, region, s)
    requires PlacesFrame(st.places, g.mem.places, ResizeIds(m, info.core))
    requires forall z :: z in g.All() && z.id !in ResizeIds(m, info.core) ==> z.q == Q(st.qs, z.id)
    ensures var k := Logarithm2(size);
            var n := m.msm_.nPerSize_[k];
            && Carvable(st, m.slot, k, n, s) && Recorded(infos, g.mem.infos, m.slot.core, k, s)
            && g.Agrees(Regrown(st, m.slot, k, n, s, x, info))
            && Sound(Regrown(st, m.slot, k, n, s, x, info), g.mem.infos)
  {
    hide *;
    var k, n := Logarithm2(size), m.msm_.nPerSize_[Logarithm2(size)];
    var target, ids := Regrown(st, m.slot, k, n, s, x, info), ResizeIds(m, info.core);
    NearAndRest(g, m);
    ResizeAndRest(g, m, info.core);
    NearIdsAre(m);
    ResizeIdsAre(m, info.core);
    TableEntry(m.msm_, k);
    SoundParts(st, infos);
    GrownQueues(m, st, w, infos, b, x, info, size, newPtr, r, p, region, s);
    GrownMeans(m, st, w, infos, b, x, info, size, newPtr, r, p, region, s);
    SuppliedCarvable(st, m.slot, m.msm_.nPerSize_, g.mm.pageSize_, infos, b, g.mem.infos, g.mem.bump,
                     m.mm.SlotOf(m.core_), m.core_, size, p, region, s);
    RegrownSound(st, infos, g.mem.infos, m.slot, k, n, s, x);
    forall z | z in g.All() ensures z.q == Q(target.qs, z.id) {
      if z in {m.malloc_, m.free_[m.core_], m.cmp_.poolsPerCore_[m.core_], m.free_[info.core]} {
      } else {
        RegrownElsewhere(m, st, k, n, s, x, info, z.id);
      }
    }
    NearListed(g, m);
    AgreesAfter(g, st, target, ids);
  }

  /** The same with what the caller gets. */
  lemma RegrownMeans(g: GlobalMemoryManager, m: LocalMemoryManager, st: Stock, w: Words, infos: Infos, b: Bump, x: Addr,
                     info: Info, size: nat, newPtr: Addr, r: Attempt, p: nat, region: nat, s: seq<Addr>)
    requires g.Shape() && g.Apart() && m in g.managerPools_ && m.Shape() && g.AllValid() && m.mem == g.mem
    requires size < TWO_64
    requires TableOk(m.msm_.nPerSize_, g.mm.pageSize_) && g.mem.Ok() && info.core < g.coreN_ == m.coreN_
    requires Sound(st, infos) && x in infos && infos[x] == info && x in st.places && st.places[x].Out?
    requires GrownFrom(m, st, w, infos, b, x, info, size, newPtr, r, p, region, s)
    requires WideFrame(w, st.places, infos, g.mem.words, g.mem.places, g.mem.infos, ResizeIds(m, info.core),
                       Elements(r.got))
    requires forall z :: z in g.All() && z.id !in ResizeIds(m, info.core) ==> z.q == Q(st.qs, z.id)
    ensures var k := Logarithm2(size);
            var n := m.msm_.GetMemorySize(k);
            var got := FourStages(LaneOf(st.qs, m.slot, k), n, s).got;
            && LocalHeaps.Supplied(LaneOf(st.qs, m.slot, k), n, infos, b, g.mem.infos, g.mem.bump,
                                   g.mm.SlotOf(m.slot.core), m.slot.core, size, p, region, s)
            && Carvable(st, m.slot, k, n, s) && Recorded(infos, g.mem.infos, m.slot.core, k, s)
            && |s| == (if NeedsCarve(LaneOf(st.qs, m.slot, k), n) then n else 0) && r.got == got
            && g.Agrees(Regrown(st, m.slot, k, n, s, x, info))
            && Sound(Regrown(st, m.slot, k, n, s, x, info), g.mem.infos)
            && g.mem.Served(newPtr, got, size) && (forall y :: y in got ==>
                                                     SameContents(w, x, g.mem.words, y, info.size))
  {
    hide *;
    WideParts(w, st.places, infos, g.mem.words, g.mem.places, g.mem.infos, ResizeIds(m, info.core), Elements(r.got));
    LiveAmong(st.places, x);
    OkKeys(g.mem);
    SoundParts(st, infos);
    NearAndRest(g, m);
    ResizeAndRest(g, m, info.core);
    RegrownAgrees(g, m, st, w, infos, b, x, info, size, newPtr, r, p, region, s);
    GrownMeans(m, st, w, infos, b, x, info, size, newPtr, r, p, region, s);
    GrownQueues(m, st, w, infos, b, x, info, size, newPtr, r, p, region, s);
    TableEntry(m.msm_, Logarithm2(size));
    SuppliedCarvable(st, m.slot, m.msm_.nPerSize_, g.mm.pageSize_, infos, b, g.mem.infos, g.mem.bump,
                     m.mm.SlotOf(m.core_), m.core_, size, p, region, s);
  }

  lemma TableEntry(msm: MemorySizeManager, k: nat)
    requires k < CLASSES
    ensures msm.GetMemorySize(k) == msm.nPerSize_[k]
  {}

  // ---------------------------------------------------------------- facts about the table

  /** What every heap method asks for, for every heap of the table. */
  lemma HeapIsReady(g: GlobalMemoryManager, m: LocalMemoryManager, st: Stock)
    requires g.Shape() && g.In(st) && MmapApart(g) && m in g.managerPools_
    requires TableOk(g.cmp.msm_.nPerSize_, g.mm.pageSize_)
    ensures m.Shape() && m.mem == g.mem && m.mm == g.mm && m.Near() && m.TeamApart() && m.TeamValid() && m.Backed()
  {
    TeamReady(g, m, st);
    TeamOf(g, m);
    TeamRoles(m);
    hide GlobalMemoryManager.Shape, HeapAt, TableOk, GlobalMemoryManager.In, LocalMemoryManager.Team;
    TeamMembersValid(m);
    assert m.malloc_ in m.Team() && m.free_[m.core_] in m.Team() && m.cmp_.poolsPerCore_[m.core_] in m.Team();
  }

  lemma LiveIn(g: GlobalMemoryManager, st: Stock, x: Addr)
    requires g.Shape() && g.In(st) && g.mem.Live(x)
    ensures x in st.places && st.places[x].Out? && x in g.mem.infos
  {
    hide GlobalMemoryManager.Shape, GlobalMemoryManager.AllValid, GlobalMemoryManager.Apart;
  }

  lemma LiveAmong(places: Places, x: Addr)
    requires x in places && places[x].Out?
    ensures x in LiveSet(places)
  {}

  lemma InValid(g: GlobalMemoryManager, st: Stock)
    requires g.Shape() && g.In(st)
    ensures g.AllValid()
  {}

  lemma MemoryUnlinked(mem: Machine)
    requires mem.Ok()
    ensures Unlinked(mem.words, mem.places)
  {
    OkKeys(mem);
  }

  lemma MmapMemory(g: GlobalMemoryManager)
    requires g.Shape()
    ensures g.mm.mem == g.mem
  {
    g.Sizes();
    Products(1, g.coreN_, g.poolN_);
    MemberOf(g, g.managerPools_[0]);
  }

  /** The kernel and the mapped-memory manager are not stored in the queue managers. */
  lemma MmapOutside(g: GlobalMemoryManager, st: Stock)
    requires g.Shape() && g.In(st) && MmapApart(g)
    ensures forall z :: z in g.All() ==>
              && (g.mm as object) !in z.Repr && (g.mm.kernel as object) !in z.Repr && (g.mm.mem as object) !in z.Repr
              && (g as object) !in z.Repr && (g.poolFlags_ as object) !in z.Repr && z.Repr !! g.mm.Repr
    ensures g.mm.mem == g.mem
  {
    MmapMemory(g);
    hide GlobalMemoryManager.Shape, Housed, Represents;
    forall z | z in g.All() ensures z.Repr == {z, z.heads_, z.lasts_} {
      assert z.Valid();
    }
  }

  lemma InMemory(g: GlobalMemoryManager, st: Stock)
    requires g.Shape() && g.In(st)
    ensures MemoryOk(g.mem.words, g.mem.places, g.mem.infos, g.mem.bump.granted)
  {}
}
