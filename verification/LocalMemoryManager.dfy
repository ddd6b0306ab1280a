/** One thread's heap (src/local_memory_manager.cpp): the list it allocates from, a free list per home
    core, and the four-stage search of `Malloc`. */
module LocalHeaps {
  import opened SizeClass
  import opened Bump
  import opened Chunks
  import opened Machines
  import opened MmapManagers
  import opened Carving
  import opened LinkedLists
  import opened Lanes
  import opened SizeTables
  import opened CommonPools
  import opened Stocks

  /** Memory is carved exactly when no other source has a chunk. */
  ghost predicate Supplied(l: Lane, n: nat, infos: Infos, b: Bump, infos': Infos, b': Bump,
                           slot: nat, core: nat, size: nat, p: nat, region: nat, s: seq<Addr>)
    requires size < TWO_64
  {
    if NeedsCarve(l, n) then CarveEffect(infos, b, infos', b', slot, core, size, n, p, region, s)
    else s == [] && infos' == infos && b' == b
  }

  /** How often the slot's pool is extended for a request: once, if memory is carved and does not fit it. */
  function Extensions(l: Lane, n: nat, b: Bump, slot: nat, size: nat): (e: nat)
    requires size < TWO_64
    ensures e <= 1
  {
    if NeedsCarve(l, n) && slot < |b.arenas| && b.page > 0
      && !Fits(b, slot, MmapSize(TotalSize(size), n, b.page)) then 1 else 0
  }

  lemma SuppliedExtends(l: Lane, n: nat, infos: Infos, b: Bump, infos': Infos, b': Bump,
                        slot: nat, core: nat, size: nat, p: nat, region: nat, s: seq<Addr>)
    requires size < TWO_64 && Supplied(l, n, infos, b, infos', b', slot, core, size, p, region, s)
    ensures b'.extensions == b.extensions + Extensions(l, n, b, slot, size)
  {
    hide NeedsCarve, MmapSize, TotalSize, Headers, NoDup, ChunkInfo, FreshRegion, NewRange;
  }

  /** The outcome of a growing reallocation of chunk `x`: without a new chunk the old one stays live; otherwise
      its contents start the new block and it sits at the end of its class on the list of its home core. */
  ghost predicate Moved(size: nat, x: Addr, info: Info, r: Attempt, newPtr: Addr, homeIsOwn: bool,
                        own: Queues, home: Queues, own': Queues, home': Queues,
                        w: Words, w': Words, infos': Infos, live: set<Addr>, live': set<Addr>)
    requires size < TWO_64
  {
    var own1 := own[Logarithm2(size) := r.lane.own];
    var home1 := if homeIsOwn then own1 else home;
    var j := Logarithm2(info.size);
    if r.got == [] then
      newPtr == 0 && own' == own1 && home' == home1 && live' == live
    else
      && newPtr == r.got[0] + HEADER
      && home' == home1[j := home1[j] + [x]] && own' == (if homeIsOwn then home' else own1)
      && live' == live + {r.got[0]} - {x} && r.got[0] !in live
      && r.got[0] in infos' && size <= infos'[r.got[0]].size
      && SameContents(w, x, w', r.got[0], info.size)
  }

  /** Chunk `x` has gone to the end of its class in `id`, its contents start the body of `y`, and of other chunks no
      body changed, and only links of `id`. */
  ghost predicate Replaced(q: Queues, q': Queues, w: Words, w': Words, places: Places, places': Places, infos: Infos,
                           id: QueueId, x: Addr, y: Addr, info: Info)
  {
    && Queued(q, q', places, places', id, x, info)
    && SameContents(w, x, w', y, info.size)
    && BodiesKept(w, w', infos, LiveSet(places) - {y})
    && WideFrame(w, places, infos, w', places', infos, {id}, {y})
  }

  class LocalMemoryManager {
    const mem: Machine
    const mm: MmapManager
    const cmp_: CommonMemoryPool
    const msm_: MemorySizeManager
    const coreN_: nat
    const core_: nat
    const malloc_: MemoryLinkedListManager
    const free_: seq<MemoryLinkedListManager>

    /** The heap's place in the heap table. */
    ghost const slot: Slot

    ghost predicate Shape()
    {
      && core_ == slot.core < coreN_ == |free_| && mm.mem == mem && mm.coreN_ == coreN_
      && malloc_.mem == mem && malloc_.id == Mal(slot) && malloc_.coreN_ == coreN_
      && (forall k :: 0 <= k < coreN_ ==> free_[k].mem == mem && free_[k].id == FreeList(slot, k))
      && cmp_.mem == mem && cmp_.coreN_ == coreN_ && cmp_.msm_ == msm_ && cmp_.Shape()
    }

    /** The queue managers that a request or a release of this heap can touch. */
    ghost function Team(): set<MemoryLinkedListManager> {
      {malloc_} + (set m | m in free_) + (set m | m in cmp_.poolsPerCore_)
    }

    /** One size class as this heap sees it. */
    ghost function LaneAt(c: nat): Lane
      requires Shape() && c < CLASSES
      reads malloc_, free_[core_], cmp_.poolsPerCore_[core_]
    {
      Lane(malloc_.q[c], free_[core_].q[c], cmp_.poolsPerCore_[core_].q[c])
    }

    /** The queue managers that a request of this heap can touch are valid and share no storage. */
    ghost predicate Near()
      requires Shape()
      reads malloc_, malloc_.heads_, malloc_.lasts_
      reads free_[core_], free_[core_].heads_, free_[core_].lasts_
      reads cmp_.poolsPerCore_[core_], cmp_.poolsPerCore_[core_].heads_, cmp_.poolsPerCore_[core_].lasts_
      reads mem`words, mem`places
    {
      && malloc_.Valid() && free_[core_].Valid() && cmp_.poolsPerCore_[core_].Valid()
      && malloc_.Repr !! free_[core_].Repr && malloc_.Repr !! cmp_.poolsPerCore_[core_].Repr
      && free_[core_].Repr !! cmp_.poolsPerCore_[core_].Repr
    }

    /** The queue managers a request may change. */
    ghost function NearIds(): set<QueueId> { {Mal(slot), FreeList(slot, core_), Pool(core_)} }

    /** Class `c` of the three near queue managers holds `l`; their other classes are as in `mal`, `own`, `pool`. */
    ghost predicate Holds(mal: Queues, own: Queues, pool: Queues, c: nat, l: Lane)
      requires Shape() && c < CLASSES
      reads malloc_, free_[core_], cmp_.poolsPerCore_[core_]
    {
      && malloc_.q == mal[c := l.mal] && free_[core_].q == own[c := l.own]
      && cmp_.poolsPerCore_[core_].q == pool[c := l.pool]
    }

    /** `r` is the outcome of the four stages on `l`, with the carved chunks `s`; `infos` and `b` were there before. */
    ghost predicate Obtained(l: Lane, size: nat, infos: Infos, b: Bump, r: Attempt, p: nat, region: nat, s: seq<Addr>)
      requires Shape() && size < TWO_64
      reads mem`infos, mem`bump, mem`mainThreadFlag
    {
      var n := msm_.GetMemorySize(Logarithm2(size));
      && r == FourStages(l, n, s)
      && Supplied(l, n, infos, b, mem.infos, mem.bump, mm.SlotOf(core_), core_, size, p, region, s)
    }

    /** A growing reallocation of chunk `x`, from the sequences `mal`, `own`, `home` and `pool`: the four stages on
        `malloc_`, the own free list and the pool, and then the move. */
    ghost predicate Grown(l: Lane, mal: Queues, own: Queues, home: Queues, pool: Queues, w: Words, infos: Infos,
                          b: Bump, live: set<Addr>, x: Addr, info: Info, size: nat, newPtr: Addr, r: Attempt, p: nat,
                          region: nat, s: seq<Addr>)
      requires Shape() && info.core < coreN_ && size < TWO_64
      reads malloc_, free_[core_], free_[info.core], cmp_.poolsPerCore_[core_], mem
    {
      && Obtained(l, size, infos, b, r, p, region, s)
      && malloc_.q == mal[Logarithm2(size) := r.lane.mal]
      && cmp_.poolsPerCore_[core_].q == pool[Logarithm2(size) := r.lane.pool]
      && Moved(size, x, info, r, newPtr, info.core == core_, own, home, free_[core_].q, free_[info.core].q, w,
               mem.words, mem.infos, live, LiveSet(mem.places))
    }

    constructor Init(mem: Machine, mm: MmapManager, cmp: CommonMemoryPool, ghost slot: Slot, core: nat, numCores: nat,
                     malloc: MemoryLinkedListManager, free: seq<MemoryLinkedListManager>)
      requires core == slot.core < numCores == |free| && mm.mem == mem && mm.coreN_ == numCores
      requires malloc.mem == mem && malloc.id == Mal(slot) && malloc.coreN_ == numCores
      requires forall k :: 0 <= k < numCores ==> free[k].mem == mem && free[k].id == FreeList(slot, k)
      requires cmp.mem == mem && cmp.coreN_ == numCores && cmp.Shape()
      ensures Shape() && this.mem == mem && this.mm == mm && cmp_ == cmp && this.slot == slot
      ensures malloc_ == malloc && free_ == free
    {
      this.mem, this.mm, cmp_, msm_, this.slot := mem, mm, cmp, cmp.msm_, slot;
      coreN_, core_, malloc_, free_ := numCores, core, malloc, free;
    }

    /** The queue managers in reach are distinct objects that share no storage, also not with the mapped-memory
        manager. */
    ghost predicate TeamApart()
    {
      && (forall a, b :: a in Team() && b in Team() && a != b ==> a.Repr !! b.Repr)
      && (forall a :: a in Team() ==> a.Repr !! mm.Repr)
    }

    /** `MemUtil::PtrToCore`: the core recorded in the header in front of a body. */
    function PtrToCore(ptr: Addr): nat
      reads mem`words
    {
      mem.Get(ptr - HEADER, OFF_CORE)
    }

    /** `MemUtil::PtrToSize`. */
    function PtrToSize(ptr: Addr): nat
      reads mem`words
    {
      mem.Get(ptr - HEADER, OFF_SIZE)
    }

    /** Routes a live chunk to the free list of its home core `k`. */
    method Free(ptr: Addr, ghost k: nat)
      requires Shape() && mem.Ok() && k < coreN_ && free_[k].Valid()
      requires ptr != 0 ==> mem.Live(ptr - HEADER) && mem.infos[ptr - HEADER].core == k
      modifies free_[k].Repr, mem`words, mem`places
      ensures ptr != 0 ==>
                Queued(old(free_[k].q), free_[k].q, old(mem.places), mem.places, FreeList(slot, k), ptr - HEADER,
                       old(mem.infos[ptr - HEADER]))
      ensures ptr == 0 ==> mem.words == old(mem.words) && mem.places == old(mem.places) && free_[k].q == old(free_[k].q)
      ensures mem.Ok() && free_[k].Valid()
      ensures Frame(old(mem.words), old(mem.places), mem.infos, mem.words, mem.places, mem.infos, {FreeList(slot, k)})
    {
      hide MemoryOk, Housed, Represents, Frame, LiveSet, Logarithm2, MemoryLinkedListManager.Valid;
      UnfoldValid(free_[k]);
      if ptr == 0 {
        SameFrame(mem.words, mem.places, mem.infos, {FreeList(slot, k)});
        return;
      }
      ghost var x := ptr - HEADER;
      HeaderSize(mem.words, mem.places, mem.infos, mem.bump.granted, x);
      var core := PtrToCore(ptr);
      LiveAfterSet(mem.places, x, In(FreeList(slot, k), Logarithm2(mem.infos[x].size)));
      free_[core].Free(ptr);
    }

    /** Exchanges one class of `malloc_` and of the heap's own free list. */
    method swap(index: nat)
      requires Shape() && index < CLASSES && mem.Ok()
      requires malloc_.Valid() && free_[core_].Valid() && malloc_.Repr !! free_[core_].Repr
      modifies malloc_.Repr, free_[core_].Repr, mem`places
      ensures malloc_.Valid() && free_[core_].Valid() && mem.Ok()
      ensures malloc_.q == old(malloc_.q)[index := old(free_[core_].q)[index]]
      ensures free_[core_].q == old(free_[core_].q)[index := old(malloc_.q)[index]]
      ensures LiveSet(mem.places) == old(LiveSet(mem.places))
      ensures Frame(mem.words, old(mem.places), mem.infos, mem.words, mem.places, mem.infos,
                    {Mal(slot), FreeList(slot, core_)})
    {
      hide MemoryOk, Housed, Represents, Frame, LiveSet;
      LiveAfterSwap(mem.places, Mal(slot), FreeList(slot, core_), index);
      malloc_.Swap(free_[core_], index);
    }

    /** The first two places to look: `malloc_`, and after an exchange the heap's own free list. */
    method LocalAttempt(size: nat) returns (ptr: Addr)
      requires Shape() && 0 < size < TWO_64 && mem.Ok()
      requires Near()
      modifies malloc_.Repr, free_[core_].Repr, mem`words, mem`places, mem`errno
      ensures Near() && mem.Ok()
      ensures var c := Logarithm2(size);
              var r := LocalStage(old(LaneAt(Logarithm2(size))));
              && Holds(old(malloc_.q), old(free_[core_].q), old(cmp_.poolsPerCore_[core_].q), c, r.lane)
              && (ptr == 0 <==> r.got == [])
              && mem.Served(ptr, r.got, size)
              && LiveSet(mem.places) == old(LiveSet(mem.places)) + Elements(r.got)
              && (forall x :: x in r.got ==> x !in old(LiveSet(mem.places)))
      ensures Frame(old(mem.words), old(mem.places), mem.infos, mem.words, mem.places, mem.infos,
                    {Mal(slot), FreeList(slot, core_)})
    {
      hide MemoryOk, Housed, Represents, Frame, LiveSet, Logarithm2, Machine.Served, TakeHead,
        MemoryLinkedListManager.Valid, MemoryLinkedListManager.Shape;
      LocalStageMeans(LaneAt(Logarithm2(size)), malloc_.q, free_[core_].q, Logarithm2(size));
      ghost var w0, p0, i0, ids := mem.words, mem.places, mem.infos, {Mal(slot), FreeList(slot, core_)};
      ghost var own, pool := free_[core_], cmp_.poolsPerCore_[core_];
      UnfoldValid(malloc_);
      UnfoldValid(own);
      UnfoldValid(pool);
      ptr := TryMalloc(size);
      if ptr == 0 {
        var index := Logarithm2(size);
        ghost var w1, p1 := mem.words, mem.places;
        swap(index);
        FrameTransitive(w0, p0, i0, w1, p1, i0, mem.words, mem.places, i0, ids);
        ghost var w2, p2 := mem.words, mem.places;
        UnfoldValid(malloc_);
        UnfoldValid(own);
        ptr := TryMalloc(size);
        FrameTransitive(w0, p0, i0, w2, p2, i0, mem.words, mem.places, i0, ids);
      }
      BystanderValid(pool, w0, p0, i0, ids);
      SetTwice(pool.q, Logarithm2(size), [], []);
    }

    /** `malloc_->Malloc`, beside the heap's own free list. */
    method TryMalloc(size: nat) returns (ptr: Addr)
      requires Shape() && 0 < size < TWO_64 && mem.Ok()
      requires malloc_.Valid() && free_[core_].Valid() && malloc_.Repr !! free_[core_].Repr
      modifies malloc_.Repr, mem`words, mem`places, mem`errno
      ensures malloc_.Valid() && free_[core_].Valid() && mem.Ok() && free_[core_].q == old(free_[core_].q)
      ensures var c := Logarithm2(size);
              var r := TakeHead(Lane(old(malloc_.q)[c], [], []));
              && malloc_.q == old(malloc_.q)[c := r.lane.mal]
              && mem.Served(ptr, r.got, size) && (ptr == 0 <==> r.got == [])
              && LiveSet(mem.places) == old(LiveSet(mem.places)) + Elements(r.got)
              && (forall x :: x in r.got ==> x !in old(LiveSet(mem.places)))
      ensures ptr == 0 ==> mem.errno == ENOMEM && malloc_.q == old(malloc_.q)
      ensures Frame(old(mem.words), old(mem.places), mem.infos, mem.words, mem.places, mem.infos,
                    {Mal(slot), FreeList(slot, core_)})
    {
      hide MemoryOk, Housed, Represents, Frame, LiveSet, Logarithm2;
      ghost var w, p, i := mem.words, mem.places, mem.infos;
      ghost var own := free_[core_];
      UnfoldValid(malloc_);
      UnfoldValid(own);
      SetTwice(malloc_.q, Logarithm2(size), [], []);
      ptr := malloc_.Malloc(size);
      if ptr != 0 {
        LiveAfterSet(p, ptr - HEADER, Out);
        QueuedNotLive(p, ptr - HEADER);
      }
      BystanderValid(own, w, p, i, {Mal(slot)});
      FrameWider(w, p, i, mem.words, mem.places, mem.infos, {Mal(slot)}, {Mal(slot), FreeList(slot, core_)});
    }

    /** The third place to look: a batch from the common pool of the heap's core. */
    method RefillAttempt(size: nat) returns (ptr: Addr)
      requires Shape() && 0 < size < TWO_64 && mem.Ok() && Near()
      modifies malloc_.Repr, cmp_.poolsPerCore_[core_].Repr, mem`words, mem`places, mem`errno
      ensures Near() && mem.Ok()
      ensures var c := Logarithm2(size);
              var l := old(LaneAt(Logarithm2(size)));
              var r := RefillStage(l, msm_.GetMemorySize(c));
              && Holds(old(malloc_.q), old(free_[core_].q), old(cmp_.poolsPerCore_[core_].q), c, r.lane)
              && (ptr == 0 <==> r.got == [])
              && mem.Served(ptr, r.got, size)
              && LiveSet(mem.places) == old(LiveSet(mem.places)) + Elements(r.got)
              && (forall x :: x in r.got ==> x !in old(LiveSet(mem.places)))
      ensures Frame(old(mem.words), old(mem.places), mem.infos, mem.words, mem.places, mem.infos,
                    {Mal(slot), Pool(core_)})
    {
      hide MemoryOk, Housed, Represents, Frame, LiveSet, Logarithm2, RefillStage;
      ghost var w0, p0, i0, ids := mem.words, mem.places, mem.infos, {Mal(slot), Pool(core_)};
      ghost var own, pool := free_[core_], cmp_.poolsPerCore_[core_];
      UnfoldValid(malloc_);
      UnfoldValid(own);
      UnfoldValid(pool);
      RefillIgnoresOwn(LaneAt(Logarithm2(size)), msm_.GetMemorySize(Logarithm2(size)));
      ptr := cmp_.Malloc(malloc_, core_, size);
      BystanderValid(own, w0, p0, i0, ids);
      SetTwice(own.q, Logarithm2(size), [], []);
    }

    /** A carve appended to `malloc_`, and a request served from it. */
    method CarveAndServe(size: nat) returns (ptr: Addr, ghost p: nat, ghost region: nat, ghost s: seq<Addr>)
      requires Shape() && 0 < size < TWO_64 && mem.Ok() && Near()
      requires mm.Ready() && malloc_.Repr !! mm.Repr && mm.extendOffset_ < EXTEND_MAX
      requires TableOk(msm_.nPerSize_, mm.pageSize_)
      requires malloc_.q[Logarithm2(size)] == []
      modifies malloc_.Repr, mm.Repr, mm.kernel, mem`words, mem`places, mem`errno, mem`bump, mem`infos
      ensures malloc_.Valid() && mem.Ok() && mm.Ready()
      ensures var c := Logarithm2(size);
              var l := old(LaneAt(Logarithm2(size)));
              var r := CarveStage(l, s);
              && CarveEffect(old(mem.infos), old(mem.bump), mem.infos, mem.bump, mm.SlotOf(core_), core_, size,
                             msm_.GetMemorySize(c), p, region, s)
              && malloc_.q == old(malloc_.q)[c := r.lane.mal]
              && (ptr == 0 <==> r.got == [])
              && mem.Served(ptr, r.got, size)
              && LiveSet(mem.places) == old(LiveSet(mem.places)) + Elements(r.got)
              && (forall x :: x in r.got ==> x !in old(LiveSet(mem.places)))
      ensures ptr == 0 ==> mem.errno == ENOMEM
      ensures Frame(old(mem.words), old(mem.places), old(mem.infos), mem.words, mem.places, mem.infos, {Mal(slot)})
      ensures mm.extendOffset_ <= old(mm.extendOffset_) + 1
    {
      hide MemoryOk, Housed, Represents, Frame, LiveSet, Logarithm2, TableOk, NoWrap, TotalSize, CarveEffect, Linked,
        MmapManager.Ready, MemoryLinkedListManager.Valid, MemoryLinkedListManager.Shape, CarveStage;
      ghost var w0, p0, i0 := mem.words, mem.places, mem.infos;
      UnfoldValid(malloc_);
      var index := Logarithm2(size);
      var n := msm_.GetMemorySize(index);
      TableServes(msm_.nPerSize_, mm.pageSize_, size);
      mm.MemOutside();
      p, region, s := malloc_.Allocate(mm, core_, size, n);
      ghost var w1, p1, i1, q1 := mem.words, mem.places, mem.infos, malloc_.q;
      UnfoldValid(malloc_);
      ptr := malloc_.Malloc(size);
      if ptr != 0 {
        LiveAfterSet(p1, ptr - HEADER, Out);
        QueuedNotLive(p1, ptr - HEADER);
      }
      CarveStageMeans(old(LaneAt(Logarithm2(size))), s, old(malloc_.q), index);
      FrameTransitive(w0, p0, i0, w1, p1, i1, mem.words, mem.places, mem.infos, {Mal(slot)});
    }

    /** The mapped-memory manager shares no storage with the queue managers, and the batch table fits it. */
    ghost predicate Backed()
      requires Shape()
    {
      && malloc_.Repr !! mm.Repr && free_[core_].Repr !! mm.Repr && cmp_.poolsPerCore_[core_].Repr !! mm.Repr
      && TableOk(msm_.nPerSize_, mm.pageSize_)
    }

    /** The last resort: a fresh carve, possibly of no chunk at all. */
    method CarveAttempt(size: nat) returns (ptr: Addr, ghost p: nat, ghost region: nat, ghost s: seq<Addr>)
      requires Shape() && Backed() && 0 < size < TWO_64 && mem.Ok() && Near()
      requires mm.Ready() && mm.extendOffset_ < EXTEND_MAX
      requires malloc_.q[Logarithm2(size)] == []
      modifies malloc_.Repr, mm.Repr, mm.kernel, mem`words, mem`places, mem`errno, mem`bump, mem`infos
      ensures Near() && mem.Ok() && mm.Ready()
      ensures var c := Logarithm2(size);
              var l := old(LaneAt(Logarithm2(size)));
              var r := CarveStage(l, s);
              && CarveEffect(old(mem.infos), old(mem.bump), mem.infos, mem.bump, mm.SlotOf(core_), core_, size,
                             msm_.GetMemorySize(c), p, region, s)
              && Holds(old(malloc_.q), old(free_[core_].q), old(cmp_.poolsPerCore_[core_].q), c, r.lane)
              && (ptr == 0 <==> r.got == [])
              && mem.Served(ptr, r.got, size)
              && LiveSet(mem.places) == old(LiveSet(mem.places)) + Elements(r.got)
              && (forall x :: x in r.got ==> x !in old(LiveSet(mem.places)))
      ensures ptr == 0 ==> mem.errno == ENOMEM
      ensures Frame(old(mem.words), old(mem.places), old(mem.infos), mem.words, mem.places, mem.infos, {Mal(slot)})
      ensures mm.extendOffset_ <= old(mm.extendOffset_) + 1
    {
      hide MemoryOk, Housed, Represents, Frame, LiveSet, Logarithm2, TableOk, CarveEffect, MmapManager.Ready,
        CarveStage, Machine.Served;
      ghost var w0, p0, i0 := mem.words, mem.places, mem.infos;
      ghost var own, pool := free_[core_], cmp_.poolsPerCore_[core_];
      UnfoldValid(own);
      UnfoldValid(pool);
      UnfoldValid(malloc_);
      CarveKeepsRest(LaneAt(Logarithm2(size)));
      ptr, p, region, s := CarveAndServe(size);
      BystanderValid(own, w0, p0, i0, {Mal(slot)});
      BystanderValid(pool, w0, p0, i0, {Mal(slot)});
      SetTwice(own.q, Logarithm2(size), [], []);
      SetTwice(pool.q, Logarithm2(size), [], []);
    }

    /** Serves a request from the first of the four places that has a chunk; `s` is what was carved for it. */
    method Malloc(size: nat) returns (ptr: Addr, ghost p: nat, ghost region: nat, ghost s: seq<Addr>)
      requires Shape() && Backed() && size < TWO_64 && mem.Ok() && Near()
      requires mm.Ready() && mm.extendOffset_ < EXTEND_MAX
      modifies malloc_.Repr, free_[core_].Repr, cmp_.poolsPerCore_[core_].Repr, mm.Repr, mm.kernel
      modifies mem`words, mem`places, mem`errno, mem`bump, mem`infos
      ensures Near() && mem.Ok() && mm.Ready()
      ensures size == 0 ==>
                && ptr == 0 && malloc_.q == old(malloc_.q) && free_[core_].q == old(free_[core_].q)
                && cmp_.poolsPerCore_[core_].q == old(cmp_.poolsPerCore_[core_].q)
                && LiveSet(mem.places) == old(LiveSet(mem.places))
      ensures size > 0 ==>
                var c := Logarithm2(size);
                var l := old(LaneAt(Logarithm2(size)));
                var r := FourStages(l, msm_.GetMemorySize(c), s);
                && Holds(old(malloc_.q), old(free_[core_].q), old(cmp_.poolsPerCore_[core_].q), c, r.lane)
                && mem.Served(ptr, r.got, size)
                && LiveSet(mem.places) == old(LiveSet(mem.places)) + Elements(r.got)
                && (forall x :: x in r.got ==> x !in old(LiveSet(mem.places)))
      ensures size > 0 ==>
                Supplied(old(LaneAt(Logarithm2(size))), msm_.GetMemorySize(Logarithm2(size)), old(mem.infos),
                         old(mem.bump), mem.infos, mem.bump, mm.SlotOf(core_), core_, size, p, region, s)
      ensures size == 0 ==> mem.infos == old(mem.infos) && mem.bump == old(mem.bump)
      ensures size == 0 ==> mm.extendOffset_ == old(mm.extendOffset_)
      ensures size > 0 ==>
                mm.extendOffset_ == old(mm.extendOffset_)
                  + Extensions(old(LaneAt(Logarithm2(size))), msm_.GetMemorySize(Logarithm2(size)), old(mem.bump),
                               mm.SlotOf(core_), size)
      ensures size > 0 && ptr == 0 ==> mem.errno == ENOMEM
      ensures Frame(old(mem.words), old(mem.places), old(mem.infos), mem.words, mem.places, mem.infos, NearIds())
    {
      hide MemoryOk, Housed, Represents, Frame, LiveSet, Logarithm2, TableOk, CarveEffect, MmapManager.Ready,
        LocalStage, RefillStage, CarveStage, MemoryLinkedListManager.Valid, Machine.Served, LocalMemoryManager.Near;
      ghost var w0, p0, i0 := mem.words, mem.places, mem.infos;
      p, region, s := 0, 0, [];
      mm.ExtensionsCounted();
      if size == 0 {
        SameFrame(w0, p0, i0, NearIds());
        return 0, p, region, s;
      }
      ghost var bump0 := mem.bump;
      ghost var c, l := Logarithm2(size), LaneAt(Logarithm2(size));
      ghost var mal0, own0, pool0 := malloc_.q, free_[core_].q, cmp_.poolsPerCore_[core_].q;
      ghost var a := LocalStage(l);
      ghost var b := RefillStage(a.lane, msm_.GetMemorySize(c));
      NearApart(this);
      mm.MemOutside();
      ptr := LocalAttempt(size);
      FrameWider(w0, p0, i0, mem.words, mem.places, mem.infos, {Mal(slot), FreeList(slot, core_)}, NearIds());
      if ptr == 0 {
        ghost var w1, p1 := mem.words, mem.places;
        SetTwice(mal0, c, a.lane.mal, b.lane.mal);
        SetTwice(own0, c, a.lane.own, b.lane.own);
        SetTwice(pool0, c, a.lane.pool, b.lane.pool);
        ptr := RefillAttempt(size);
        KeysMatch(w1, p1, i0, bump0.granted);
        FrameWider(w1, p1, i0, mem.words, mem.places, mem.infos, {Mal(slot), Pool(core_)}, NearIds());
        FrameTransitive(w0, p0, i0, w1, p1, i0, mem.words, mem.places, i0, NearIds());
        if ptr == 0 {
          ghost var w2, p2 := mem.words, mem.places;
          NothingToTake(a.lane, msm_.GetMemorySize(c));
          KeysMatch(w2, p2, i0, bump0.granted);
          ptr, p, region, s := CarveAttempt(size);
          FrameWider(w2, p2, i0, mem.words, mem.places, mem.infos, {Mal(slot)}, NearIds());
          SetTwice(mal0, c, b.lane.mal, CarveStage(b.lane, s).lane.mal);
          SetTwice(own0, c, b.lane.own, CarveStage(b.lane, s).lane.own);
          SetTwice(pool0, c, b.lane.pool, CarveStage(b.lane, s).lane.pool);
          FrameTransitive(w0, p0, i0, w2, p2, i0, mem.words, mem.places, mem.infos, NearIds());
        }
      }
      mm.ExtensionsCounted();
      SuppliedExtends(l, msm_.GetMemorySize(c), i0, bump0, mem.infos, mem.bump, mm.SlotOf(core_), core_, size, p,
                      region, s);
    }

    /** Copies the old body into the new block and releases the old chunk. */
    method CopyAndFree(newPtr: Addr, ptr: Addr, preSize: nat, ghost k: nat)
      requires Shape() && TeamApart() && mem.Ok() && Near() && k < coreN_ && free_[k].Valid()
      requires mem.Live(ptr - HEADER) && mem.infos[ptr - HEADER].core == k && preSize == mem.infos[ptr - HEADER].size
      requires mem.Live(newPtr - HEADER) && newPtr != ptr && preSize <= mem.infos[newPtr - HEADER].size
      modifies free_[k].Repr, mem`words, mem`places
      ensures Replaced(old(free_[k].q), free_[k].q, old(mem.words), mem.words, old(mem.places), mem.places, mem.infos,
                       FreeList(slot, k), ptr - HEADER, newPtr - HEADER, old(mem.infos[ptr - HEADER]))
      ensures free_[k].Valid() && Near() && mem.Ok()
      ensures malloc_.q == old(malloc_.q) && cmp_.poolsPerCore_[core_].q == old(cmp_.poolsPerCore_[core_].q)
      ensures k != core_ ==> free_[core_].q == old(free_[core_].q)
    {
      hide MemoryOk, Housed, Represents, Frame, LiveSet, Logarithm2, BodiesKept, SameContents, BodyWritten, Queued,
        Copied, MemoryLinkedListManager.Valid, MemoryLinkedListManager.Shape, WideFrame;
      ghost var x, y := ptr - HEADER, newPtr - HEADER;
      ghost var w0, p0, i0, gs := mem.words, mem.places, mem.infos, mem.bump.granted;
      ghost var live := LiveSet(p0) - {y};
      ghost var own, pool, home := free_[core_], cmp_.poolsPerCore_[core_], free_[k];
      UnfoldValid(malloc_);
      UnfoldValid(own);
      UnfoldValid(pool);
      UnfoldValid(home);
      CopyRoom(w0, p0, i0, gs, x, y, preSize);
      Memcpy(mem, newPtr, ptr, preSize);
      ghost var w1 := mem.words;
      CopyEffect(w0, w1, p0, i0, gs, x, y, preSize, live);
      BodyWriteValid(malloc_, w0, y);
      BodyWriteValid(own, w0, y);
      BodyWriteValid(pool, w0, y);
      BodyWriteValid(home, w0, y);
      UnfoldValid(malloc_);
      UnfoldValid(own);
      UnfoldValid(pool);
      Free(ptr, k);
      BystanderValid(malloc_, w1, p0, i0, {FreeList(slot, k)});
      BystanderValid(pool, w1, p0, i0, {FreeList(slot, k)});
      if k != core_ { BystanderValid(own, w1, p0, i0, {FreeList(slot, k)}); }
      ReleaseKeepsBodies(w0, w1, mem.words, p0, i0, mem.places, {FreeList(slot, k)}, x, y, preSize, live);
      CopyFrame(w0, w1, mem.words, p0, i0, mem.places, {FreeList(slot, k)}, y);
    }

    /** A reallocation of nothing. */
    method MallocForNull(size: nat, ghost k: nat)
      returns (newPtr: Addr, ghost p: nat, ghost region: nat, ghost s: seq<Addr>, ghost r: Attempt)
      requires Shape() && Backed() && TeamApart() && size < TWO_64 && mem.Ok() && Near()
      requires mm.Ready() && mm.extendOffset_ < EXTEND_MAX && k < coreN_ && free_[k].Valid()
      modifies malloc_.Repr, free_[core_].Repr, cmp_.poolsPerCore_[core_].Repr, mm.Repr, mm.kernel
      modifies mem`words, mem`places, mem`errno, mem`bump, mem`infos
      ensures size == 0 ==>
                && newPtr == 0 && mem.words == old(mem.words) && mem.places == old(mem.places)
                && mem.infos == old(mem.infos) && mem.bump == old(mem.bump)
                && malloc_.q == old(malloc_.q) && free_[core_].q == old(free_[core_].q) && free_[k].q == old(free_[k].q)
                && cmp_.poolsPerCore_[core_].q == old(cmp_.poolsPerCore_[core_].q)
      ensures size > 0 ==>
                && Obtained(old(LaneAt(Logarithm2(size))), size, old(mem.infos), old(mem.bump), r, p, region, s)
                && Holds(old(malloc_.q), old(free_[core_].q), old(cmp_.poolsPerCore_[core_].q), Logarithm2(size),
                         r.lane)
                && mem.Served(newPtr, r.got, size)
                && LiveSet(mem.places) == old(LiveSet(mem.places)) + Elements(r.got)
      ensures BodiesKept(old(mem.words), mem.words, old(mem.infos), old(LiveSet(mem.places)))
      ensures Frame(old(mem.words), old(mem.places), old(mem.infos), mem.words, mem.places, mem.infos, NearIds())
      ensures newPtr == 0 && size > 0 ==> mem.errno == ENOMEM
      ensures Near() && free_[k].Valid() && mem.Ok() && mm.Ready()
      ensures mm.extendOffset_ <= old(mm.extendOffset_) + 1
    {
      hide MemoryOk, Housed, Represents, Frame, LiveSet, Logarithm2, BodiesKept, Supplied, FourStages,
        LocalMemoryManager.Holds, LocalMemoryManager.Near, MmapManager.Ready, TableOk, MemoryLinkedListManager.Valid,
        MemoryLinkedListManager.Shape, Machine.Served;
      p, region, s, r := 0, 0, [], Attempt(Lane([], [], []), []);
      if size == 0 {
        NothingWritten(mem.words, mem.infos, LiveSet(mem.places));
        SameFrame(mem.words, mem.places, mem.infos, NearIds());
        return 0, p, region, s, r;
      }
      ghost var w0, p0, i0 := mem.words, mem.places, mem.infos;
      newPtr, p, region, s := MallocBeside(size, k);
      r := FourStages(old(LaneAt(Logarithm2(size))), msm_.GetMemorySize(Logarithm2(size)), s);
      FrameKeepsLive(w0, p0, i0, mem.words, mem.places, mem.infos, NearIds(), LiveSet(p0));
    }

    /** Without a block, a request; otherwise keeps the block when `size` fits it, and moves it when not. */
    method Realloc(ptr: Addr, size: nat, ghost info: Info)
      returns (newPtr: Addr, ghost p: nat, ghost region: nat, ghost s: seq<Addr>, ghost r: Attempt)
      requires Shape() && Backed() && TeamApart() && size < TWO_64 && mem.Ok() && Near()
      requires mm.Ready() && mm.extendOffset_ < EXTEND_MAX
      requires info.core < coreN_ && free_[info.core].Valid()
      requires ptr != 0 ==> mem.Live(ptr - HEADER) && mem.infos[ptr - HEADER] == info
      modifies malloc_.Repr, free_[core_].Repr, free_[info.core].Repr, cmp_.poolsPerCore_[core_].Repr, mm.Repr,
               mm.kernel
      modifies mem`words, mem`places, mem`errno, mem`bump, mem`infos
      ensures ptr == 0 && size > 0 ==>
                && Obtained(old(LaneAt(Logarithm2(size))), size, old(mem.infos), old(mem.bump), r, p, region, s)
                && Holds(old(malloc_.q), old(free_[core_].q), old(cmp_.poolsPerCore_[core_].q), Logarithm2(size),
                         r.lane)
                && mem.Served(newPtr, r.got, size)
                && LiveSet(mem.places) == old(LiveSet(mem.places)) + Elements(r.got)
      ensures (if ptr == 0 then size == 0 else size <= info.size) ==>
                && newPtr == ptr && mem.words == old(mem.words) && mem.places == old(mem.places)
                && mem.infos == old(mem.infos) && mem.bump == old(mem.bump)
                && malloc_.q == old(malloc_.q) && free_[core_].q == old(free_[core_].q)
                && free_[info.core].q == old(free_[info.core].q)
                && cmp_.poolsPerCore_[core_].q == old(cmp_.poolsPerCore_[core_].q)
      ensures ptr != 0 && size > info.size ==>
                Grown(old(LaneAt(Logarithm2(size))), old(malloc_.q), old(free_[core_].q), old(free_[info.core].q),
                      old(cmp_.poolsPerCore_[core_].q), old(mem.words), old(mem.infos), old(mem.bump),
                      old(LiveSet(mem.places)), ptr - HEADER, info, size, newPtr, r, p, region, s)
      ensures BodiesKept(old(mem.words), mem.words, old(mem.infos), old(LiveSet(mem.places)))
      ensures WideFrame(old(mem.words), old(mem.places), old(mem.infos), mem.words, mem.places, mem.infos,
                        NearIds() + {FreeList(slot, info.core)}, if ptr != 0 then Elements(r.got) else {})
      ensures newPtr == 0 && size > 0 ==> mem.errno == ENOMEM
      ensures Near() && free_[info.core].Valid() && mem.Ok() && mm.Ready()
      ensures mm.extendOffset_ <= old(mm.extendOffset_) + 1
    {
      hide MemoryOk, Housed, Represents, LiveSet, Logarithm2, BodiesKept, Supplied, Moved, FourStages,
        LocalMemoryManager.Near, MmapManager.Ready, TableOk, LocalMemoryManager.Holds, Machine.Served, Frame, WideFrame;
      if ptr == 0 {
        ghost var w, pl, i := mem.words, mem.places, mem.infos;
        KeysMatch(w, pl, i, mem.bump.granted);
        newPtr, p, region, s, r := MallocForNull(size, info.core);
        FrameIsWide(w, pl, i, mem.words, mem.places, mem.infos, NearIds(), NearIds() + {FreeList(slot, info.core)});
        return;
      }
      var x := ptr - HEADER;
      HeaderSize(mem.words, mem.places, mem.infos, mem.bump.granted, x);
      var preSize := PtrToSize(ptr);
      p, region, s, r := 0, 0, [], Attempt(Lane([], [], []), []);
      if size <= preSize {
        NothingWritten(mem.words, mem.infos, LiveSet(mem.places));
        KeysMatch(mem.words, mem.places, mem.infos, mem.bump.granted);
        SameFrame(mem.words, mem.places, mem.infos, {});
        assert Elements(r.got) == {};
        FrameIsWide(mem.words, mem.places, mem.infos, mem.words, mem.places, mem.infos, {},
                    NearIds() + {FreeList(slot, info.core)});
        return ptr, p, region, s, r;
      }
      newPtr, p, region, s, r := Grow(ptr, preSize, size, info);
    }

    /** Moves a block that has become too small. */
    method Grow(ptr: Addr, preSize: nat, size: nat, ghost info: Info)
      returns (newPtr: Addr, ghost p: nat, ghost region: nat, ghost s: seq<Addr>, ghost r: Attempt)
      requires Shape() && Backed() && TeamApart() && mem.Ok() && Near()
      requires mm.Ready() && mm.extendOffset_ < EXTEND_MAX
      requires ptr != 0 && mem.Live(ptr - HEADER) && mem.infos[ptr - HEADER] == info && info.core < coreN_
      requires free_[info.core].Valid()
      requires preSize == info.size < size < TWO_64
      modifies malloc_.Repr, free_[core_].Repr, free_[info.core].Repr, cmp_.poolsPerCore_[core_].Repr, mm.Repr,
               mm.kernel
      modifies mem`words, mem`places, mem`errno, mem`bump, mem`infos
      ensures Grown(old(LaneAt(Logarithm2(size))), old(malloc_.q), old(free_[core_].q), old(free_[info.core].q),
                    old(cmp_.poolsPerCore_[core_].q), old(mem.words), old(mem.infos), old(mem.bump),
                    old(LiveSet(mem.places)), ptr - HEADER, info, size, newPtr, r, p, region, s)
      ensures BodiesKept(old(mem.words), mem.words, old(mem.infos), old(LiveSet(mem.places)))
      ensures WideFrame(old(mem.words), old(mem.places), old(mem.infos), mem.words, mem.places, mem.infos,
                        NearIds() + {FreeList(slot, info.core)}, Elements(r.got))
      ensures newPtr == 0 ==> mem.errno == ENOMEM
      ensures Near() && free_[info.core].Valid() && mem.Ok() && mm.Ready()
      ensures mm.extendOffset_ <= old(mm.extendOffset_) + 1
    {
      hide MemoryOk, Housed, Represents, Frame, LiveSet, Logarithm2, BodiesKept, Supplied, Moved, FourStages,
        SameContents, LocalMemoryManager.Near, MmapManager.Ready, TableOk, MemoryLinkedListManager.Valid,
        MemoryLinkedListManager.Shape, Queued, WideFrame;
      ghost var x, k := ptr - HEADER, info.core;
      ghost var w0, p0, i0, live0 := mem.words, mem.places, mem.infos, LiveSet(mem.places);
      ghost var own0, home0 := free_[core_].q, free_[info.core].q;
      KeysMatch(w0, p0, i0, mem.bump.granted);
      newPtr, p, region, s := MallocBeside(size, k);
      r := FourStages(old(LaneAt(Logarithm2(size))), msm_.GetMemorySize(Logarithm2(size)), s);
      ghost var w1, p1, i1, own1, home1 := mem.words, mem.places, mem.infos, free_[core_].q, free_[info.core].q;
      AtMostOne(old(LaneAt(Logarithm2(size))), msm_.GetMemorySize(Logarithm2(size)), s);
      AfterMalloc(w0, p0, i0, w1, p1, i1, NearIds(), x, r.got);
      FrameIsWide(w0, p0, i0, w1, p1, i1, NearIds(), NearIds() + {FreeList(slot, info.core)});
      if newPtr == 0 {
        MovedNot(size, x, info, r, k == core_, own0, home0, own1, home1, w0, w1, mem.infos, live0, LiveSet(p1));
        return;
      }
      MoveInto(newPtr, ptr, preSize, k);
      SameContentsTransitive(w0, x, w1, x, mem.words, newPtr - HEADER, preSize);
      MovedTo(size, x, info, r, newPtr, k == core_, own0, home0, own1, home1, free_[core_].q, free_[info.core].q,
              p1, mem.places, FreeList(slot, info.core), w0, mem.words, mem.infos, live0);
      BodiesKeptTransitive(w0, w1, mem.words, i0, i1, live0);
      WideTransitive(w0, p0, i0, w1, p1, i1, mem.words, mem.places, i1, NearIds(), {FreeList(slot, info.core)},
                     {newPtr - HEADER});
    }

    /** `CopyAndFree`, beside the mapped-memory manager. */
    method MoveInto(newPtr: Addr, ptr: Addr, preSize: nat, ghost k: nat)
      requires Shape() && TeamApart() && mem.Ok() && Near() && k < coreN_ && free_[k].Valid() && mm.Ready()
      requires mem.Live(ptr - HEADER) && mem.infos[ptr - HEADER].core == k && preSize == mem.infos[ptr - HEADER].size
      requires mem.Live(newPtr - HEADER) && newPtr != ptr && preSize <= mem.infos[newPtr - HEADER].size
      modifies free_[k].Repr, mem`words, mem`places
      ensures Replaced(old(free_[k].q), free_[k].q, old(mem.words), mem.words, old(mem.places), mem.places, mem.infos,
                       FreeList(slot, k), ptr - HEADER, newPtr - HEADER, old(mem.infos[ptr - HEADER]))
      ensures free_[k].Valid() && Near() && mem.Ok() && mm.Ready()
      ensures malloc_.q == old(malloc_.q) && cmp_.poolsPerCore_[core_].q == old(cmp_.poolsPerCore_[core_].q)
      ensures k != core_ ==> free_[core_].q == old(free_[core_].q)
      ensures mem.infos == old(mem.infos) && mem.bump == old(mem.bump) && mem.mainThreadFlag == old(mem.mainThreadFlag)
      ensures mm.extendOffset_ == old(mm.extendOffset_)
    {
      hide MemoryOk, Housed, Represents, LiveSet, BodiesKept, SameContents, LocalMemoryManager.Near, MmapManager.Ready,
        MemoryLinkedListManager.Valid, MemoryLinkedListManager.Shape, Queued, Replaced;
      assert free_[k] in Team();
      UnfoldValid(free_[k]);
      mm.MemOutside();
      CopyAndFree(newPtr, ptr, preSize, k);
    }

    /** `Malloc`, with the queue manager that a later release will use beside it. */
    method MallocBeside(size: nat, ghost k: nat)
      returns (ptr: Addr, ghost p: nat, ghost region: nat, ghost s: seq<Addr>)
      requires Shape() && Backed() && TeamApart() && 0 < size < TWO_64 && mem.Ok() && Near()
      requires mm.Ready() && mm.extendOffset_ < EXTEND_MAX && k < coreN_ && free_[k].Valid()
      modifies malloc_.Repr, free_[core_].Repr, cmp_.poolsPerCore_[core_].Repr, mm.Repr, mm.kernel
      modifies mem`words, mem`places, mem`errno, mem`bump, mem`infos
      ensures var c := Logarithm2(size);
              var r := FourStages(old(LaneAt(Logarithm2(size))), msm_.GetMemorySize(c), s);
              && Holds(old(malloc_.q), old(free_[core_].q), old(cmp_.poolsPerCore_[core_].q), c, r.lane)
              && mem.Served(ptr, r.got, size)
              && LiveSet(mem.places) == old(LiveSet(mem.places)) + Elements(r.got)
              && (forall x :: x in r.got ==> x !in old(LiveSet(mem.places)))
      ensures Supplied(old(LaneAt(Logarithm2(size))), msm_.GetMemorySize(Logarithm2(size)), old(mem.infos),
                       old(mem.bump), mem.infos, mem.bump, mm.SlotOf(core_), core_, size, p, region, s)
      ensures k != core_ ==> free_[k].q == old(free_[k].q)
      ensures ptr == 0 ==> mem.errno == ENOMEM
      ensures Frame(old(mem.words), old(mem.places), old(mem.infos), mem.words, mem.places, mem.infos, NearIds())
      ensures Near() && free_[k].Valid() && mem.Ok() && mm.Ready()
      ensures mm.extendOffset_ <= old(mm.extendOffset_) + 1
    {
      hide MemoryOk, Housed, Represents, Frame, LiveSet, Logarithm2, FourStages, Supplied, LocalMemoryManager.Near,
        MmapManager.Ready, TableOk, MemoryLinkedListManager.Valid, MemoryLinkedListManager.Shape;
      ghost var w0, p0, i0 := mem.words, mem.places, mem.infos;
      UnfoldValid(free_[k]);
      ptr, p, region, s := Malloc(size);
      if k != core_ {
        BystanderValid(free_[k], w0, p0, i0, NearIds());
      } else {
        NearValid(this);
      }
    }

    /** Hands the free list of one remote core to that core's common pool. */
    method FlushOne(i: nat)
      requires Shape() && TeamApart() && mem.Ok() && i < coreN_
      requires forall m :: m in Team() ==> m.Valid()
      modifies free_[i].Repr, cmp_.poolsPerCore_[i].Repr, mem`words, mem`places
      ensures mem.Ok() && (forall m :: m in Team() ==> m.Valid())
      ensures cmp_.poolsPerCore_[i].q == Joined(old(cmp_.poolsPerCore_[i].q), old(free_[i].q)) && free_[i].q == Empty()
      ensures forall m :: m in Team() && m != free_[i] && m != cmp_.poolsPerCore_[i] ==> m.q == old(m.q)
      ensures mem.places == MoveClasses(old(mem.places), FreeList(slot, i), Pool(i), CLASSES)
      ensures LiveSet(mem.places) == old(LiveSet(mem.places)) && mem.infos == old(mem.infos)
      ensures mem.bump == old(mem.bump)
      ensures Frame(old(mem.words), old(mem.places), mem.infos, mem.words, mem.places, mem.infos,
                    {FreeList(slot, i), Pool(i)})
    {
      hide MemoryOk, Housed, Represents, Frame, LiveSet, Joined, MemoryLinkedListManager.Valid,
        MemoryLinkedListManager.Shape;
      ghost var w, p, inf, ids := mem.words, mem.places, mem.infos, {FreeList(slot, i), Pool(i)};
      ghost var from, to := free_[i], cmp_.poolsPerCore_[i];
      assert from in Team() && to in Team() && from != to;
      TeamIds(this, i);
      forall m | m in Team()
        ensures m.Shape() && Represents(w, m.q, m.heads_[..], m.lasts_[..]) && Housed(p, m.id, m.q)
        ensures p.Keys == inf.Keys
        ensures (mem as object) !in m.Repr && m.Repr == {m, m.heads_, m.lasts_}
      {
        UnfoldValid(m);
      }
      cmp_.Free(free_[i], i);
      forall m | m in Team() && m != from && m != to
        ensures m.Valid() && m.q == old(m.q)
      {
        assert m.Repr !! from.Repr && m.Repr !! to.Repr;
        assert m.q == old(m.q) && m.heads_[..] == old(m.heads_[..]) && m.lasts_[..] == old(m.lasts_[..]);
        BystanderValid(m, w, p, inf, ids);
      }
    }

    /** The queue managers a flush changes. */
    ghost function FlushIds(): set<QueueId> {
      (set i | 0 <= i < coreN_ && i != core_ :: FreeList(slot, i)) + (set i | 0 <= i < coreN_ && i != core_ :: Pool(i))
    }

    ghost predicate TeamValid()
      reads Team(), set m | m in Team() :: m.heads_
      reads set m | m in Team() :: m.lasts_
      reads mem`words, mem`places
    {
      forall m :: m in Team() ==> m.mem == mem && m.Valid()
    }

    /** The remote free lists of the cores below `i` have gone to their common pools; the others are as in
        `frees` and `pools`. */
    ghost predicate FlushedBelow(i: nat, mal: Queues, frees: seq<Queues>, pools: seq<Queues>)
      requires Shape() && |frees| == |pools| == coreN_
      reads set m | m in Team()
    {
      && malloc_.q == mal
      && forall k :: 0 <= k < coreN_ ==>
           var moved := k < i && k != core_;
           && cmp_.poolsPerCore_[k].q == (if moved then Joined(pools[k], frees[k]) else pools[k])
           && free_[k].q == (if moved then Empty() else frees[k])
    }

    /** One round of the flush. */
    method FlushNext(i: nat, ghost mal: Queues, ghost frees: seq<Queues>, ghost pools: seq<Queues>, ghost w0: Words,
                     ghost p0: Places)
      requires Shape() && TeamApart() && mem.Ok() && i < coreN_ && i != core_ && TeamValid()
      requires |frees| == |pools| == coreN_ && FlushedBelow(i, mal, frees, pools)
      requires p0.Keys == mem.infos.Keys && mem.places == FlushPlaces(p0, slot, i)
      requires Frame(w0, p0, mem.infos, mem.words, mem.places, mem.infos, FlushIds())
      modifies free_[i].Repr, cmp_.poolsPerCore_[i].Repr, mem`words, mem`places
      ensures mem.Ok() && TeamValid() && FlushedBelow(i + 1, mal, frees, pools)
      ensures mem.places == FlushPlaces(p0, slot, i + 1)
      ensures LiveSet(mem.places) == old(LiveSet(mem.places)) && mem.infos == old(mem.infos)
      ensures mem.bump == old(mem.bump)
      ensures Frame(w0, p0, mem.infos, mem.words, mem.places, mem.infos, FlushIds())
    {
      hide MemoryOk, Housed, Represents, Frame, LiveSet, Joined, MemoryLinkedListManager.Valid, MoveClasses,
        FlushPlaces, LocalMemoryManager.FlushIds, LocalMemoryManager.TeamApart;
      FlushStep(p0, i);
      ghost var w1, p1, inf := mem.words, mem.places, mem.infos;
      KeysMatch(w1, p1, inf, mem.bump.granted);
      InFlushIds(i);
      FlushOne(i);
      FrameWider(w1, p1, inf, mem.words, mem.places, mem.infos, {FreeList(slot, i), Pool(i)}, FlushIds());
      FrameTransitive(w0, p0, inf, w1, p1, inf, mem.words, mem.places, inf, FlushIds());
      assert malloc_ in Team();
      forall k | 0 <= k < coreN_ && k != i
        ensures free_[k].q == old(free_[k].q) && cmp_.poolsPerCore_[k].q == old(cmp_.poolsPerCore_[k].q)
      {
        assert free_[k] in Team() && cmp_.poolsPerCore_[k] in Team();
        assert free_[k].id == FreeList(slot, k) && cmp_.poolsPerCore_[k].id == Pool(k);
      }
    }

    /** The rounds of the flush. */
    method FlushRounds(ghost mal: Queues, ghost frees: seq<Queues>, ghost pools: seq<Queues>)
      requires Shape() && TeamApart() && mem.Ok() && TeamValid()
      requires |frees| == |pools| == coreN_ && FlushedBelow(0, mal, frees, pools)
      modifies set m, o | m in Team() && o in m.Repr :: o
      modifies mem`words, mem`places
      ensures mem.Ok() && TeamValid() && FlushedBelow(coreN_, mal, frees, pools)
      ensures mem.places == FlushPlaces(old(mem.places), slot, coreN_)
      ensures LiveSet(mem.places) == old(LiveSet(mem.places)) && mem.infos == old(mem.infos)
      ensures mem.bump == old(mem.bump)
      ensures Frame(old(mem.words), old(mem.places), mem.infos, mem.words, mem.places, mem.infos, FlushIds())
    {
      hide MemoryOk, Frame, LiveSet, LocalMemoryManager.TeamValid, LocalMemoryManager.TeamApart,
        LocalMemoryManager.FlushIds, LocalMemoryManager.FlushedBelow, FlushPlaces;
      ghost var w0, p0, inf := mem.words, mem.places, mem.infos;
      SameFrame(w0, p0, inf, FlushIds());
      KeysMatch(w0, p0, inf, mem.bump.granted);
      FlushStarts(p0);
      for i := 0 to coreN_
        invariant mem.Ok() && TeamValid() && FlushedBelow(i, mal, frees, pools)
        invariant mem.places == FlushPlaces(p0, slot, i)
        invariant LiveSet(mem.places) == old(LiveSet(mem.places))
        invariant Frame(w0, p0, inf, mem.words, mem.places, mem.infos, FlushIds())
        invariant mem.infos == inf && mem.bump == old(mem.bump)
      {
        assert free_[i] in Team() && cmp_.poolsPerCore_[i] in Team();
        if i != core_ {
          FlushNext(i, mal, frees, pools, w0, p0);
        } else {
          FlushSkips(p0, mal, frees, pools);
        }
      }
    }

    /** Hands every remote free list to the common pool of its core. */
    method AllFreeToCommonMemoryPool()
      requires Shape() && TeamApart() && mem.Ok() && TeamValid()
      modifies set m, o | m in Team() && o in m.Repr :: o
      modifies mem`words, mem`places
      ensures mem.Ok() && TeamValid()
      ensures forall i :: 0 <= i < coreN_ && i != core_ ==>
                && cmp_.poolsPerCore_[i].q == Joined(old(cmp_.poolsPerCore_[i].q), old(free_[i].q))
                && free_[i].q == Empty()
      ensures malloc_.q == old(malloc_.q) && free_[core_].q == old(free_[core_].q)
      ensures cmp_.poolsPerCore_[core_].q == old(cmp_.poolsPerCore_[core_].q)
      ensures mem.places == FlushPlaces(old(mem.places), slot, coreN_)
      ensures LiveSet(mem.places) == old(LiveSet(mem.places)) && mem.infos == old(mem.infos)
      ensures mem.bump == old(mem.bump)
      ensures Frame(old(mem.words), old(mem.places), mem.infos, mem.words, mem.places, mem.infos, FlushIds())
    {
      hide MemoryOk, Frame, LiveSet, Joined, MemoryLinkedListManager.Valid, LocalMemoryManager.TeamValid,
        LocalMemoryManager.TeamApart, LocalMemoryManager.FlushIds, FlushPlaces;
      ghost var mal := malloc_.q;
      ghost var frees := seq(coreN_, k requires 0 <= k < coreN_ => old(free_[k].q));
      ghost var pools := seq(coreN_, k requires 0 <= k < coreN_ => old(cmp_.poolsPerCore_[k].q));
      assert FlushedBelow(0, mal, frees, pools);
      hide LocalMemoryManager.FlushedBelow;
      FlushRounds(mal, frees, pools);
      FlushedAll(mal, frees, pools);
    }

    lemma InFlushIds(i: nat)
      requires i < coreN_ && i != core_
      ensures FreeList(slot, i) in FlushIds() && Pool(i) in FlushIds() && {FreeList(slot, i), Pool(i)} <= FlushIds()
    {}

    lemma FlushStep(p0: Places, i: nat)
      requires i != slot.core
      ensures FlushPlaces(p0, slot, i + 1) == MoveClasses(FlushPlaces(p0, slot, i), FreeList(slot, i), Pool(i), CLASSES)
    {
      hide MoveClasses;
    }

    lemma FlushStarts(p0: Places)
      ensures FlushPlaces(p0, slot, 0) == p0
    {}

    lemma FlushSkips(p0: Places, mal: Queues, frees: seq<Queues>, pools: seq<Queues>)
      requires Shape() && |frees| == |pools| == coreN_ && FlushedBelow(core_, mal, frees, pools)
      ensures FlushedBelow(core_ + 1, mal, frees, pools)
      ensures FlushPlaces(p0, slot, core_ + 1) == FlushPlaces(p0, slot, core_)
    {
      hide Joined, MoveAll;
    }

    lemma FlushedAll(mal: Queues, frees: seq<Queues>, pools: seq<Queues>)
      requires Shape() && |frees| == |pools| == coreN_ && FlushedBelow(coreN_, mal, frees, pools)
      ensures malloc_.q == mal && free_[core_].q == frees[core_] && cmp_.poolsPerCore_[core_].q == pools[core_]
      ensures forall i :: 0 <= i < coreN_ && i != core_ ==>
                cmp_.poolsPerCore_[i].q == Joined(pools[i], frees[i]) && free_[i].q == Empty()
    {
      hide Joined;
    }

    /** Takes over what another heap has freed for this heap's core. */
    method Join(core: nat, lm: LocalMemoryManager)
      requires Shape() && lm.Shape() && lm.mem == mem && mem.Ok() && core == core_ < lm.coreN_
      requires malloc_.Valid() && lm.free_[core].Valid() && malloc_.Repr !! lm.free_[core].Repr
      modifies malloc_.Repr, lm.free_[core].Repr, mem`words, mem`places
      ensures malloc_.Valid() && lm.free_[core].Valid() && mem.Ok()
      ensures malloc_.q == Joined(old(malloc_.q), old(lm.free_[core].q)) && lm.free_[core].q == Empty()
      ensures mem.places == MoveClasses(old(mem.places), FreeList(lm.slot, core), Mal(slot), CLASSES)
      ensures LiveSet(mem.places) == old(LiveSet(mem.places))
      ensures Frame(old(mem.words), old(mem.places), mem.infos, mem.words, mem.places, mem.infos,
                    {Mal(slot), FreeList(lm.slot, core)})
    {
      hide MemoryOk, Housed, Represents, Frame, LiveSet, Joined;
      LiveAfterMove(mem.places, FreeList(lm.slot, core), Mal(slot), CLASSES);
      malloc_.Join(lm.free_[core]);
    }
  }

  /** Places after a flush of the cores below `k`. */
  ghost function FlushPlaces(places: Places, slot: Slot, k: nat): Places {
    FlushBelow(Stock(map[], places), slot, k).places
  }

  lemma {:induction false} FlushPlacesOf(st: Stock, slot: Slot, k: nat)
    ensures FlushBelow(st, slot, k).places == FlushPlaces(st.places, slot, k)
    decreases k
  {
    hide MoveClasses;
    if k > 0 {
      FlushPlacesOf(st, slot, k - 1);
    }
  }

  /** Distinct roles are distinct managers. */
  lemma TeamIds(h: LocalMemoryManager, i: nat)
    requires h.Shape() && i < h.coreN_
    ensures forall m :: m in h.Team() && m != h.free_[i] && m != h.cmp_.poolsPerCore_[i] ==>
              m.mem == h.mem && m.id != FreeList(h.slot, i) && m.id != Pool(i)
    ensures forall m :: m in h.Team() ==> m.mem == h.mem
  {}

  lemma NothingWritten(w: Words, infos: Infos, live: set<Addr>)
    ensures BodiesKept(w, w, infos, live)
  {}

  lemma AtMostOne(l: Lane, n: nat, s: seq<Addr>)
    ensures |FourStages(l, n, s).got| <= 1
  {}

  lemma NearValid(h: LocalMemoryManager)
    requires h.Shape() && h.Near()
    ensures h.malloc_.Valid() && h.free_[h.core_].Valid() && h.cmp_.poolsPerCore_[h.core_].Valid()
  {}

  /** What a reallocation still knows about the old block after it has obtained a new one. */
  lemma AfterMalloc(w: Words, p: Places, i: Infos, w': Words, p': Places, i': Infos, ids: set<QueueId>, x: Addr,
                    got: seq<Addr>)
    requires Frame(w, p, i, w', p', i', ids) && LiveSet(p') == LiveSet(p) + Elements(got)
    requires x in p && p[x].Out? && x in i && |got| <= 1 && forall y :: y in got ==> y !in LiveSet(p)
    ensures InfosFrame(i, i') && BodiesKept(w, w', i, LiveSet(p))
    ensures x in p' && p'[x].Out? && x in i' && i'[x] == i[x]
    ensures SameContents(w, x, w', x, i[x].size)
    ensures Elements(got) == if got == [] then {} else {got[0]}
    ensures got != [] ==> got[0] != x && got[0] !in LiveSet(p)
                          && LiveSet(p') == LiveSet(p) + {got[0]} && LiveSet(p') - {got[0]} == LiveSet(p)
  {
    assert x in LiveSet(p) && x in LiveSet(p');
    FrameKeepsLive(w, p, i, w', p', i', ids, LiveSet(p));
    FrameKeepsBodies(w, p, i, w', p', i', ids, x);
    SameBodySameContents(w, w', x, i[x].size);
    hide LiveSet;
    if got != [] {
      assert got[0] in got && Elements(got) == {got[0]};
    }
  }

  lemma MovedNot(size: nat, x: Addr, info: Info, r: Attempt, homeIsOwn: bool, own: Queues, home: Queues, own': Queues,
                 home': Queues, w: Words, w': Words, infos': Infos, live: set<Addr>, live': set<Addr>)
    requires size < TWO_64 && r.got == [] && live' == live + Elements(r.got)
    requires own' == own[Logarithm2(size) := r.lane.own] && home' == if homeIsOwn then own' else home
    ensures Moved(size, x, info, r, 0, homeIsOwn, own, home, own', home', w, w', infos', live, live')
  {
    assert Elements(r.got) == {};
    hide Logarithm2;
  }

  lemma MovedTo(size: nat, x: Addr, info: Info, r: Attempt, newPtr: Addr, homeIsOwn: bool,
                own: Queues, home: Queues, own1: Queues, home1: Queues, own2: Queues, home2: Queues,
                p1: Places, p2: Places, id: QueueId, w0: Words, w2: Words, infos': Infos, live: set<Addr>)
    requires size < TWO_64 && |r.got| == 1 && newPtr == r.got[0] + HEADER && r.got[0] !in live
    requires own1 == own[Logarithm2(size) := r.lane.own] && home1 == if homeIsOwn then own1 else home
    requires Queued(home1, home2, p1, p2, id, x, info) && own2 == if homeIsOwn then home2 else own1
    requires LiveSet(p1) == live + {r.got[0]}
    requires r.got[0] in infos' && size <= infos'[r.got[0]].size
    requires SameContents(w0, x, w2, r.got[0], info.size)
    ensures Moved(size, x, info, r, newPtr, homeIsOwn, own, home, own2, home2, w0, w2, infos', live, LiveSet(p2))
  {
    hide Logarithm2, LiveSet, SameContents;
  }

  /** Two live blocks do not overlap. */
  lemma CopyRoom(w: Words, places: Places, infos: Infos, grants: seq<Grant>, x: Addr, y: Addr, size: nat)
    requires MemoryOk(w, places, infos, grants) && x in infos && y in infos && x != y
    requires size == infos[x].size <= infos[y].size
    ensures y + HEADER + size <= x + HEADER || x + HEADER + size <= y + HEADER
  {
    hide Covered, InfoOk, HeaderOk, PlacesOk;
    assert Apart(infos, x, y);
  }

  /** After the copy the new body starts with the old contents, and no other body or header changed. */
  lemma CopyEffect(w0: Words, w1: Words, places: Places, infos: Infos, grants: seq<Grant>, x: Addr, y: Addr, size: nat,
                   live: set<Addr>)
    requires MemoryOk(w0, places, infos, grants) && x in infos && y in infos && x != y && y !in live
    requires size <= infos[y].size && Copied(w0, w1, y + HEADER, x + HEADER, size)
    ensures MemoryOk(w1, places, infos, grants) && BodyWritten(w0, w1, infos, y)
    ensures SameContents(w0, x, w1, y, size) && BodiesKept(w0, w1, infos, live)
  {
    hide MemoryOk, BodiesKept, BodyWritten;
    MemoryParts(w0, places, infos, grants);
    WriteInsideBody(w0, w1, infos, y);
    BodyWriteMemory(w0, w1, places, infos, grants, y);
    BodyWriteKeepsOthers(w0, w1, infos, y, live);
    CopiedContents(w0, w1, x, y, size);
  }

  lemma CopyFrame(w0: Words, w1: Words, w2: Words, places: Places, infos: Infos, places': Places, ids: set<QueueId>,
                  y: Addr)
    requires BodyWritten(w0, w1, infos, y) && Frame(w1, places, infos, w2, places', infos, ids)
    ensures WideFrame(w0, places, infos, w2, places', infos, ids, {y})
  {
    forall x, off | x in infos && 0 <= off < HEADER + infos[x].size && !(off == OFF_NEXT && Movable(places, ids, x))
                    && !(x in {y} && off >= HEADER)
      ensures Field(w2, x, off) == Field(w0, x, off)
    {
      assert Field(w1, x, off) == Field(w0, x, off);
    }
    hide PlacesFrame;
  }

  lemma ReleaseKeepsBodies(w0: Words, w1: Words, w2: Words, places: Places, infos: Infos, places': Places,
                           ids: set<QueueId>, x: Addr, y: Addr, size: nat, live: set<Addr>)
    requires Frame(w1, places, infos, w2, places', infos, ids) && y in infos && size <= infos[y].size
    requires BodiesKept(w0, w1, infos, live) && SameContents(w0, x, w1, y, size)
    ensures SameContents(w0, x, w2, y, size) && BodiesKept(w0, w2, infos, live)
  {
    FrameKeepsBodies(w1, places, infos, w2, places', infos, ids, y);
    SameBodySameContents(w1, w2, y, size);
    SameContentsTransitive(w0, x, w1, y, w2, y, size);
    FrameKeepsLive(w1, places, infos, w2, places', infos, ids, live);
    BodiesKeptTransitive(w0, w1, w2, infos, infos, live);
  }

  /** The first `n` bytes from `src` have been copied to `dst`, and nothing else was written. */
  ghost predicate Copied(w: Words, w': Words, dst: nat, src: nat, n: nat) {
    && (forall a {:trigger Read(w', a)} :: !(dst <= a < dst + n) ==> Read(w', a) == Read(w, a))
    && (forall i: nat :: i < n ==> Cell(w', dst, i) == Cell(w, src, i))
  }

  lemma CopyByte(w: Words, w': Words, dst: nat, src: nat, i: nat, n: nat)
    requires Copied(w, w', dst, src, i) && i < n && (dst + n <= src || src + n <= dst)
    ensures Copied(w, w'[dst + i := Cell(w', src, i)], dst, src, i + 1)
  {
    var v := w'[dst + i := Cell(w', src, i)];
    assert Read(w', src + i) == Read(w, src + i);
    forall j: nat | j < i + 1 ensures Cell(v, dst, j) == Cell(w, src, j) {
      if j < i { assert Cell(w', dst, j) == Cell(w, src, j); }
    }
    forall a | !(dst <= a < dst + (i + 1)) ensures Read(v, a) == Read(w, a) {
      assert Read(w', a) == Read(w, a);
    }
  }

  /** `memcpy` between blocks that do not overlap. */
  method Memcpy(mem: Machine, dst: Addr, src: Addr, size: nat)
    requires dst + size <= src || src + size <= dst
    modifies mem`words
    ensures Copied(old(mem.words), mem.words, dst, src, size)
  {
    hide Copied;
    CopiedNone(mem.words, dst, src);
    for i := 0 to size
      invariant Copied(old(mem.words), mem.words, dst, src, i)
    {
      CopyByte(old(mem.words), mem.words, dst, src, i, size);
      mem.words := mem.words[dst + i := Read(mem.words, src + i)];
    }
  }

  /** A copy from body to body. */
  lemma CopiedContents(w: Words, w': Words, x: Addr, y: Addr, size: nat)
    requires Copied(w, w', y + HEADER, x + HEADER, size)
    ensures SameContents(w, x, w', y, size)
  {
    forall off | HEADER <= off < HEADER + size ensures Field(w', y, off) == Field(w, x, off) {
      assert Cell(w', y + HEADER, off - HEADER) == Cell(w, x + HEADER, off - HEADER);
    }
  }

  lemma CopiedNone(w: Words, dst: nat, src: nat)
    ensures Copied(w, w, dst, src, 0)
  {}

  /** The shared memory and the mapped-memory manager are not part of any near queue manager. */
  lemma NearApart(h: LocalMemoryManager)
    requires h.Shape() && h.Near() && h.mem.Ok()
    ensures forall m :: m in {h.malloc_, h.free_[h.core_], h.cmp_.poolsPerCore_[h.core_]} ==>
              && (h.mem as object) !in m.Repr && (h.mm as object) !in m.Repr && (h.mm.kernel as object) !in m.Repr
    ensures h.mem.places.Keys == h.mem.infos.Keys
  {
    UnfoldValid(h.malloc_);
    UnfoldValid(h.free_[h.core_]);
    UnfoldValid(h.cmp_.poolsPerCore_[h.core_]);
  }

  lemma CarveKeepsRest(l: Lane)
    ensures forall s {:trigger CarveStage(l, s)} ::
              CarveStage(l, s).lane.own == l.own && CarveStage(l, s).lane.pool == l.pool
  {}

  lemma NothingToTake(l: Lane, n: nat)
    ensures RefillStage(l, n).got == [] ==> RefillStage(l, n).lane.mal == []
  {}

  /** The local stage as one or two attempts on the head of `malloc_`. */
  lemma LocalStageMeans(l: Lane, mal: Queues, own: Queues, c: nat)
    requires c < CLASSES && l.mal == mal[c] && l.own == own[c]
    ensures var r, a, b := LocalStage(l), TakeHead(Lane(l.mal, [], [])), TakeHead(Lane(l.own, [], []));
            && (a.got == [] <==> l.mal == [])
            && r.lane.pool == l.pool
            && (l.mal != [] ==>
                  r.got == a.got && r.lane.mal == a.lane.mal && r.lane.own == l.own && own[c := l.own] == own)
            && (l.mal == [] ==> r.got == b.got && r.lane.mal == b.lane.mal && r.lane.own == l.mal
                                && mal[c := l.own][c := b.lane.mal] == mal[c := b.lane.mal]
                                && (b.got == [] ==> mal[c := l.own] == mal[c := b.lane.mal]))
  {}

  lemma RefillIgnoresOwn(l: Lane, n: nat)
    ensures var r, r' := RefillStage(l, n), RefillStage(Lane(l.mal, [], l.pool), n);
            r.got == r'.got && r.lane.mal == r'.lane.mal && r.lane.pool == r'.lane.pool && r.lane.own == l.own
  {}

  lemma CarveStageMeans(l: Lane, s: seq<Addr>, q: Queues, index: nat)
    requires l.mal == [] && index < CLASSES && q[index] == []
    ensures var r := CarveStage(l, s);
            && q[index] + s == s
            && (s == [] ==> r.got == [] && r.lane.mal == [] && q[index := s] == q[index := r.lane.mal])
            && (s != [] ==>
                  r.got == [s[0]] && r.lane.mal == s[1..] && q[index := s][index := s[1..]] == q[index := s[1..]])
  {
    assert [] + s == s;
  }
}
