/** The thread-level entry points of src/fcmalloc.cpp around a heap: getting one, giving it back, and `free`
    with its counters and flush. The stock contracts here are the effects of the protocol's steps. */
module FcMallocs {
  import opened SizeClass
  import opened Bump
  import opened Chunks
  import opened Machines
  import opened MmapManagers
  import opened LinkedLists
  import opened Carving
  import opened SizeTables
  import opened CommonPools
  import opened LocalHeaps
  import opened Stocks
  import opened Donations
  import opened HeapLayouts
  import opened HeapTables
  import opened Matters
  import opened Lanes
  import opened Requests
  import opened TableViews
  import opened Protocol

  // ---------------------------------------------------------------- one thread

  /** The stock after a release through the heap at `own`. */
  function Released(st: Stock, own: Slot, x: Addr, info: Info): Stock {
    PutBack(st, FreeList(own, info.core), Logarithm2(info.size), x)
  }

  lemma ReleasedSound(st: Stock, infos: Infos, own: Slot, x: Addr)
    requires Sound(st, infos) && x in st.places && st.places[x].Out? && x in infos
    ensures Sound(Released(st, own, x, infos[x]), infos)
  {
    hide Sound, PutBack, Logarithm2;
    PutBackSound(st, infos, FreeList(own, infos[x].core), Logarithm2(infos[x].size), x);
  }

  lemma LentSound(st: Stock, infos: Infos, busy: set<Slot>, b: Slot, x: Addr, poolN: nat, coreN: nat)
    requires Sound(st, infos) && x in st.places && st.places[x].Out? && x in infos
    ensures Sound(Donate(Released(st, b, x, infos[x]), busy, b, poolN, coreN), infos)
  {
    hide *;
    ReleasedSound(st, infos, b, x);
    DonateSound(Released(st, b, x, infos[x]), infos, busy, b, poolN, coreN);
  }

  lemma DonateSound(st: Stock, infos: Infos, busy: set<Slot>, b: Slot, poolN: nat, coreN: nat)
    requires Sound(st, infos)
    ensures Sound(Donate(st, busy, b, poolN, coreN), infos)
  {
    hide *;
    SoundParts(st, infos);
    DonateTracked(st, infos, busy, b, poolN, coreN);
    FoldSound(Donate(st, busy, b, poolN, coreN), infos);
  }

  // ---------------------------------------------------------------- what a served request yields

  /** Every chunk is of an existing core and of a class that the table serves. */
  ghost predicate Provided(infos: Infos, coreN: nat, t: Table) {
    forall a :: a in infos ==> infos[a].core < coreN && t[Logarithm2(infos[a].size)] > 0
  }

  lemma ProvidedMore(infos: Infos, infos': Infos, coreN: nat, t: Table, core: nat, k: nat, s: seq<Addr>)
    requires Provided(infos, coreN, t) && Recorded(infos, infos', core, k, s) && k < CLASSES
    requires core < coreN && (s != [] ==> t[k] > 0)
    ensures Provided(infos', coreN, t)
  {
    hide Logarithm2;
  }

  /** A chunk of the request's class is of a served class. */
  lemma LaneProvided(st: Stock, infos: Infos, coreN: nat, t: Table, slot: Slot, k: nat)
    requires Sound(st, infos) && Provided(infos, coreN, t) && k < CLASSES
    ensures Flat(LaneOf(st.qs, slot, k), []) != [] ==> t[k] > 0
  {
    var s := Flat(LaneOf(st.qs, slot, k), []);
    LaneTracked(st, slot, k);
    hide Tracked, LaneOf, Flat, NoDup, Logarithm2;
    if s != [] {
      assert s[0] in s;
    }
  }

  lemma NoneFlat(l: Lane)
    ensures Flat(l, []) == [] <==> l.mal == [] && l.own == [] && l.pool == []
  {}

  /** The four stages find a chunk exactly if the table serves the class. */
  lemma StagesServe(st: Stock, infos: Infos, coreN: nat, t: Table, slot: Slot, k: nat, s: seq<Addr>)
    requires Sound(st, infos) && Provided(infos, coreN, t) && k < CLASSES
    requires |s| == if NeedsCarve(LaneOf(st.qs, slot, k), t[k]) then t[k] else 0
    ensures FourStages(LaneOf(st.qs, slot, k), t[k], s).got != [] <==> t[k] > 0
    ensures |FourStages(LaneOf(st.qs, slot, k), t[k], s).got| <= 1
  {
    var l := LaneOf(st.qs, slot, k);
    LaneProvided(st, infos, coreN, t, slot, k);
    NoneFlat(l);
    FourStagesServeFirst(l, t[k], s);
    AtMostOne(l, t[k], s);
    hide Sound, Provided, LaneOf, Flat, FourStages, NeedsCarve;
  }

  /** What the caller of a request learns: a new live block exactly if the table serves the class. */
  lemma ServedMeans(st: Stock, infos: Infos, infos': Infos, coreN: nat, t: Table, slot: Slot, k: nat, s: seq<Addr>)
    requires Sound(st, infos) && Provided(infos, coreN, t) && k < CLASSES && slot.core < coreN
    requires Carvable(st, slot, k, t[k], s) && Recorded(infos, infos', slot.core, k, s)
    requires |s| == if NeedsCarve(LaneOf(st.qs, slot, k), t[k]) then t[k] else 0
    ensures var got := FourStages(LaneOf(st.qs, slot, k), t[k], s).got;
            && (got != [] <==> t[k] > 0) && Provided(infos', coreN, t)
            && Elements(got) == (if got == [] then {} else {got[0]})
            && LiveSet(Served(st, slot, k, t[k], s).places) == LiveSet(st.places) + Elements(got)
            && forall y :: y in got ==> y !in LiveSet(st.places)
  {
    hide *;
    var got := FourStages(LaneOf(st.qs, slot, k), t[k], s).got;
    StagesServe(st, infos, coreN, t, slot, k, s);
    ServedSound(st, infos, infos', slot, k, t[k], s);
    OneElement(got);
    ProvidedMore(infos, infos', coreN, t, slot.core, k, s);
  }

  /** What the caller of a growing reallocation learns. */
  lemma RegrownLive(st: Stock, infos: Infos, infos': Infos, coreN: nat, t: Table, slot: Slot, k: nat, s: seq<Addr>,
                    x: Addr)
    requires Sound(st, infos) && Provided(infos, coreN, t) && k < CLASSES && slot.core < coreN
    requires Carvable(st, slot, k, t[k], s) && Recorded(infos, infos', slot.core, k, s)
    requires |s| == if NeedsCarve(LaneOf(st.qs, slot, k), t[k]) then t[k] else 0
    requires x in st.places && st.places[x].Out? && x in infos
    ensures var got := FourStages(LaneOf(st.qs, slot, k), t[k], s).got;
            && (got != [] <==> t[k] > 0) && Provided(infos', coreN, t)
            && Elements(got) == (if got == [] then {} else {got[0]})
            && LiveSet(Regrown(st, slot, k, t[k], s, x, infos[x]).places)
               == LiveSet(st.places) + Elements(got) - (if got == [] then {} else {x})
            && forall y :: y in got ==> y !in LiveSet(st.places)
  {
    hide *;
    LiveAmong(st.places, x);
    ServedMeans(st, infos, infos', coreN, t, slot, k, s);
    RegrownSound(st, infos, infos', slot, k, t[k], s, x);
  }

  // ---------------------------------------------------------------- one thread

  /** The thread-local variables of one thread, over the shared heap table. */
  class Thread {
    const g: GlobalMemoryManager
    const msm: MemorySizeManager
    const cntsPerSize: array<nat>
    var lp: LocalMemoryManager?

    ghost predicate Shape()
      reads `lp
    {
      && g.Shape() && cntsPerSize.Length == CLASSES && MmapApart(g)
      && (cntsPerSize as object) !in g.mm.Repr && (this as object) !in g.mm.Repr
      && (forall z :: z in g.All() ==>
            (cntsPerSize as object) !in z.Repr && (this as object) !in z.Repr && (g.mem as object) !in z.Repr)
      && (lp != null ==> lp in g.managerPools_)
    }

    /** Between calls: the queues and places are those of the sound stock `st`, and every chunk is of a core and of a
        class that exist. Every call below leaves the thread steady again. */
    ghost predicate Steady(st: Stock)
      reads `lp, g, g.mem, g.All()
      reads set m | m in g.All() :: m.heads_
      reads set m | m in g.All() :: m.lasts_
    {
      && Shape() && g.OffsetsOk() && g.In(st) && Sound(st, g.mem.infos)
      && Provided(g.mem.infos, g.coreN_, g.cmp.msm_.nPerSize_)
    }

    /** Requests can be served: extension is enabled, and another region can be recorded. */
    ghost predicate CanCarve()
      reads g.mm.Repr, g.mm, g.mm.kernel, g.mm.mem`bump
    {
      TableOk(g.cmp.msm_.nPerSize_, g.mm.pageSize_) && g.mm.Ready() && g.mm.extendOffset_ < EXTEND_MAX
    }

    /** The batch size for a request of `size`. */
    function Batch(size: nat): nat
      requires size < TWO_64
    {
      g.cmp.msm_.GetMemorySize(Logarithm2(size))
    }

    /** Since memory held `w`, with the chunks `infos` placed as in `st`, only what a protocol step on the queues `ids`
        and the bodies of `written` may change has changed, and live chunks are unlinked. */
    ghost predicate Reached(w: Words, infos: Infos, st: Stock, ids: set<QueueId>, written: set<Addr>)
      reads g.mem`words, g.mem`places
    {
      Touches(w, g.mem.words, st.places, infos, ids, written) && Unlinked(g.mem.words, g.mem.places)
    }

    constructor (g: GlobalMemoryManager, msm: MemorySizeManager)
      requires g.Shape() && g.AllValid() && MmapApart(g)
      requires forall z :: z in g.All() ==> (g.mem as object) !in z.Repr
      ensures Shape() && this.g == g && this.msm == msm && lp == null && cntsPerSize[..] == Zeros()
      ensures fresh(cntsPerSize)
    {
      this.g, this.msm, lp := g, msm, null;
      cntsPerSize := new nat[CLASSES](_ => 0);
      new;
      hide GlobalMemoryManager.Shape, Housed, Represents;
      forall z | z in g.All() ensures (cntsPerSize as object) !in z.Repr && (this as object) !in z.Repr {
        assert z.Valid() && z.Repr == {z, z.heads_, z.lasts_};
      }
    }

    /** The first call of a thread on `core`: the heap stays null exactly when all heaps of the core are busy. */
    method threadInit(core: nat, ghost st: Stock)
      requires Steady(st) && core < g.coreN_
      modifies this`lp, g.poolFlags_, g`allocOffset
      ensures Steady(st)
      ensures lp == null <==> forall i :: 0 <= i < g.poolN_ ==> Slot(core, i) in old(g.Busy())
      ensures lp == null ==> g.Busy() == old(g.Busy())
      ensures lp != null ==> lp.slot.core == core && lp.slot !in old(g.Busy()) && g.Busy() == old(g.Busy()) + {lp.slot}
      ensures old(CanCarve()) ==> CanCarve()
      ensures g.mm.extendOffset_ == old(g.mm.extendOffset_)
    {
      hide GlobalMemoryManager.Shape, BusyOf, Sound, Provided, TableOk, MmapManager.Ready;
      g.Sizes();
      lp := g.AllocLocalMemoryManager(core);
    }

    /** The end of a thread: what it freed is handed on, and its heap becomes idle. */
    method threadTerm(ghost st: Stock)
      requires Steady(st) && (lp != null ==> lp.slot in g.Busy())
      modifies set z, o | z in g.All() && o in z.Repr :: o
      modifies this`lp, g.mem`words, g.mem`places, g.poolFlags_, g`freeOffset
      ensures lp == null
      ensures old(lp) == null ==> Steady(st) && g.Busy() == old(g.Busy()) && g.mem.words == old(g.mem.words)
      ensures old(lp) != null ==>
                && g.Busy() == old(g.Busy()) - {old(lp).slot}
                && Steady(Donate(st, old(g.Busy()), old(lp).slot, g.poolN_, g.coreN_))
                && Reached(old(g.mem.words), g.mem.infos, st,
                           DonateIds(old(g.Busy()), old(lp).slot, g.poolN_, g.coreN_), {})
      ensures LiveSet(g.mem.places) == old(LiveSet(g.mem.places)) && g.mem.infos == old(g.mem.infos)
      ensures BodiesKept(old(g.mem.words), g.mem.words, g.mem.infos, LiveSet(g.mem.places))
      ensures g.mem.bump == old(g.mem.bump) && g.mem.mainThreadFlag == old(g.mem.mainThreadFlag)
      ensures old(CanCarve()) ==> CanCarve()
      ensures g.mm.extendOffset_ == old(g.mm.extendOffset_)
    {
      hide GlobalMemoryManager.Shape, BusyOf, MemoryOk, LiveSet, Donate, Sound, Tracked, Homed, BodiesKept, Provided,
        TableOk, MmapManager.Ready, GlobalMemoryManager.In, Frame, Touches, Unlinked, DonateIds;
      g.Sizes();
      MmapOutside(g, st);
      if g.mm.Ready() { g.mm.MemOutside(); }
      PlacesIn(g, st);
      NothingWritten(g.mem.words, g.mem.infos, LiveSet(g.mem.places));
      if lp != null {
        ghost var w, infos, busy, slot := g.mem.words, g.mem.infos, g.Busy(), lp.slot;
        SoundParts(st, infos);
        DonateSound(st, infos, busy, slot, g.poolN_, g.coreN_);
        g.FreeLocalMemoryManager(lp, st);
        ReachedBy(w, infos, st, Donate(st, busy, slot, g.poolN_, g.coreN_), DonateIds(busy, slot, g.poolN_, g.coreN_));
        lp := null;
      }
    }

    lemma ReachedBy(w: Words, infos: Infos, st: Stock, st': Stock, ids: set<QueueId>)
      requires g.Shape() && g.In(st') && Frame(w, st.places, infos, g.mem.words, g.mem.places, g.mem.infos, ids)
      ensures Reached(w, infos, st, ids, {})
    {
      InMemory(g, st');
      MemoryUnlinked(g.mem);
      FrameParts(w, st.places, infos, g.mem.words, g.mem.places, g.mem.infos, ids);
      hide *;
    }

    /** A request of the heap at `own` has been served by the four stages, which carved `carved` at `p`; `w`, `infos`
        and `b` were there before it. */
    ghost predicate Got(own: Slot, st: Stock, size: nat, ptr: Addr, p: nat, region: nat, carved: seq<Addr>,
                        w: Words, infos: Infos, b: Bump)
      requires size < TWO_64
      reads `lp, g, g.mem, g.All()
      reads set m | m in g.All() :: m.heads_
      reads set m | m in g.All() :: m.lasts_
    {
      var k, n := Logarithm2(size), Batch(size);
      var l := LaneOf(st.qs, own, k);
      var arena := if g.mem.mainThreadFlag then g.coreN_ else own.core;
      && LocalHeaps.Supplied(l, n, infos, b, g.mem.infos, g.mem.bump, arena, own.core, size, p, region,
                             carved)
      && Carvable(st, own, k, n, carved) && Recorded(infos, g.mem.infos, own.core, k, carved)
      && Steady(Requests.Served(st, own, k, n, carved)) && g.mem.Served(ptr, FourStages(l, n, carved).got, size)
      && Reached(w, infos, st, NearOf(own), {})
    }

    /** Block `x` has been given up for a bigger one, if there was one. */
    ghost predicate Traded(own: Slot, st: Stock, x: Addr, size: nat, ptr: Addr, p: nat, region: nat, carved: seq<Addr>,
                           w: Words, infos: Infos, b: Bump)
      requires size < TWO_64 && x in infos
      reads `lp, g, g.mem, g.All()
      reads set m | m in g.All() :: m.heads_
      reads set m | m in g.All() :: m.lasts_
    {
      var k, n := Logarithm2(size), Batch(size);
      var l := LaneOf(st.qs, own, k);
      var arena := if g.mem.mainThreadFlag then g.coreN_ else own.core;
      var got := FourStages(l, n, carved).got;
      && LocalHeaps.Supplied(l, n, infos, b, g.mem.infos, g.mem.bump, arena, own.core, size, p, region,
                             carved)
      && Carvable(st, own, k, n, carved) && Recorded(infos, g.mem.infos, own.core, k, carved)
      && Steady(Regrown(st, own, k, n, carved, x, infos[x])) && g.mem.Served(ptr, got, size)
      && (forall y :: y in got ==> SameContents(w, x, g.mem.words, y, infos[x].size))
      && Reached(w, infos, st, NearOf(own) + {FreeList(own, infos[x].core)}, Elements(got))
    }

    /** `malloc`: null for size 0; otherwise the four stages on the thread's heap, as one change of the stock. There is
        a block, with room for the request and not live before, exactly when the table serves the request's class. */
    method malloc(size: nat, ghost st: Stock)
      returns (ptr: Addr, ghost p: nat, ghost region: nat, ghost carved: seq<Addr>)
      requires Steady(st) && CanCarve() && size < TWO_64 && (size > 0 ==> lp != null)
      modifies set z, o | z in g.All() && o in z.Repr :: o
      modifies g.mm.Repr, g.mm.kernel, g.mem`words, g.mem`places, g.mem`errno, g.mem`bump, g.mem`infos
      ensures size == 0 ==>
                && Steady(st) && g.mem.words == old(g.mem.words) && g.mem.infos == old(g.mem.infos)
                && g.mem.bump == old(g.mem.bump)
      ensures size > 0 ==>
                Got(old(lp).slot, st, size, ptr, p, region, carved, old(g.mem.words), old(g.mem.infos), old(g.mem.bump))
      ensures ptr != 0 <==> size > 0 && Batch(size) > 0
      ensures ptr == 0 ==> LiveSet(g.mem.places) == LiveSet(st.places)
      ensures ptr != 0 ==>
                && ptr >= HEADER && ptr - HEADER !in LiveSet(st.places)
                && LiveSet(g.mem.places) == LiveSet(st.places) + {ptr - HEADER}
      ensures size > 0 && ptr == 0 ==> g.mem.errno == ENOMEM
      ensures BodiesKept(old(g.mem.words), g.mem.words, old(g.mem.infos), LiveSet(st.places))
      ensures g.poolFlags_[..] == old(g.poolFlags_[..]) && g.mm.Ready()
      ensures g.mm.extendOffset_
              == old(g.mm.extendOffset_)
                 + if size == 0 then 0
                   else Extensions(LaneOf(st.qs, old(lp).slot, Logarithm2(size)), Batch(size), old(g.mem.bump),
                                   if g.mem.mainThreadFlag then g.coreN_ else old(lp).slot.core, size)
      ensures lp == old(lp)
    {
      hide GlobalMemoryManager.Shape, MemoryOk, LiveSet, BodiesKept, Sound, HeapAt, Logarithm2, FourStages, Carvable,
        Recorded, Requests.Served, LaneOf, TableOk, MmapManager.Ready, GlobalMemoryManager.AllValid, NearServed, Frame,
        LocalHeaps.Supplied, GlobalMemoryManager.Apart, Machine.Served, GlobalMemoryManager.All, Extensions, Provided,
        Touches, Unlinked;
      p, region, carved := 0, 0, [];
      if size == 0 {
        NothingWritten(g.mem.words, g.mem.infos, LiveSet(st.places));
        return 0, p, region, carved;
      }
      ghost var w, infos, b, m, k := g.mem.words, g.mem.infos, g.mem.bump, lp, Logarithm2(size);
      g.mm.ExtensionsCounted();
      InMemory(g, st);
      NearAndRest(g, lp);
      NearIdsAre(lp);
      ptr, p, region, carved := ServeBeside(g, lp, size, st);
      g.mm.ExtensionsCounted();
      ArenaIs();
      RequestMeans(w, infos, b, st, size, ptr, p, region, carved);
      SuppliedExtends(LaneOf(st.qs, m.slot, k), Batch(size), infos, b, g.mem.infos, g.mem.bump, g.mm.SlotOf(m.core_),
                      m.core_, size, p, region, carved);
      FrameKeepsLive(w, st.places, infos, g.mem.words, g.mem.places, g.mem.infos, m.NearIds(), LiveSet(st.places));
    }

    /** What a request of the heap has done, read off `ServeBeside`. */
    lemma RequestMeans(w: Words, infos: Infos, b: Bump, st: Stock, size: nat, ptr: Addr, p: nat, region: nat,
                       carved: seq<Addr>)
      requires Shape() && lp != null && 0 < size < TWO_64 && g.OffsetsOk()
      requires TableOk(g.cmp.msm_.nPerSize_, g.mm.pageSize_)
      requires g.mm.Ready() && Sound(st, infos) && Provided(infos, g.coreN_, g.cmp.msm_.nPerSize_)
      requires g.mem.Ok() && g.AllValid() && g.Apart() && lp.Shape()
      requires forall z :: z in g.All() && z.id !in lp.NearIds() ==> z.q == Q(st.qs, z.id)
      requires var l := LaneOf(st.qs, lp.slot, Logarithm2(size));
               var r := FourStages(l, Batch(size), carved);
               && NearServed(lp, st, Logarithm2(size), r) && g.mem.Served(ptr, r.got, size)
               && LiveSet(g.mem.places) == LiveSet(st.places) + Elements(r.got)
               && LocalHeaps.Supplied(l, Batch(size), infos, b, g.mem.infos, g.mem.bump, g.mm.SlotOf(lp.core_),
                                      lp.core_, size, p, region, carved)
      requires Frame(w, st.places, infos, g.mem.words, g.mem.places, g.mem.infos, lp.NearIds())
      ensures Got(lp.slot, st, size, ptr, p, region, carved, w, infos, b)
      ensures ptr != 0 <==> Batch(size) > 0
      ensures ptr == 0 ==> LiveSet(g.mem.places) == LiveSet(st.places)
      ensures ptr != 0 ==>
                && ptr >= HEADER && ptr - HEADER !in LiveSet(st.places)
                && LiveSet(g.mem.places) == LiveSet(st.places) + {ptr - HEADER}
    {
      hide *;
      var m, k, t := lp, Logarithm2(size), g.cmp.msm_.nPerSize_;
      ShapeMeans();
      ArenaIs();
      NearAndRest(g, m);
      NearIdsAre(m);
      BatchIs(size);
      SoundParts(st, infos);
      SuppliedCarvable(st, m.slot, t, g.mm.pageSize_, infos, b, g.mem.infos, g.mem.bump, g.mm.SlotOf(m.core_), m.core_,
                       size, p, region, carved);
      FrameParts(w, st.places, infos, g.mem.words, g.mem.places, g.mem.infos, m.NearIds());
      OkKeys(g.mem);
      ServedAgrees(g, m, st, infos, k, t[k], carved);
      ServedMeans(st, infos, g.mem.infos, g.coreN_, t, m.slot, k, carved);
      FoldSteady(Requests.Served(st, m.slot, k, t[k], carved));
      MemoryUnlinked(g.mem);
      FoldGot(m.slot, st, size, ptr, p, region, carved, w, infos, b);
      ServedPtr(g.mem, ptr, FourStages(LaneOf(st.qs, m.slot, k), t[k], carved).got, size);
    }

    lemma ShapeMeans()
      requires Shape()
      ensures g.Shape() && MmapApart(g) && g.mm.mem == g.mem
      ensures lp != null ==>
                lp in g.managerPools_ && lp.Shape() && lp.core_ == lp.slot.core < g.coreN_ && lp.coreN_ == g.coreN_
                  && lp.mem == g.mem
    {
      MmapMemory(g);
      hide GlobalMemoryManager.Shape;
      if lp != null {
        g.HomeOf(lp);
        MemberOf(g, lp);
      }
    }

    /** The main thread has a pool of its own; other threads carve from the pool of their heap's core. */
    lemma ArenaIs()
      requires Shape() && lp != null && g.mm.Ready()
      ensures g.mm.SlotOf(lp.core_) == if g.mem.mainThreadFlag then g.coreN_ else lp.slot.core
    {
      ShapeMeans();
      MemberOf(g, lp);
      hide GlobalMemoryManager.Shape, Ledger, Solvent, Shows, BumpInv, OffsetsPaged, Touchable;
    }

    lemma BatchIs(size: nat)
      requires size < TWO_64
      ensures Logarithm2(size) < CLASSES && Batch(size) == g.cmp.msm_.nPerSize_[Logarithm2(size)]
    {}

    lemma FoldSteady(st: Stock)
      requires Shape() && g.OffsetsOk() && g.Apart() && g.AllValid() && g.mem.Ok() && g.Agrees(st)
      requires Sound(st, g.mem.infos)
      requires Provided(g.mem.infos, g.coreN_, g.cmp.msm_.nPerSize_)
      ensures Steady(st)
    {
      hide GlobalMemoryManager.Apart, GlobalMemoryManager.AllValid, MemoryOk, GlobalMemoryManager.Agrees, Sound,
        Provided;
    }

    lemma FoldGot(own: Slot, st: Stock, size: nat, ptr: Addr, p: nat, region: nat, carved: seq<Addr>, w: Words,
                  infos: Infos, b: Bump)
      requires size < TWO_64
      requires var k, n := Logarithm2(size), Batch(size);
               var l := LaneOf(st.qs, own, k);
               var arena := if g.mem.mainThreadFlag then g.coreN_ else own.core;
               && LocalHeaps.Supplied(l, n, infos, b, g.mem.infos, g.mem.bump, arena, own.core, size, p,
                                      region, carved)
               && Carvable(st, own, k, n, carved) && Recorded(infos, g.mem.infos, own.core, k, carved)
               && Steady(Requests.Served(st, own, k, n, carved))
               && g.mem.Served(ptr, FourStages(l, n, carved).got, size)
      requires Touches(w, g.mem.words, st.places, infos, NearOf(own), {}) && Unlinked(g.mem.words, g.mem.places)
      ensures Got(own, st, size, ptr, p, region, carved, w, infos, b)
    {
      hide Touches, Unlinked, LocalHeaps.Supplied, Carvable, Recorded, Thread.Steady, Requests.Served, Machine.Served,
        LaneOf, FourStages, Logarithm2, Thread.Batch;
    }

    /** `realloc`: without a block, a request; a block with room for `size` stays; otherwise the heap moves it, if the
        table serves the class of the new size. */
    method realloc(ptr: Addr, size: nat, ghost st: Stock)
      returns (newPtr: Addr, ghost p: nat, ghost region: nat, ghost carved: seq<Addr>)
      requires Steady(st) && CanCarve() && size < TWO_64 && (ptr != 0 || size > 0 ==> lp != null)
      requires ptr != 0 ==> g.mem.Live(ptr - HEADER)
      modifies set z, o | z in g.All() && o in z.Repr :: o
      modifies g.mm.Repr, g.mm.kernel, g.mem`words, g.mem`places, g.mem`errno, g.mem`bump, g.mem`infos
      ensures (if ptr == 0 then size == 0 else size <= old(g.mem.infos[ptr - HEADER]).size) ==>
                && newPtr == ptr && Steady(st) && g.mem.words == old(g.mem.words) && g.mem.infos == old(g.mem.infos)
                && g.mem.bump == old(g.mem.bump)
      ensures ptr == 0 && size > 0 ==>
                Got(old(lp).slot, st, size, newPtr, p, region, carved, old(g.mem.words), old(g.mem.infos),
                    old(g.mem.bump))
      ensures ptr != 0 && size > old(g.mem.infos[ptr - HEADER]).size ==>
                Traded(old(lp).slot, st, ptr - HEADER, size, newPtr, p, region, carved,
                       old(g.mem.words), old(g.mem.infos), old(g.mem.bump))
      ensures newPtr != 0 <==>
                if ptr == 0 then size > 0 && Batch(size) > 0
                else size <= old(g.mem.infos[ptr - HEADER]).size || Batch(size) > 0
      ensures newPtr == 0 || newPtr == ptr ==> LiveSet(g.mem.places) == LiveSet(st.places)
      ensures newPtr != 0 && newPtr != ptr ==>
                && newPtr >= HEADER && newPtr - HEADER !in LiveSet(st.places)
                && LiveSet(g.mem.places)
                   == LiveSet(st.places) + {newPtr - HEADER} - (if ptr == 0 then {} else {ptr - HEADER})
      ensures size > 0 && newPtr == 0 ==> g.mem.errno == ENOMEM
      ensures BodiesKept(old(g.mem.words), g.mem.words, old(g.mem.infos), LiveSet(st.places))
      ensures g.poolFlags_[..] == old(g.poolFlags_[..]) && g.mm.Ready()
      ensures g.mm.extendOffset_ == old(g.mm.extendOffset_) + g.mem.bump.extensions - old(g.mem.bump).extensions
      ensures g.mm.extendOffset_ <= old(g.mm.extendOffset_) + 1
      ensures lp == old(lp)
    {
      hide GlobalMemoryManager.Shape, MemoryOk, LiveSet, BodiesKept, Sound, HeapAt, Logarithm2, FourStages, Carvable,
        Recorded, LaneOf, TableOk, MmapManager.Ready, GlobalMemoryManager.AllValid, GrownFrom, Regrown, Thread.Got,
        Thread.Traded, WideFrame, GlobalMemoryManager.Apart, Machine.Served, GlobalMemoryManager.All, ResizeIds,
        SameContents, LocalMemoryManager.Shape, Extensions, Provided, Touches, Unlinked;
      MmapMemory(g);
      g.mm.ExtensionsCounted();
      if ptr == 0 {
        newPtr, p, region, carved := malloc(size, st);
        g.mm.ExtensionsCounted();
        return;
      }
      ghost var w, infos, b, x := g.mem.words, g.mem.infos, g.mem.bump, ptr - HEADER;
      ghost var r;
      InMemory(g, st);
      NearAndRest(g, lp);
      MemberOf(g, lp);
      LiveIn(g, st, x);
      CoreExists(infos, g.coreN_, g.cmp.msm_.nPerSize_, x);
      newPtr, p, region, carved, r := ResizeBeside(g, lp, ptr, size, infos[x], st);
      g.mm.ExtensionsCounted();
      if size > infos[x].size {
        ResizeMeans(w, infos, b, st, x, size, newPtr, r, p, region, carved);
      }
    }

    /** What a growing reallocation has done, read off `ResizeBeside`. */
    lemma ResizeMeans(w: Words, infos: Infos, b: Bump, st: Stock, x: Addr, size: nat, newPtr: Addr, r: Attempt, p: nat,
                      region: nat, carved: seq<Addr>)
      requires Shape() && lp != null && 0 < size < TWO_64 && g.OffsetsOk()
      requires TableOk(g.cmp.msm_.nPerSize_, g.mm.pageSize_)
      requires g.mm.Ready() && Sound(st, infos) && Provided(infos, g.coreN_, g.cmp.msm_.nPerSize_)
      requires g.mem.Ok() && g.AllValid() && g.Apart() && lp.Shape() && lp.coreN_ == g.coreN_
      requires x in infos && x in st.places && st.places[x].Out? && infos[x].core < g.coreN_
      requires forall z :: z in g.All() && z.id !in ResizeIds(lp, infos[x].core) ==> z.q == Q(st.qs, z.id)
      requires GrownFrom(lp, st, w, infos, b, x, infos[x], size, newPtr, r, p, region, carved)
      requires WideFrame(w, st.places, infos, g.mem.words, g.mem.places, g.mem.infos, ResizeIds(lp, infos[x].core),
                         Elements(r.got))
      ensures Traded(lp.slot, st, x, size, newPtr, p, region, carved, w, infos, b)
      ensures newPtr != 0 <==> Batch(size) > 0
      ensures newPtr == 0 ==> LiveSet(g.mem.places) == LiveSet(st.places)
      ensures newPtr != 0 ==>
                && newPtr >= HEADER && newPtr - HEADER !in LiveSet(st.places)
                && LiveSet(g.mem.places) == LiveSet(st.places) + {newPtr - HEADER} - {x}
    {
      hide *;
      var m, k, t := lp, Logarithm2(size), g.cmp.msm_.nPerSize_;
      ShapeMeans();
      ArenaIs();
      NearAndRest(g, m);
      MemberOf(g, m);
      NearIdsAre(m);
      ResizeIdsAre(m, infos[x].core);
      BatchIs(size);
      TableEntry(m.msm_, k);
      RegrownMeans(g, m, st, w, infos, b, x, infos[x], size, newPtr, r, p, region, carved);
      WideParts(w, st.places, infos, g.mem.words, g.mem.places, g.mem.infos, ResizeIds(m, infos[x].core),
                Elements(r.got));
      RegrownLive(st, infos, g.mem.infos, g.coreN_, t, m.slot, k, carved, x);
      FoldSteady(Regrown(st, m.slot, k, t[k], carved, x, infos[x]));
      AgreesPlaces(g, Regrown(st, m.slot, k, t[k], carved, x, infos[x]));
      MemoryUnlinked(g.mem);
      FoldTraded(m.slot, st, x, size, newPtr, p, region, carved, w, infos, b);
      ServedPtr(g.mem, newPtr, FourStages(LaneOf(st.qs, m.slot, k), t[k], carved).got, size);
    }

    lemma FoldTraded(own: Slot, st: Stock, x: Addr, size: nat, ptr: Addr, p: nat, region: nat, carved: seq<Addr>,
                     w: Words, infos: Infos, b: Bump)
      requires size < TWO_64 && x in infos
      requires var k, n := Logarithm2(size), Batch(size);
               var l := LaneOf(st.qs, own, k);
               var arena := if g.mem.mainThreadFlag then g.coreN_ else own.core;
               var got := FourStages(l, n, carved).got;
               && LocalHeaps.Supplied(l, n, infos, b, g.mem.infos, g.mem.bump, arena, own.core, size, p,
                                      region, carved)
               && Carvable(st, own, k, n, carved) && Recorded(infos, g.mem.infos, own.core, k, carved)
               && Steady(Regrown(st, own, k, n, carved, x, infos[x])) && g.mem.Served(ptr, got, size)
               && (forall y :: y in got ==> SameContents(w, x, g.mem.words, y, infos[x].size))
               && Touches(w, g.mem.words, st.places, infos, NearOf(own) + {FreeList(own, infos[x].core)}, Elements(got))
      requires Unlinked(g.mem.words, g.mem.places)
      ensures Traded(own, st, x, size, ptr, p, region, carved, w, infos, b)
    {
      hide Touches, Unlinked, LocalHeaps.Supplied, Carvable, Recorded, Thread.Steady, Regrown, Machine.Served, LaneOf,
        FourStages, Logarithm2, Thread.Batch, SameContents;
    }

    /** `memset` of the counters. */
    method ClearCounts()
      requires cntsPerSize.Length == CLASSES
      modifies cntsPerSize
      ensures cntsPerSize[..] == Zeros()
    {
      for k := 0 to CLASSES
        modifies cntsPerSize
        invariant forall j :: 0 <= j < k ==> cntsPerSize[j] == 0
      {
        cntsPerSize[k] := 0;
      }
    }

    lemma CountsApart(st: Stock)
      requires Shape() && g.In(st)
      ensures forall z :: z in g.All() ==> z.heads_ != cntsPerSize && z.lasts_ != cntsPerSize
    {
      hide GlobalMemoryManager.Shape, Housed, Represents;
      forall z | z in g.All() ensures z.heads_ != cntsPerSize && z.lasts_ != cntsPerSize {
        assert z.Valid() && z.Repr == {z, z.heads_, z.lasts_};
      }
    }

    /** Counts a release of class `index`, and flushes when the main thread's count exceeds the batch size. */
    method CountAndFlush(index: nat, ghost st: Stock)
      requires Shape() && g.In(st) && lp != null && index < CLASSES
      modifies set z, o | z in g.All() && o in z.Repr :: o
      modifies g.mem`words, g.mem`places, cntsPerSize
      ensures var before := old(cntsPerSize[..]);
              var due := g.mem.mainThreadFlag && before[index] + 1 > msm.nPerSize_[index];
              && cntsPerSize[..] == (if due then seq(CLASSES, _ => 0) else before[index := before[index] + 1])
              && g.In(if due then FlushBelow(st, lp.slot, g.coreN_) else st)
              && Frame(old(g.mem.words), st.places, g.mem.infos, g.mem.words, g.mem.places, g.mem.infos,
                       if due then FlushIdsOf(lp.slot, g.coreN_) else {})
      ensures g.poolFlags_[..] == old(g.poolFlags_[..]) && LiveSet(g.mem.places) == old(LiveSet(g.mem.places))
      ensures BodiesKept(old(g.mem.words), g.mem.words, g.mem.infos, LiveSet(g.mem.places))
      ensures g.mem.infos == old(g.mem.infos) && g.mem.mainThreadFlag == old(g.mem.mainThreadFlag)
      ensures g.mem.bump == old(g.mem.bump)
      ensures g.allocOffset == old(g.allocOffset) && g.freeOffset == old(g.freeOffset)
    {
      hide GlobalMemoryManager.Shape, MemoryOk, LiveSet, BodiesKept, FlushBelow, GlobalMemoryManager.In, HeapAt, Frame,
        FlushIdsOf;
      ghost var counts: Counters := cntsPerSize[..];
      var freeCntInterval := msm.GetMemorySize(index);
      CountsApart(st);
      ShapeMeans();
      FlushIdsAre(lp);
      NothingWritten(g.mem.words, g.mem.infos, LiveSet(g.mem.places));
      PlacesIn(g, st);
      SameFrame(g.mem.words, g.mem.places, g.mem.infos, {});
      cntsPerSize[index] := cntsPerSize[index] + 1;
      assert cntsPerSize[..] == counts[index := counts[index] + 1];
      if g.mem.mainThreadFlag && cntsPerSize[index] > freeCntInterval {
        ClearCounts();
        FlushHeap(g, lp, st);
      }
    }

    /** After a release through the thread's own heap: it has been counted in its class; if that made the main thread's
        count exceed the batch size, all counts are zero and the remote lists have been flushed. */
    ghost predicate OwnFreed(own: Slot, st: Stock, x: Addr, info: Info, isMain: bool, before: Counters, w: Words)
      reads `lp, cntsPerSize, g, g.mem, g.All()
      reads set m | m in g.All() :: m.heads_
      reads set m | m in g.All() :: m.lasts_
    {
      var k := Logarithm2(info.size);
      var st1 := Released(st, own, x, info);
      if isMain && before[k] + 1 > msm.nPerSize_[k] then
        && cntsPerSize[..] == seq(CLASSES, _ => 0)
        && Steady(FlushBelow(st1, own, g.coreN_))
        && Reached(w, g.mem.infos, st, {FreeList(own, info.core)} + FlushIdsOf(own, g.coreN_), {})
      else
        && cntsPerSize[..] == before[k := before[k] + 1]
        && Steady(st1)
        && Reached(w, g.mem.infos, st, {FreeList(own, info.core)}, {})
    }

    /** After a release through the borrowed heap `b`. */
    ghost predicate LentFreed(st: Stock, x: Addr, info: Info, busy: set<Slot>, b: Slot, w: Words)
      reads `lp, g, g.mem, g.All()
      reads set m | m in g.All() :: m.heads_
      reads set m | m in g.All() :: m.lasts_
    {
      && b.core == info.core && b.i < g.poolN_ && b !in busy
      && Steady(Donate(Released(st, b, x, info), busy + {b}, b, g.poolN_, g.coreN_))
      && Reached(w, g.mem.infos, st, {FreeList(b, info.core)} + DonateIds(busy + {b}, b, g.poolN_, g.coreN_), {})
    }

    /** A release by a thread that has a heap. */
    method FreeOwn(ptr: Addr, ghost st: Stock)
      requires Steady(st) && lp != null && ptr != 0 && g.mem.Live(ptr - HEADER)
      modifies set z, o | z in g.All() && o in z.Repr :: o
      modifies g.mem`words, g.mem`places, cntsPerSize
      ensures OwnFreed(old(lp).slot, st, ptr - HEADER, old(g.mem.infos[ptr - HEADER]), g.mem.mainThreadFlag,
                       old(cntsPerSize[..]), old(g.mem.words))
      ensures g.poolFlags_[..] == old(g.poolFlags_[..]) && g.mem.infos == old(g.mem.infos)
      ensures g.mem.bump == old(g.mem.bump)
      ensures g.mem.mainThreadFlag == old(g.mem.mainThreadFlag)
      ensures LiveSet(g.mem.places) == old(LiveSet(g.mem.places)) - {ptr - HEADER}
      ensures BodiesKept(old(g.mem.words), g.mem.words, g.mem.infos, LiveSet(g.mem.places))
    {
      hide GlobalMemoryManager.Shape, MemoryOk, LiveSet, BodiesKept, FlushBelow, HeapAt, PutBack, Logarithm2, Provided,
        Frame, FlushDue, CountRelease, BusyOf, GlobalMemoryManager.In, Sound, FlushIdsOf, Touches, Unlinked,
        Thread.OwnFreed;
      CountsApart(st);
      MemberOf(g, lp);
      ghost var x, w, p := ptr - HEADER, g.mem.words, g.mem.places;
      ghost var info := g.mem.infos[x];
      CoreExists(g.mem.infos, g.coreN_, g.cmp.msm_.nPerSize_, x);
      LiveIn(g, st, x);
      PlacesIn(g, st);
      ReleasedSound(st, g.mem.infos, lp.slot, x);
      g.QueueIn(lp, ptr, info.core, st);
      FlushSound(Released(st, lp.slot, x, info), g.mem.infos, lp.slot, g.coreN_);
      ghost var w1, p1, live1 := g.mem.words, g.mem.places, LiveSet(g.mem.places);
      InMemory(g, Released(st, lp.slot, x, info));
      PlacesIn(g, Released(st, lp.slot, x, info));
      HeaderSize(g.mem.words, g.mem.places, g.mem.infos, g.mem.bump.granted, x);
      var size := lp.PtrToSize(ptr);
      var index := Logarithm2(size);
      ghost var due := g.mem.mainThreadFlag && cntsPerSize[index] + 1 > msm.nPerSize_[index];
      CountAndFlush(index, Released(st, lp.slot, x, info));
      ghost var more := if due then FlushIdsOf(lp.slot, g.coreN_) else {};
      ghost var st1 := Released(st, lp.slot, x, info);
      FrameThen(w, p, w1, p1, g.mem.words, g.mem.places, g.mem.infos, {FreeList(lp.slot, info.core)}, more);
      ReachedBy(w, g.mem.infos, st, if due then FlushBelow(st1, lp.slot, g.coreN_) else st1,
                {FreeList(lp.slot, info.core)} + more);
      FoldFreed(lp.slot, st, x, info, g.mem.mainThreadFlag, old(cntsPerSize[..]), w);
      SameInfosFrame(g.mem.infos);
      FewerBodies(w, w1, g.mem.infos, old(LiveSet(g.mem.places)), live1);
      BodiesKeptTransitive(w, w1, g.mem.words, g.mem.infos, g.mem.infos, live1);
    }

    lemma FoldFreed(own: Slot, st: Stock, x: Addr, info: Info, isMain: bool, before: Counters, w: Words)
      requires var k := Logarithm2(info.size);
               var due := isMain && before[k] + 1 > msm.nPerSize_[k];
               var st1 := Released(st, own, x, info);
               && cntsPerSize[..] == (if due then seq(CLASSES, _ => 0) else before[k := before[k] + 1])
               && Steady(if due then FlushBelow(st1, own, g.coreN_) else st1)
               && Reached(w, g.mem.infos, st, {FreeList(own, info.core)} + if due then FlushIdsOf(own, g.coreN_)
                          else {}, {})
      ensures OwnFreed(own, st, x, info, isMain, before, w)
    {
      hide Thread.Steady, Thread.Reached, Released, FlushBelow, FlushIdsOf, Logarithm2;
      assert {FreeList(own, info.core)} + {} == {FreeList(own, info.core)};
    }

    /** `free`. With a heap of its own the thread queues the chunk for its home core, counts it in its class, and
        flushes when that is due; without one an idle heap of the chunk's core (`borrowed`) takes it. */
    method free(ptr: Addr, ghost st: Stock) returns (ghost borrowed: Slot)
      requires Steady(st) && (ptr != 0 ==> g.mem.Live(ptr - HEADER))
      requires ptr != 0 && lp == null ==> g.HasIdle(g.mem.infos[ptr - HEADER].core)
      modifies set z, o | z in g.All() && o in z.Repr :: o
      modifies g.mem`words, g.mem`places, g.poolFlags_, g`allocOffset, g`freeOffset, cntsPerSize
      ensures ptr == 0 ==> Steady(st) && cntsPerSize[..] == old(cntsPerSize[..]) && g.mem.words == old(g.mem.words)
      ensures ptr != 0 && old(lp) != null ==>
                OwnFreed(old(lp).slot, st, ptr - HEADER, old(g.mem.infos[ptr - HEADER]), g.mem.mainThreadFlag,
                         old(cntsPerSize[..]), old(g.mem.words))
      ensures ptr != 0 && old(lp) == null ==>
                && cntsPerSize[..] == old(cntsPerSize[..])
                && LentFreed(st, ptr - HEADER, old(g.mem.infos[ptr - HEADER]), old(g.Busy()), borrowed,
                             old(g.mem.words))
      ensures LiveSet(g.mem.places) == old(LiveSet(g.mem.places)) - (if ptr == 0 then {} else {ptr - HEADER})
      ensures BodiesKept(old(g.mem.words), g.mem.words, g.mem.infos, LiveSet(g.mem.places))
      ensures g.Busy() == old(g.Busy()) && g.mem.infos == old(g.mem.infos) && g.mem.bump == old(g.mem.bump)
      ensures g.mem.mainThreadFlag == old(g.mem.mainThreadFlag)
      ensures old(CanCarve()) ==> CanCarve()
      ensures g.mm.extendOffset_ == old(g.mm.extendOffset_)
      ensures lp == old(lp)
    {
      hide GlobalMemoryManager.Shape, MemoryOk, LiveSet, BodiesKept, FlushBelow, Donate, Sound, HeapAt, PutBack,
        Logarithm2, Frame, BusyOf, GlobalMemoryManager.In, Thread.OwnFreed, Provided, TableOk, MmapManager.Ready,
        Touches, Unlinked, DonateIds;
      g.Sizes();
      borrowed := Slot(0, 0);
      if ptr == 0 {
        NothingWritten(g.mem.words, g.mem.infos, LiveSet(g.mem.places));
        return;
      }
      CountsApart(st);
      MmapOutside(g, st);
      if g.mm.Ready() { g.mm.MemOutside(); }
      if lp == null {
        ghost var w, infos, busy, x := g.mem.words, g.mem.infos, g.Busy(), ptr - HEADER;
        CoreExists(infos, g.coreN_, g.cmp.msm_.nPerSize_, x);
        SoundParts(st, infos);
        LiveIn(g, st, x);
        PlacesIn(g, st);
        borrowed := g.Free(ptr, st);
        LentSound(st, infos, busy + {borrowed}, borrowed, x, g.poolN_, g.coreN_);
        ghost var busy1 := busy + {borrowed};
        ReachedBy(w, infos, st, Donate(Released(st, borrowed, x, infos[x]), busy1, borrowed, g.poolN_, g.coreN_),
                  {FreeList(borrowed, infos[x].core)} + DonateIds(busy1, borrowed, g.poolN_, g.coreN_));
      } else {
        FreeOwn(ptr, st);
      }
    }
  }

  lemma FlushIdsAre(m: LocalMemoryManager)
    requires m.core_ == m.slot.core
    ensures m.FlushIds() == FlushIdsOf(m.slot, m.coreN_)
  {}

  lemma CoreExists(infos: Infos, coreN: nat, t: Table, x: Addr)
    requires Provided(infos, coreN, t) && x in infos
    ensures infos[x].core < coreN
  {}

  lemma PlacesIn(g: GlobalMemoryManager, st: Stock)
    requires g.Shape() && g.In(st)
    ensures g.mem.places == st.places && g.mem.places.Keys == g.mem.infos.Keys
  {
    g.InKeys(st);
    hide GlobalMemoryManager.Shape, GlobalMemoryManager.AllValid, GlobalMemoryManager.Apart, MemoryOk;
  }

  lemma AgreesPlaces(g: GlobalMemoryManager, st: Stock)
    requires g.Agrees(st)
    ensures g.mem.places == st.places
  {}

  lemma ServedPtr(mem: Machine, ptr: Addr, got: seq<Addr>, size: nat)
    requires mem.Served(ptr, got, size)
    ensures if got == [] then ptr == 0 else ptr != 0 && ptr >= HEADER && ptr - HEADER == got[0] && got[0] in got
  {}

  /** One confined operation after another. */
  lemma FrameThen(w0: Words, p0: Places, w1: Words, p1: Places, w2: Words, p2: Places, infos: Infos,
                  ids: set<QueueId>, more: set<QueueId>)
    requires p0.Keys == infos.Keys && p1.Keys == infos.Keys
    requires Frame(w0, p0, infos, w1, p1, infos, ids) && Frame(w1, p1, infos, w2, p2, infos, more)
    ensures Frame(w0, p0, infos, w2, p2, infos, ids + more)
  {
    hide Frame;
    FrameWider(w0, p0, infos, w1, p1, infos, ids, ids + more);
    FrameOnward(w0, p0, w1, p1, w2, p2, infos, ids + more, more);
  }

  // ---------------------------------------------------------------- the main thread's start

  /** The common pools, empty. */
  method BuildPools(mem: Machine, coreN: nat) returns (ps: seq<MemoryLinkedListManager>)
    requires forall a :: a in mem.places ==> !mem.places[a].In?
    ensures |ps| == coreN
    ensures forall k :: 0 <= k < coreN ==>
              && ps[k].mem == mem && ps[k].Valid() && ps[k].id == Pool(k) && ps[k].q == Empty()
              && fresh(ps[k].Repr)
    ensures forall i, j :: 0 <= i < j < coreN ==> ps[i].Repr !! ps[j].Repr
  {
    hide Housed, Represents;
    ps := [];
    for n := 0 to coreN
      invariant |ps| == n
      invariant forall k :: 0 <= k < n ==>
                  ps[k].mem == mem && ps[k].Valid() && ps[k].id == Pool(k) && ps[k].q == Empty() && fresh(ps[k].Repr)
      invariant forall i, j :: 0 <= i < j < n ==> ps[i].Repr !! ps[j].Repr
    {
      var m := new MemoryLinkedListManager.Init(mem, Pool(n), coreN);
      ps := ps + [m];
    }
  }

  const UNIT_1MB: nat := 1024 * 1024

  /** Pool sizes small enough for the 32-bit counter of the touch loop. */
  predicate Touching(numCores: nat, pageSize: nat, mainMemoryMax: nat, subMemoryMax: nat)
    requires numCores > 0 && pageSize > 0
  {
    && Align(mainMemoryMax * UNIT_1MB, pageSize) < TWO_32
    && Align(subMemoryMax * UNIT_1MB / numCores, pageSize) < TWO_32
  }

  /** With a main pool of 4096 megabytes and pages of 4096 bytes the counter never reaches the end of the pool. */
  lemma TouchNeverEnds()
    ensures Align(4096 * UNIT_1MB, 4096) == TWO_32
    ensures forall n: nat :: TouchCounter(n, 4096) < Align(4096 * UNIT_1MB, 4096)
  {
    TouchLoopTerminates(4096, TWO_32);
  }

  /** The pools at the start: `mainMB` megabytes for the main thread and an equal share of `subMB` megabytes for each
      core, in whole pages; nothing is touched or handed out, and no pool has been extended. */
  ghost predicate Configured(b: Bump, numCores: nat, pageSize: nat, mainMB: nat, subMB: nat)
    requires numCores > 0 && pageSize > 0
  {
    && b.page == pageSize && |b.arenas| == numCores + 1 && b.granted == [] && b.extensions == 0
    && forall i :: 0 <= i <= numCores ==>
         && !b.arenas[i].touched && b.arenas[i].offset == 0
         && WholePages(b.arenas[i].size, if i == numCores then mainMB * 0x10_0000
                       else subMB * 0x10_0000 / numCores, pageSize)
  }

  /** `size` is the least multiple of the page size that is not below `bytes`. */
  predicate WholePages(size: nat, bytes: nat, page: nat)
    requires page > 0
  {
    size % page == 0 && bytes <= size < bytes + page
  }

  lemma PoolsConfigured(b: Bump, numCores: nat, pageSize: nat, mainMB: nat, subMB: nat)
    requires numCores > 0 && pageSize > 0 && OffsetsPaged(b)
    requires b.page == pageSize && |b.arenas| == numCores + 1 && b.granted == [] && b.extensions == 0
    requires forall i :: 0 <= i <= numCores ==>
               && !b.arenas[i].touched && b.arenas[i].offset == 0
               && b.arenas[i].size == Align(if i == numCores then mainMB * UNIT_1MB
                                            else subMB * UNIT_1MB / numCores, pageSize)
    ensures Configured(b, numCores, pageSize, mainMB, subMB)
  {
    hide Align;
    forall i | 0 <= i <= numCores
      ensures WholePages(b.arenas[i].size, if i == numCores then mainMB * 0x10_0000
                         else subMB * 0x10_0000 / numCores, pageSize)
    {
      AlignBounds(if i == numCores then mainMB * UNIT_1MB else subMB * UNIT_1MB / numCores, pageSize);
    }
  }

  lemma PoolSizesFit(numCores: nat, pageSize: nat, megabytes: nat)
    requires 0 < numCores && 0 < pageSize < TWO_32 && megabytes < TWO_32
    ensures Align(megabytes * UNIT_1MB, pageSize) < TWO_64
    ensures Align(megabytes * UNIT_1MB / numCores, pageSize) < TWO_64
  {
    AlignBounds(megabytes * UNIT_1MB, pageSize);
    AlignBounds(megabytes * UNIT_1MB / numCores, pageSize);
    ShareBound(megabytes * UNIT_1MB, numCores);
  }

  lemma ShareBound(x: nat, n: nat)
    requires n > 0
    ensures x / n <= x
  {
    Products(1, n, x / n);
  }

  /** The memory, and the mapped-memory manager with its pools. */
  method StartMmap(numCores: nat, pageSize: nat, mainMemoryMax: nat, subMemoryMax: nat, forceExtendMem: bool)
    returns (mem: Machine, mm: MmapManager)
    requires numCores > 0 && 0 < pageSize < TWO_32 && pageSize % 16 == 0
    requires mainMemoryMax < TWO_32 && subMemoryMax < TWO_32
    ensures fresh(mem) && fresh(mm.Repr) && fresh(mm.kernel) && mem.Ok() && mem.infos == map[] && mem.places == map[]
    ensures mem.mainThreadFlag
    ensures mm.mem == mem && mm.coreN_ == numCores && mm.pageSize_ == pageSize && mm.Valid() && mm.extendOffset_ == 1
    ensures Configured(mem.bump, numCores, pageSize, mainMemoryMax, subMemoryMax) && mm.forceMmapFlag_ == forceExtendMem
    ensures forceExtendMem && Touching(numCores, pageSize, mainMemoryMax, subMemoryMax) ==> mm.Ready()
  {
    hide BumpInv, OffsetsPaged, Ledger, Solvent, Shows, Align;
    mem := new Machine(true);
    var kernel := new Kernel();
    mm := new MmapManager.Allocate(mem, kernel, numCores, pageSize);
    PoolSizesFit(numCores, pageSize, mainMemoryMax);
    PoolSizesFit(numCores, pageSize, subMemoryMax);
    mm.Init(mainMemoryMax * UNIT_1MB, subMemoryMax * UNIT_1MB);
    PoolsConfigured(mem.bump, numCores, pageSize, mainMemoryMax, subMemoryMax);
    mm.SetForceMmapFlag(forceExtendMem);
  }

  /** The common pools and the heap table. */
  method StartTable(mem: Machine, mm: MmapManager, numCores: nat, poolN: nat, msm: MemorySizeManager)
    returns (g: GlobalMemoryManager)
    requires numCores > 0 && poolN > 0 && mm.mem == mem && mm.coreN_ == numCores && mem.Ok() && mem.places == map[]
    ensures g.Shape() && g.OffsetsOk() && g.In(Stock(map[], map[])) && MmapApart(g) && g.Busy() == {}
    ensures g.mem == mem && g.mm == mm && g.coreN_ == numCores && g.poolN_ == poolN && g.cmp.msm_ == msm
    ensures forall z :: z in g.All() ==> (mem as object) !in z.Repr
    ensures fresh(g) && fresh(g.poolFlags_) && forall z :: z in g.All() ==> fresh(z.Repr)
  {
    hide HeapAt, RoleAt, Housed, Represents, BusyOf, GlobalMemoryManager.Shape, MemoryOk;
    var ps := BuildPools(mem, numCores);
    var cmp := new CommonMemoryPool.Init(mem, numCores, msm, ps);
    g := new GlobalMemoryManager.Init(mem, mm, cmp, numCores, poolN);
    forall z | z in g.All() ensures (mem as object) !in z.Repr && z.Repr !! mm.Repr {
      assert z in g.memoryPools_ || z in cmp.poolsPerCore_;
      assert z.Valid() && z.Repr == {z, z.heads_, z.lasts_};
    }
  }

  /** `mainInit`: pools of `mainMemoryMax` and `subMemoryMax` megabytes, and the heap table. The empty stock is in
      place, every heap is idle, and, with extension enabled and pools below the reach of the touch counter, the
      mapped-memory manager can serve. */
  method mainInit(numCores: nat, pageSize: nat, mainMemoryMax: nat, subMemoryMax: nat, forceExtendMem: bool, poolN: nat,
                  msm: MemorySizeManager)
    returns (g: GlobalMemoryManager, t: Thread)
    requires numCores > 0 && poolN > 0 && 0 < pageSize < TWO_32 && pageSize % 16 == 0
    requires mainMemoryMax < TWO_32 && subMemoryMax < TWO_32
    ensures t.g == g && t.msm == msm && t.lp == null && t.cntsPerSize[..] == Zeros()
    ensures t.Steady(Stock(map[], map[])) && g.Busy() == {} && g.mem.infos == map[]
    ensures g.coreN_ == numCores && g.poolN_ == poolN && g.cmp.msm_ == msm && g.mm.pageSize_ == pageSize
    ensures g.mem.mainThreadFlag && g.mm.Valid() && g.mm.extendOffset_ == 1
    ensures Configured(g.mem.bump, numCores, pageSize, mainMemoryMax, subMemoryMax)
    ensures g.mm.forceMmapFlag_ == forceExtendMem
    ensures forceExtendMem && Touching(numCores, pageSize, mainMemoryMax, subMemoryMax)
            && TableOk(msm.nPerSize_, pageSize) ==>
              t.CanCarve()
    ensures fresh(t) && fresh(t.cntsPerSize) && fresh(g) && fresh(g.poolFlags_) && fresh(g.mem)
    ensures fresh(g.mm.Repr) && fresh(g.mm.kernel) && forall z :: z in g.All() ==> fresh(z.Repr)
  {
    hide GlobalMemoryManager.Shape, MmapManager.Valid, MmapManager.Ready, MemoryOk, HeapAt, Touching, Configured,
      BusyOf, Sound, GlobalMemoryManager.In, GlobalMemoryManager.AllValid, TableOk;
    NothingTracked();
    var mem, mm := StartMmap(numCores, pageSize, mainMemoryMax, subMemoryMax, forceExtendMem);
    g := StartTable(mem, mm, numCores, poolN, msm);
    InValid(g, Stock(map[], map[]));
    t := new Thread(g, msm);
  }
}
