/** A client of the thread-level calls, from the start of the allocator to the end of its first thread. */
module Sessions {
  import opened SizeClass
  import opened Bump
  import opened Chunks
  import opened Machines
  import opened MmapManagers
  import opened LinkedLists
  import opened Carving
  import opened SizeTables
  import opened LocalHeaps
  import opened Stocks
  import opened Donations
  import opened HeapTables
  import opened Lanes
  import opened Matters
  import opened Protocol
  import opened Requests
  import opened TableViews
  import opened FcMallocs

  /** Distinct live blocks do not overlap. */
  lemma BlocksApart(g: GlobalMemoryManager, st: Stock, x: Addr, y: Addr)
    requires g.Shape() && g.In(st) && x in g.mem.infos && y in g.mem.infos && x != y
    ensures x + HEADER + g.mem.infos[x].size <= y || y + HEADER + g.mem.infos[y].size <= x
  {
    InMemory(g, st);
    MemoryParts(g.mem.words, g.mem.places, g.mem.infos, g.mem.bump.granted);
    hide *;
    ApartMeans(g.mem.infos, x, y);
  }

  lemma ApartMeans(infos: Infos, x: Addr, y: Addr)
    requires Separated(infos) && x in infos && y in infos && x != y
    ensures x + HEADER + infos[x].size <= y || y + HEADER + infos[y].size <= x
  {
    assert Apart(infos, x, y);
  }

  /** What a served request means for its caller. */
  lemma GotMeans(t: Thread, own: Slot, st: Stock, size: nat, ptr: Addr, p: nat, region: nat, carved: seq<Addr>,
                 w: Words, infos: Infos, b: Bump)
    requires size < TWO_64 && t.Got(own, st, size, ptr, p, region, carved, w, infos, b)
    ensures t.Steady(After(t, own, st, size, carved)) && InfosFrame(infos, t.g.mem.infos)
    ensures ptr != 0 ==> t.g.mem.Live(ptr - HEADER) && size <= t.g.mem.infos[ptr - HEADER].size
  {
    hide LocalHeaps.Supplied, Carvable, Thread.Steady, Served, LaneOf, FourStages, Logarithm2, Thread.Reached,
      InfosFrame;
  }

  /** The stock after a served request. */
  function After(t: Thread, own: Slot, st: Stock, size: nat, carved: seq<Addr>): Stock
    requires size < TWO_64
  {
    Served(st, own, Logarithm2(size), t.Batch(size), carved)
  }

  /** The stock after a release by the thread's own heap. */
  function Freed(t: Thread, own: Slot, st: Stock, x: Addr, info: Info, isMain: bool, counts: Counters): Stock {
    var k := Logarithm2(info.size);
    var st1 := Released(st, own, x, info);
    if isMain && counts[k] + 1 > t.msm.nPerSize_[k] then FlushBelow(st1, own, t.g.coreN_) else st1
  }

  lemma FreedMeans(t: Thread, own: Slot, st: Stock, x: Addr, info: Info, isMain: bool, counts: Counters, w: Words)
    requires t.OwnFreed(own, st, x, info, isMain, counts, w)
    ensures t.Steady(Freed(t, own, st, x, info, isMain, counts))
  {
    hide Thread.Steady, Released, FlushBelow, Logarithm2, Thread.Reached;
  }

  lemma SteadyMeans(t: Thread, st: Stock)
    requires t.Steady(st)
    ensures t.Shape() && t.g.Shape() && t.g.In(st) && t.g.mem.places == st.places
    ensures t.g.poolN_ > 0
  {
    t.g.Sizes();
    PlacesIn(t.g, st);
    hide GlobalMemoryManager.Shape, Sound, GlobalMemoryManager.In, Provided;
  }

  lemma LiveMember(mem: Machine, x: Addr)
    requires mem.Live(x)
    ensures x in mem.infos && x in LiveSet(mem.places)
  {}

  lemma MemberLive(mem: Machine, x: Addr)
    requires x in mem.infos && x in LiveSet(mem.places)
    ensures mem.Live(x)
  {}

  lemma NoneLive()
    ensures LiveSet(map[]) == {}
  {}

  /** Two requests in a row by a thread that has a heap: both are served, and the blocks do not overlap. */
  method TakeTwo(t: Thread, a: nat, b: nat, ghost st: Stock) returns (p: Addr, q: Addr, ghost st': Stock)
    requires t.Steady(st) && t.CanCarve() && t.lp != null && t.g.mm.extendOffset_ + 1 < EXTEND_MAX
    requires 0 < a < TWO_64 && 0 < b < TWO_64 && t.Batch(a) > 0 && t.Batch(b) > 0
    modifies set z, o | z in t.g.All() && o in z.Repr :: o
    modifies t.g.mm.Repr, t.g.mm.kernel, t.g.mem`words, t.g.mem`places, t.g.mem`errno, t.g.mem`bump, t.g.mem`infos
    ensures t.Steady(st') && t.g.mm.Ready() && t.g.mm.extendOffset_ <= old(t.g.mm.extendOffset_) + 2
    ensures p != 0 && q != 0 && (p + a <= q || q + b <= p)
    ensures t.g.mem.Live(p - HEADER) && t.g.mem.Live(q - HEADER) && p != q
    ensures LiveSet(t.g.mem.places) == LiveSet(st.places) + {p - HEADER, q - HEADER}
    ensures p - HEADER !in LiveSet(st.places) && q - HEADER !in LiveSet(st.places)
    ensures t.lp == old(t.lp) && t.g.poolFlags_[..] == old(t.g.poolFlags_[..])
  {
    hide GlobalMemoryManager.Shape, Thread.Shape, Thread.Steady, Thread.Got, Thread.Reached, TableOk,
      MmapManager.Ready, LiveSet, Served, LaneOf, Extensions, Logarithm2, BodiesKept, InfosFrame,
      GlobalMemoryManager.In, After, Machine.Live, Thread.Batch;
    ghost var own, w, infos, bump := t.lp.slot, t.g.mem.words, t.g.mem.infos, t.g.mem.bump;
    ghost var base, region, s;
    p, base, region, s := t.malloc(a, st);
    GotMeans(t, own, st, a, p, base, region, s, w, infos, bump);
    ghost var st1 := After(t, own, st, a, s);
    SteadyMeans(t, st1);
    LiveMember(t.g.mem, p - HEADER);
    w, infos, bump := t.g.mem.words, t.g.mem.infos, t.g.mem.bump;
    q, base, region, s := t.malloc(b, st1);
    GotMeans(t, own, st1, b, q, base, region, s, w, infos, bump);
    st' := After(t, own, st1, b, s);
    SteadyMeans(t, st');
    LiveMember(t.g.mem, q - HEADER);
    InfosFrameAt(infos, t.g.mem.infos, p - HEADER);
    MemberLive(t.g.mem, p - HEADER);
    BlocksApart(t.g, st', p - HEADER, q - HEADER);
  }

  /** The first thread of a program takes two blocks, releases the first one and ends: both requests are served, the
      blocks do not overlap, and at the end the second one alone is live and all heaps are idle. */
  method TwoBlocks(numCores: nat, pageSize: nat, mainMemoryMax: nat, subMemoryMax: nat, poolN: nat, core: nat, a: nat,
                   b: nat)
    returns (t: Thread, p: Addr, q: Addr)
    requires core < numCores && poolN > 0 && 0 < pageSize < TWO_32 && pageSize % 16 == 0
    requires mainMemoryMax < TWO_32 && subMemoryMax < TWO_32
    requires Touching(numCores, pageSize, mainMemoryMax, subMemoryMax)
    requires 0 < a <= 0x4_0000_0000 && 0 < b <= 0x4_0000_0000
    ensures p != 0 && q != 0 && (p + a <= q || q + b <= p)
    ensures fresh(t) && t.g.Shape() && t.g.poolN_ > 0 && t.g.Busy() == {} && LiveSet(t.g.mem.places) == {q - HEADER}
    ensures t.CanCarve()
  {
    hide GlobalMemoryManager.Shape, Thread.Shape, Thread.Steady, Thread.OwnFreed, Thread.Reached, TableOk,
      MmapManager.Ready, MmapManager.Valid, Touching, LiveSet, Donate, FlushBelow, BusyOf, Logarithm2, BodiesKept,
      GlobalMemoryManager.In, Freed, Machine.Live, DEFAULT;
    var msm := new MemorySizeManager.Default();
    DefaultTableOk(pageSize);
    DefaultServes(a);
    DefaultServes(b);
    NoneLive();
    ghost var st := Stock(map[], map[]);
    var g;
    g, t := mainInit(numCores, pageSize, mainMemoryMax, subMemoryMax, true, poolN, msm);
    assert Slot(core, 0) !in g.Busy();
    t.threadInit(core, st);
    p, q, st := TakeTwo(t, a, b, st);
    SteadyMeans(t, st);
    LiveMember(g.mem, p - HEADER);
    ghost var own, w, counts: Counters := t.lp.slot, g.mem.words, t.cntsPerSize[..];
    ghost var _ := t.free(p, st);
    assert LiveSet(g.mem.places) == {q - HEADER};
    FreedMeans(t, own, st, p - HEADER, g.mem.infos[p - HEADER], g.mem.mainThreadFlag, counts, w);
    st := Freed(t, own, st, p - HEADER, g.mem.infos[p - HEADER], g.mem.mainThreadFlag, counts);
    t.threadTerm(st);
  }

  lemma InfosFrameAt(i: Infos, i': Infos, x: Addr)
    requires InfosFrame(i, i') && x in i
    ensures x in i' && i'[x] == i[x]
  {}
}
