/** The passive part of the allocator's state: chunks, their queues, memory words and mapped regions,
    with the invariant that every step of every thread keeps. */
module Matters {
  import opened SizeClass
  import opened Bump
  import opened Chunks
  import opened Carving
  import opened Lanes
  import opened SizeTables
  import opened MmapManagers
  import opened Stocks
  import opened Donations

  /** `poolN` heaps for each of `coreN` cores; the batch table; the page size. */
  datatype Config = Config(coreN: nat, poolN: nat, table: Table, page: nat)

  ghost predicate ConfigOk(c: Config) {
    c.coreN > 0 && TableOk(c.table, c.page) && c.page % 16 == 0
  }

  datatype Matter = Matter(stock: Stock, infos: Infos, words: Words, bump: Bump)

  predicate ValidSlot(c: Config, s: Slot) { s.core < c.coreN && s.i < c.poolN }

  /** The queue managers that exist. */
  predicate ValidId(c: Config, id: QueueId) {
    match id
    case Mal(s) => ValidSlot(c, s)
    case FreeList(s, k) => ValidSlot(c, s) && k < c.coreN
    case Pool(k) => k < c.coreN
  }

  /** Chunks that are out are unlinked. */
  ghost predicate Unlinked(w: Words, places: Places) {
    forall a :: a in places && places[a].Out? ==> Next(w, a) == 0
  }

  ghost predicate Whole(w: Words, infos: Infos) {
    forall a :: a in infos ==> InfoOk(a, infos[a]) && HeaderOk(w, a, infos[a])
  }

  /** Chunks are of existing cores and of classes that the table serves; queued ones are in existing queues. */
  ghost predicate Situated(c: Config, places: Places, infos: Infos) {
    && (forall a :: a in infos ==> infos[a].core < c.coreN && c.table[Logarithm2(infos[a].size)] > 0)
    && (forall a :: a in places ==> !places[a].Loose? && (places[a].In? ==> ValidId(c, places[a].id)))
  }

  ghost predicate Mapped(c: Config, b: Bump) {
    BumpInv(b) && OffsetsPaged(b) && b.page == c.page && |b.arenas| == c.coreN + 1
  }

  /** The invariant of the passive state. */
  ghost predicate MatterOk(c: Config, m: Matter) {
    && Tracked(m.stock) && Homed(m.stock.places, m.infos)
    && Separated(m.infos) && Covered(m.infos, m.bump.granted)
    && Whole(m.words, m.infos) && Unlinked(m.words, m.stock.places)
    && Situated(c, m.stock.places, m.infos)
    && Mapped(c, m.bump)
  }

  /** It contains the memory invariant of the queue and heap methods. */
  lemma MatterMemory(c: Config, m: Matter)
    requires MatterOk(c, m)
    ensures MemoryOk(m.words, m.stock.places, m.infos, m.bump.granted)
  {
    hide Tracked, Separated, Covered, InfoOk, HeaderOk, Mapped, Situated, Logarithm2;
  }

  // ---------------------------------------------------------------- writes

  lemma TouchesKeepsWhole(w: Words, w': Words, places: Places, infos: Infos, ids: set<QueueId>, written: set<Addr>)
    requires Touches(w, w', places, infos, ids, written) && Whole(w, infos)
    ensures Whole(w', infos)
  {
    forall a | a in infos ensures InfoOk(a, infos[a]) && HeaderOk(w', a, infos[a]) {
      assert HeaderOk(w, a, infos[a]);
    }
  }

  // ---------------------------------------------------------------- steps keep the invariant

  /** A change of stock and words only. */
  lemma StockChange(c: Config, m: Matter, st': Stock, w': Words, ids: set<QueueId>, written: set<Addr>)
    requires MatterOk(c, m) && Tracked(st') && Homed(st'.places, m.infos) && Situated(c, st'.places, m.infos)
    requires Touches(m.words, w', m.stock.places, m.infos, ids, written) && Unlinked(w', st'.places)
    ensures MatterOk(c, m.(stock := st', words := w'))
  {
    hide Tracked, Homed, Situated, Separated, Covered, Whole, Unlinked, Mapped, Touches;
    TouchesKeepsWhole(m.words, w', m.stock.places, m.infos, ids, written);
  }

  lemma TakeLaneSituated(c: Config, st: Stock, infos: Infos, slot: Slot, k: nat, r: Attempt)
    requires Situated(c, st.places, infos) && ValidSlot(c, slot) && k < CLASSES
    ensures Situated(c, TakeLane(st, slot, k, r).places, infos)
  {
    hide SetLane, Logarithm2;
  }

  lemma PutBackSituated(c: Config, st: Stock, infos: Infos, id: QueueId, k: nat, x: Addr)
    requires Situated(c, st.places, infos) && ValidId(c, id) && k < CLASSES
    ensures Situated(c, PutBack(st, id, k, x).places, infos)
  {
    hide PutClass, Logarithm2;
  }

  lemma MoveAllSituated(c: Config, st: Stock, infos: Infos, from: QueueId, to: QueueId)
    requires Situated(c, st.places, infos) && ValidId(c, to)
    ensures Situated(c, MoveAll(st, from, to).places, infos)
  {
    hide Logarithm2;
  }

  lemma {:induction false} DonateSituated(c: Config, st: Stock, infos: Infos, busy: set<Slot>, slot: Slot, k: nat)
    requires Situated(c, st.places, infos) && k <= c.coreN
    ensures Situated(c, Donate(st, busy, slot, c.poolN, k).places, infos)
    decreases k
  {
    hide Situated, MoveAll;
    if k > 0 {
      DonateSituated(c, st, infos, busy, slot, k - 1);
      var i := Heir(busy, slot, c.poolN, k - 1);
      if i < c.poolN {
        MoveAllSituated(c, Donate(st, busy, slot, c.poolN, k - 1), infos, FreeList(slot, k - 1), Mal(Slot(k - 1, i)));
      }
    }
  }

  /** An attempt that does not carve. */
  ghost predicate IsStage(l: Lane, r: Attempt) { exists n :: r == LocalStage(l) || r == RefillStage(l, n) }

  lemma StagesAre(l: Lane, n: nat)
    ensures IsStage(l, LocalStage(l)) && IsStage(l, RefillStage(l, n))
  {
    assert RefillStage(l, n) == RefillStage(l, n);
  }

  /** A stage that finds a chunk, or none, without carving. */
  lemma StageKeepsStock(c: Config, m: Matter, slot: Slot, k: nat, r: Attempt)
    requires MatterOk(c, m) && ValidSlot(c, slot) && k < CLASSES
    requires IsStage(LaneOf(m.stock.qs, slot, k), r)
    ensures var st' := TakeLane(m.stock, slot, k, r);
            Tracked(st') && Homed(st'.places, m.infos) && Situated(c, st'.places, m.infos)
  {
    hide Tracked, Homed, Situated, Separated, Covered, Whole, Unlinked, Mapped, TakeLane, LaneOf, Rearranged,
      LocalStage, RefillStage;
    var l := LaneOf(m.stock.qs, slot, k);
    var n :| r == LocalStage(l) || r == RefillStage(l, n);
    LaneTracked(m.stock, slot, k);
    StagesRearrange(l, n);
    TakeLaneTracked(m.stock, slot, k, r, []);
    TakeLaneHomed(m.stock, m.infos, slot, k, r, []);
    TakeLaneSituated(c, m.stock, m.infos, slot, k, r);
  }

  /** The memory after a carve: the stock with its new chunks before any is queued. */
  lemma CarveLayout(c: Config, m: Matter, infos': Infos, b': Bump, arena: nat, core: nat, size: nat, n: nat,
                    p: nat, region: nat, s: seq<Addr>)
    requires ConfigOk(c) && MatterOk(c, m) && 0 < size < TWO_64 && core < c.coreN && arena <= c.coreN
    requires n == c.table[Logarithm2(size)]
    requires CarveEffect(m.infos, m.bump, infos', b', arena, core, size, n, p, region, s)
    ensures Separated(infos') && Covered(infos', b'.granted) && Mapped(c, b')
    ensures forall a :: a in s ==>
              InfoOk(a, infos'[a]) && infos'[a].core == core && Logarithm2(infos'[a].size) == Logarithm2(size)
    ensures forall a :: a in m.infos ==> a in infos' && infos'[a] == m.infos[a]
  {
    hide Tracked, Homed, Situated, Separated, Covered, Whole, Unlinked, Logarithm2, TotalSize, MmapSize, ChunkInfo,
      Headers, NoWrap, RangeEffect, BumpInv, OffsetsPaged, TableOk, NewRange, BodySize, NoDup;
    var total, mmapSize, info := TotalSize(size), MmapSize(TotalSize(size), n, c.page), ChunkInfo(core, size);
    TableServes(c.table, c.page, size);
    CarveSizes(core, size, n, c.page);
    ChunkInfoFacts(core, size);
    var g := Grant(arena, Range(p, mmapSize));
    RangeEffectGrant(m.bump, b', arena, mmapSize, p, region);
    RangeEffectMapped(c, m.bump, b', arena, mmapSize, p, region);
    NewSeparated(m.infos, m.bump.granted, g.range, total, n, info);
    CoveredMore(m.infos, NewInfos(s, info), m.bump.granted, g);
    if n > 0 {
      HeadersWhole(p, total, info, n);
    }
  }

  lemma HeadersWhole(p: nat, total: nat, info: Info, n: nat)
    requires p > 0 && p % 16 == 0 && total % 16 == 0 && info.size == Pow2(Logarithm2(info.size))
    ensures forall a :: a in Headers(p, total, n) ==> InfoOk(a, info)
  {
    hide Pow2, Logarithm2;
    forall a | a in Headers(p, total, n) ensures InfoOk(a, info) {
      var k :| 0 <= k < n && a == At(p, total, k);
      AtAligned(p, total, k);
    }
  }

  lemma RangeEffectMapped(c: Config, b: Bump, b': Bump, arena: nat, mmapSize: nat, p: nat, region: nat)
    requires Mapped(c, b) && RangeEffect(b, b', arena, mmapSize, p, region) && mmapSize % c.page == 0
    requires c.page % 16 == 0
    ensures Mapped(c, b') && (mmapSize > 0 ==> p > 0 && p % 16 == 0)
  {
    hide BumpInv, OffsetsPaged, FreshRegion, Fits, Request;
    GrantFacts(b, arena, mmapSize, region);
  }

  /** The stock after a carve: the new chunks join `malloc_` and one may be handed out. */
  function CarvedStock(st: Stock, slot: Slot, k: nat, s: seq<Addr>): Stock
    requires k < CLASSES
  {
    TakeLane(Arrive(st, s), slot, k, CarveStage(LaneOf(st.qs, slot, k), s))
  }

  lemma CarveKeepsStock(c: Config, st: Stock, infos: Infos, infos': Infos, slot: Slot, k: nat, s: seq<Addr>)
    requires Tracked(st) && Homed(st.places, infos) && Situated(c, st.places, infos) && ValidSlot(c, slot)
    requires k < CLASSES
    requires NoDup(s) && infos'.Keys == infos.Keys + Elements(s)
    requires forall a :: a in s ==> a !in infos && infos'[a].core == slot.core && Logarithm2(infos'[a].size) == k
    requires forall a :: a in infos ==> infos'[a] == infos[a]
    requires s != [] ==> c.table[k] > 0
    ensures var st' := CarvedStock(st, slot, k, s);
            Tracked(st') && Homed(st'.places, infos') && Situated(c, st'.places, infos')
  {
    hide Tracked, TakeLane, LaneOf, Rearranged, CarveStage, Logarithm2, NoDup;
    var l, st1 := LaneOf(st.qs, slot, k), Arrive(st, s);
    var r := CarveStage(l, s);
    assert LaneOf(st1.qs, slot, k) == l by { LaneOfArrive(st, s, slot, k); }
    LaneTracked(st, slot, k);
    CarveRearranges(l, s);
    ArriveTracked(st, s);
    ArriveHomed(st, infos, infos', s);
    TakeLaneTracked(st1, slot, k, r, s);
    TakeLaneHomed(st1, infos', slot, k, r, s);
    CarvedSituated(c, st, infos, infos', slot, k, s, r);
  }

  lemma LaneOfArrive(st: Stock, s: seq<Addr>, slot: Slot, k: nat)
    requires k < CLASSES
    ensures LaneOf(Arrive(st, s).qs, slot, k) == LaneOf(st.qs, slot, k)
  {}

  lemma ArriveHomed(st: Stock, infos: Infos, infos': Infos, s: seq<Addr>)
    requires Homed(st.places, infos) && infos'.Keys == infos.Keys + Elements(s)
    requires forall a :: a in infos ==> infos'[a] == infos[a]
    requires forall a :: a in s ==> a !in infos
    ensures Homed(Arrive(st, s).places, infos')
  {
    hide Logarithm2;
  }

  lemma CarvedSituated(c: Config, st: Stock, infos: Infos, infos': Infos, slot: Slot, k: nat, s: seq<Addr>, r: Attempt)
    requires Situated(c, st.places, infos) && ValidSlot(c, slot) && k < CLASSES
    requires infos'.Keys == infos.Keys + Elements(s) && (forall a :: a in infos ==> infos'[a] == infos[a])
    requires forall a :: a in s ==> infos'[a].core == slot.core && Logarithm2(infos'[a].size) == k && c.table[k] > 0
    requires Rearranged(LaneOf(st.qs, slot, k), s, r)
    ensures Situated(c, TakeLane(Arrive(st, s), slot, k, r).places, infos')
  {
    RearrangedSame(LaneOf(st.qs, slot, k), s, r);
    FlatParts(r.lane, r.got);
    FlatExtra(LaneOf(st.qs, slot, k), s);
    hide SetLane, Logarithm2, LaneOf, Flat, Rearranged, NoDup;
  }

  /** A carve keeps the invariant, given that the headers it wrote are whole and no known word was harmed. */
  lemma CarveKeeps(c: Config, m: Matter, m': Matter, arena: nat, slot: Slot, size: nat, p: nat, region: nat,
                   s: seq<Addr>, ids: set<QueueId>, written: set<Addr>)
    requires ConfigOk(c) && MatterOk(c, m) && 0 < size < TWO_64 && ValidSlot(c, slot) && arena <= c.coreN
    requires CarveEffect(m.infos, m.bump, m'.infos, m'.bump, arena, slot.core, size, c.table[Logarithm2(size)], p,
                         region, s)
    requires m'.stock == CarvedStock(m.stock, slot, Logarithm2(size), s)
    requires Touches(m.words, m'.words, m.stock.places, m.infos, ids, written)
    requires forall a :: a in s ==> HeaderOk(m'.words, a, m'.infos[a])
    requires Unlinked(m'.words, m'.stock.places)
    ensures MatterOk(c, m')
  {
    var k, n := Logarithm2(size), c.table[Logarithm2(size)];
    hide Tracked, Homed, Situated, Separated, Covered, Unlinked, Mapped, Touches, CarvedStock, Logarithm2, InfoOk,
      HeaderOk, TotalSize, MmapSize, ChunkInfo, RangeEffect, Headers, NoDup, TableOk;
    CarveLayout(c, m, m'.infos, m'.bump, arena, slot.core, size, n, p, region, s);
    TouchesKeepsWhole(m.words, m'.words, m.stock.places, m.infos, ids, written);
    InfoKeys(m.infos, s, ChunkInfo(slot.core, size));
    HomedKeys(m.stock.places, m.infos);
    CarveKeepsStock(c, m.stock, m.infos, m'.infos, slot, k, s);
    WholeAfterCarve(m'.words, m.infos, m'.infos, s);
  }

  lemma HomedKeys(places: Places, infos: Infos)
    requires Homed(places, infos)
    ensures places.Keys == infos.Keys
  {}

  lemma InfoKeys(infos: Infos, s: seq<Addr>, info: Info)
    ensures (infos + NewInfos(s, info)).Keys == infos.Keys + Elements(s)
  {}

  lemma WholeAfterCarve(w: Words, infos: Infos, infos': Infos, s: seq<Addr>)
    requires Whole(w, infos) && infos'.Keys == infos.Keys + Elements(s)
    requires forall a :: a in infos ==> infos'[a] == infos[a]
    requires forall a :: a in s ==> InfoOk(a, infos'[a]) && HeaderOk(w, a, infos'[a])
    ensures Whole(w, infos')
  {
    hide InfoOk, HeaderOk;
  }

  // ---------------------------------------------------------------- live chunks

  /** A stage makes exactly the chunk it hands out live. */
  lemma TakeLaneLive(st: Stock, slot: Slot, k: nat, r: Attempt, extra: seq<Addr>)
    requires Tracked(st) && k < CLASSES && Rearranged(LaneOf(st.qs, slot, k), extra, r)
    requires forall a :: a in extra ==> a in st.places && st.places[a].Loose?
    ensures LiveSet(TakeLane(st, slot, k, r).places) == LiveSet(st.places) + Elements(r.got)
    ensures forall a :: a in r.got ==> a !in LiveSet(st.places)
  {
    LaneTracked(st, slot, k);
    RearrangedSame(LaneOf(st.qs, slot, k), extra, r);
    FlatExtra(LaneOf(st.qs, slot, k), extra);
    FlatParts(r.lane, r.got);
    hide Flat, Rearranged, NoDup, Tracked, SetLane, LaneOf;
  }

  lemma StageLive(m: Matter, c: Config, slot: Slot, k: nat, r: Attempt)
    requires MatterOk(c, m) && k < CLASSES
    requires IsStage(LaneOf(m.stock.qs, slot, k), r)
    ensures LiveSet(TakeLane(m.stock, slot, k, r).places) == LiveSet(m.stock.places) + Elements(r.got)
    ensures forall a :: a in r.got ==> a !in LiveSet(m.stock.places)
    ensures |r.got| <= 1
  {
    hide Tracked, Homed, Situated, Separated, Covered, Whole, Unlinked, Mapped, TakeLane, LaneOf, Rearranged, LiveSet,
      LocalStage, RefillStage;
    var l := LaneOf(m.stock.qs, slot, k);
    var n :| r == LocalStage(l) || r == RefillStage(l, n);
    LaneTracked(m.stock, slot, k);
    StagesRearrange(l, n);
    OneGot(l, n);
    TakeLaneLive(m.stock, slot, k, r, []);
  }

  lemma OneGot(l: Lane, n: nat)
    ensures |LocalStage(l).got| <= 1 && |RefillStage(l, n).got| <= 1
  {}

  lemma CarvedLive(st: Stock, infos: Infos, slot: Slot, k: nat, s: seq<Addr>)
    requires Tracked(st) && Homed(st.places, infos) && k < CLASSES && NoDup(s) && forall a :: a in s ==> a !in infos
    ensures LiveSet(CarvedStock(st, slot, k, s).places)
            == LiveSet(st.places) + Elements(CarveStage(LaneOf(st.qs, slot, k), s).got)
    ensures |CarveStage(LaneOf(st.qs, slot, k), s).got| <= 1
    ensures forall a :: a in CarveStage(LaneOf(st.qs, slot, k), s).got ==> a !in LiveSet(st.places)
  {
    var l, st1 := LaneOf(st.qs, slot, k), Arrive(st, s);
    LaneTracked(st, slot, k);
    HomedKeys(st.places, infos);
    ArriveTracked(st, s);
    LaneOfArrive(st, s, slot, k);
    hide Tracked, LaneOf, Rearranged, NoDup, TakeLane, Homed;
    CarveRearranges(l, s);
    ArriveLive(st, s);
    TakeLaneLive(st1, slot, k, CarveStage(l, s), s);
  }

  lemma ArriveLive(st: Stock, s: seq<Addr>)
    requires forall a :: a in s ==> a !in st.places
    ensures LiveSet(Arrive(st, s).places) == LiveSet(st.places)
    ensures forall a :: a in s ==> a in Arrive(st, s).places && Arrive(st, s).places[a].Loose?
  {}
}
