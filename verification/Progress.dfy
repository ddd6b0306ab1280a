/** No call gets stuck: in every state that satisfies the invariant, a thread in the middle of a call has a next
    step, whatever the other threads have done. */
module Progress {
  import opened SizeClass
  import opened Bump
  import Arenas = Bump
  import opened Chunks
  import opened Carving
  import opened Lanes
  import opened LocalHeaps
  import opened SizeTables
  import opened Stocks
  import opened Donations
  import opened Matters
  import opened Protocol
  import opened Invariants
  import opened Safety
  import opened Effects

  // ---------------------------------------------------------------- words that can be written

  /** The words after a carving loop. */
  ghost function CarvedWords(w: Words, p: nat, total: nat, numCores: nat, info: Info, n: nat): Words {
    if n == 0 then w
    else
      var v := WithHeader(CarvedWords(w, p, total, numCores, info, n - 1), At(p, total, n - 1), numCores, info.core,
                          info.size);
      if n == 1 then v else v[At(p, total, n - 2) + OFF_NEXT := At(p, total, n - 1)]
  }

  lemma {:induction false} CarvedWordsOk(w: Words, p: nat, total: nat, numCores: nat, info: Info, n: nat)
    requires total >= HEADER
    ensures var w' := CarvedWords(w, p, total, numCores, info, n);
            Carved(w', p, total, info, n) && SameOutside(w, w', p, At(p, total, n))
    decreases n
  {
    hide Carved, SameOutside, WithHeader, HeaderOk;
    AtNext(p, total, 0);
    if n == 0 {
      CarvedNone(w, p, total, info);
    } else {
      CarvedWordsOk(w, p, total, numCores, info, n - 1);
      var u := CarvedWords(w, p, total, numCores, info, n - 1);
      var v := WithHeader(u, At(p, total, n - 1), numCores, info.core, info.size);
      var w' := CarvedWords(w, p, total, numCores, info, n);
      WithHeaderEffect(u, At(p, total, n - 1), numCores, info.core, info.size);
      CarveStep(u, v, w', p, total, info, n - 1);
      CarveStepOutside(w, u, v, w', p, total, n - 1);
    }
  }

  /** The words after a copy of `n` bytes. */
  ghost function CopiedWords(w: Words, dst: nat, src: nat, n: nat): Words {
    if n == 0 then w
    else
      var v := CopiedWords(w, dst, src, n - 1);
      v[dst + (n - 1) := Cell(v, src, n - 1)]
  }

  lemma {:induction false} CopiedWordsOk(w: Words, dst: nat, src: nat, i: nat, n: nat)
    requires i <= n && (dst + n <= src || src + n <= dst)
    ensures Copied(w, CopiedWords(w, dst, src, i), dst, src, i)
    decreases i
  {
    hide Copied;
    if i == 0 {
      CopiedNone(w, dst, src);
    } else {
      CopiedWordsOk(w, dst, src, i - 1, n);
      CopyByte(w, CopiedWords(w, dst, src, i - 1), dst, src, i - 1, n);
    }
  }

  // ---------------------------------------------------------------- a block can be delivered

  /** The words after block `y` has been unlinked and, for a reallocation, filled. */
  ghost function Filled(w: Words, infos: Infos, moving: seq<Addr>, y: Addr): Words
    requires moving != [] ==> moving[0] in infos
  {
    var w2 := w[y + OFF_NEXT := 0];
    if moving == [] then w2 else CopiedWords(w2, y + HEADER, moving[0] + HEADER, infos[moving[0]].size)
  }

  /** Of known chunks, unlinking and filling `y` changes its next word and its body. */
  lemma FilledEffect(w: Words, infos: Infos, moving: seq<Addr>, y: Addr)
    requires Separated(infos) && y in infos
    requires moving != [] ==> moving[0] in infos && moving[0] != y && infos[moving[0]].size <= infos[y].size
    ensures var w' := Filled(w, infos, moving, y);
            && OnlyFilled(w, w', infos, moving, y) && Next(w', y) == 0
            && (moving != [] ==> SameContents(w, moving[0], w', y, infos[moving[0]].size))
  {
    var w2 := w[y + OFF_NEXT := 0];
    WriteNext(w, infos, y, 0);
    if moving != [] {
      var x := moving[0];
      var size: nat := infos[x].size;
      assert Apart(infos, x, y);
      CopiedWordsOk(w2, y + HEADER, x + HEADER, size, size);
      FilledBody(w, w2, Filled(w, infos, moving, y), infos, x, y);
    }
  }

  lemma FilledBody(w: Words, w2: Words, w': Words, infos: Infos, x: Addr, y: Addr)
    requires Separated(infos) && x in infos && y in infos && x != y && infos[x].size <= infos[y].size
    requires NextSet(w, w2, infos, y, 0) && Copied(w2, w', y + HEADER, x + HEADER, infos[x].size)
    ensures BodyWritten(w2, w', infos, y)
    ensures SameContents(w, x, w', y, infos[x].size)
  {
    WriteInsideBody(w2, w', infos, y);
    CopiedContents(w2, w', x, y, infos[x].size);
    hide Separated, BodyWritten, Copied;
    forall off | HEADER <= off < HEADER + infos[x].size ensures Field(w2, x, off) == Field(w, x, off) {}
    SameContentsTransitive(w, x, w2, x, w', y, infos[x].size);
  }

  /** Block `y`, live from now on, can be unlinked and filled with nothing else changed. `w1` are the words after a
      carve, if there was one, and `st` and `infos` the stock and chunks after the request found `y`. */
  lemma Deliverable(c: Config, m: Matter, w1: Words, st: Stock, infos: Infos, slot: Slot, moving: seq<Addr>, y: Addr,
                    ids: set<QueueId>)
    requires MatterOk(c, m) && InfosFrame(m.infos, infos) && Separated(infos) && SameKnown(m.words, w1, m.infos)
    requires y in infos && (y in m.infos ==> Movable(m.stock.places, ids, y)) && |moving| <= 1
    requires forall a :: a in LiveSet(st.places) ==> a == y || a in LiveSet(m.stock.places)
    requires moving != [] ==> moving[0] in m.infos && moving[0] != y && infos[moving[0]].size <= infos[y].size
    ensures moving != [] ==> moving[0] in infos
    ensures Delivered(m, Filled(w1, infos, moving, y), st, infos, slot, moving, y, ids)
    ensures forall a :: a in infos && HeaderOk(w1, a, infos[a]) ==> HeaderOk(Filled(w1, infos, moving, y), a, infos[a])
  {
    UnlinkedParts(c, m);
    HomedKeysOf(c, m);
    hide MatterOk, Filled, Separated, SameContents;
    var w' := Filled(w1, infos, moving, y);
    FilledEffect(w1, infos, moving, y);
    FilledTouches(m, w1, w', infos, moving, y,
                  ids + (if moving == [] then {} else {FreeList(slot, infos[moving[0]].core)}), if moving == [] then {}
                  else {y});
    FilledUnlinked(m, w1, w', st, infos, moving, y);
    if moving != [] { FilledSource(m, w1, infos, moving[0]); }
    FilledHeaders(w1, w', infos, moving, y);
    hide Unlinked, Touches, LiveSet;
  }

  ghost predicate OnlyFilled(w: Words, w': Words, infos: Infos, moving: seq<Addr>, y: Addr) {
    forall a, o {:trigger Field(w', a, o)} ::
      a in infos && 0 <= o < HEADER + infos[a].size && !(a == y && (o == OFF_NEXT || (o >= HEADER && moving != []))) ==>
        Field(w', a, o) == Field(w, a, o)
  }

  lemma FilledTouches(m: Matter, w1: Words, w': Words, infos: Infos, moving: seq<Addr>, y: Addr, ids: set<QueueId>,
                      written: set<Addr>)
    requires InfosFrame(m.infos, infos) && SameKnown(m.words, w1, m.infos) && OnlyFilled(w1, w', infos, moving, y)
    requires y in m.infos ==> Movable(m.stock.places, ids, y)
    requires moving != [] ==> y in written
    ensures Touches(m.words, w', m.stock.places, m.infos, ids, written)
  {
    hide Movable;
    forall x, off {:trigger Field(w', x, off)} |
      x in m.infos && 0 <= off < HEADER + m.infos[x].size
      && !(off == OFF_NEXT && Movable(m.stock.places, ids, x)) && !(x in written && off >= HEADER)
      ensures Field(w', x, off) == Field(m.words, x, off)
    {
      assert Field(w1, x, off) == Field(m.words, x, off);
    }
  }

  lemma FilledUnlinked(m: Matter, w1: Words, w': Words, st: Stock, infos: Infos, moving: seq<Addr>, y: Addr)
    requires InfosFrame(m.infos, infos) && SameKnown(m.words, w1, m.infos) && OnlyFilled(w1, w', infos, moving, y)
    requires Next(w', y) == 0 && Unlinked(m.words, m.stock.places) && m.stock.places.Keys == m.infos.Keys
    requires forall a :: a in LiveSet(st.places) ==> a == y || a in LiveSet(m.stock.places)
    ensures Unlinked(w', st.places)
  {
    forall a | a in st.places && st.places[a].Out? ensures Next(w', a) == 0 {
      assert a in LiveSet(st.places);
      if a != y {
        assert Field(w1, a, OFF_NEXT) == Field(m.words, a, OFF_NEXT);
        assert Field(w', a, OFF_NEXT) == Field(w1, a, OFF_NEXT);
      }
    }
  }

  lemma FilledSource(m: Matter, w1: Words, infos: Infos, x: Addr)
    requires InfosFrame(m.infos, infos) && SameKnown(m.words, w1, m.infos) && x in m.infos
    ensures x in infos && infos[x] == m.infos[x] && SameContents(m.words, x, w1, x, infos[x].size)
  {
    forall off | HEADER <= off < HEADER + m.infos[x].size ensures Field(w1, x, off) == Field(m.words, x, off) {}
    SameBodySameContents(m.words, w1, x, m.infos[x].size);
  }

  lemma FilledHeaders(w1: Words, w': Words, infos: Infos, moving: seq<Addr>, y: Addr)
    requires OnlyFilled(w1, w', infos, moving, y)
    ensures forall a :: a in infos && HeaderOk(w1, a, infos[a]) ==> HeaderOk(w', a, infos[a])
  {}

  // ---------------------------------------------------------------- looks

  /** What a stage hands out comes from the queues it works on. */
  lemma StageSources(l: Lane, n: nat)
    ensures forall y :: y in LocalStage(l).got ==> y in l.mal || y in l.own
    ensures forall y :: y in RefillStage(l, n).got ==> y in l.mal || y in l.pool
  {}

  lemma LaneMovable(st: Stock, slot: Slot, k: nat, y: Addr)
    requires Tracked(st) && k < CLASSES
    ensures var l := LaneOf(st.qs, slot, k);
            && (y in l.mal || y in l.own ==> Movable(st.places, OwnIds(slot), y))
            && (y in l.mal || y in l.pool ==> Movable(st.places, PoolIds(slot), y))
  {
    assert Housed(st.places, Mal(slot), Q(st.qs, Mal(slot)));
    assert Housed(st.places, FreeList(slot, slot.core), Q(st.qs, FreeList(slot, slot.core)));
    assert Housed(st.places, Pool(slot.core), Q(st.qs, Pool(slot.core)));
    assert Placed(st.places, In(Mal(slot), k), Q(st.qs, Mal(slot))[k]);
    assert Placed(st.places, In(FreeList(slot, slot.core), k), Q(st.qs, FreeList(slot, slot.core))[k]);
    assert Placed(st.places, In(Pool(slot.core), k), Q(st.qs, Pool(slot.core))[k]);
    hide Tracked, Q;
  }

  lemma UnlinkedSame(w: Words, places: Places, places': Places)
    requires Unlinked(w, places) && LiveSet(places') == LiveSet(places)
    ensures Unlinked(w, places')
  {
    forall a | a in places' && places'[a].Out? ensures Next(w, a) == 0 {
      assert a in LiveSet(places');
    }
  }

  /** A look can always be made. */
  lemma CanLook(c: Config, s: State, t: Tid, slot: Slot, size: nat, moving: seq<Addr>, r: Attempt, on: Phase,
                ids: set<QueueId>)
    returns (s': State)
    requires MatterOk(c, s.matter) && ValidSlot(c, slot) && size < TWO_64 && |moving| <= 1
    requires moving != [] ==> moving[0] in s.matter.infos && moving[0] in LiveSet(s.matter.stock.places)
    requires moving != [] ==> s.matter.infos[moving[0]].size < size
    requires IsStage(LaneOf(s.matter.stock.qs, slot, Logarithm2(size)), r)
    requires forall y :: y in r.got ==> Movable(s.matter.stock.places, ids, y)
    ensures Look(s, s', t, slot, size, moving, r, on, ids)
  {
    hide *;
    var m, k := s.matter, Logarithm2(size);
    var st := TakeLane(m.stock, slot, k, r);
    UnlinkedParts(c, m);
    MatterParts(c, m);
    StageLive(m, c, slot, k, r);
    if r.got == [] {
      s' := s.(matter := m.(stock := st), phases := s.phases[t := on]);
      NoElementsIn(r.got);
      UnlinkedSame(m.words, m.stock.places, st.places);
      TouchesNothing(m.words, m.stock.places, m.infos, ids, {});
      LookNothing(s, s', t, slot, size, moving, r, on, ids);
    } else {
      var y := r.got[0];
      StageClass(m.stock, m.infos, slot, k, r, y);
      OfClassRoom(c, m, y, slot.core, size);
      SameInfos(m.infos);
      SeparatedOf(c, m);
      SameKnownSelf(m.words, m.infos);
      GotOne(r.got);
      Deliverable(c, m, m.words, st, m.infos, slot, moving, y, ids);
      var f := Finish(s, t, slot, moving, st, m.infos);
      s' := f.(matter := f.matter.(words := Filled(m.words, m.infos, moving, y)));
      LookSomething(s, s', t, slot, size, moving, r, on, ids);
    }
  }

  lemma NoElementsIn(s: seq<Addr>)
    ensures s == [] ==> Elements(s) == {}
  {}

  lemma GotOne(got: seq<Addr>)
    requires got != [] && |got| <= 1
    ensures got[0] in got && forall a :: a in Elements(got) ==> a == got[0]
  {}

  lemma SameKnownSelf(w: Words, infos: Infos)
    ensures SameKnown(w, w, infos)
  {}

  lemma SeparatedOf(c: Config, m: Matter)
    requires MatterOk(c, m)
    ensures Separated(m.infos)
  {
    hide Tracked, Homed, Separated, Covered, Whole, Unlinked, Situated, Mapped;
  }

  lemma OfClassRoom(c: Config, m: Matter, y: Addr, core: nat, size: nat)
    requires MatterOk(c, m) && size < TWO_64 && OfClass(m.infos, y, core, Logarithm2(size))
    ensures y in m.infos && size <= m.infos[y].size
  {
    hide MatterOk, Logarithm2;
    ClassRoom(c, m, y, size);
  }

  lemma LookNothing(s: State, s': State, t: Tid, slot: Slot, size: nat, moving: seq<Addr>, r: Attempt, on: Phase,
                    ids: set<QueueId>)
    requires size < TWO_64 && (moving != [] ==> moving[0] in s.matter.infos) && r.got == []
    requires var m := s.matter;
             var st := TakeLane(m.stock, slot, Logarithm2(size), r);
             && s' == s.(matter := m.(stock := st), phases := s.phases[t := on])
             && Touches(m.words, m.words, m.stock.places, m.infos, ids, {}) && Unlinked(m.words, st.places)
    ensures Look(s, s', t, slot, size, moving, r, on, ids)
  {
    hide Touches, Unlinked, TakeLane, Logarithm2;
  }

  lemma LookSomething(s: State, s': State, t: Tid, slot: Slot, size: nat, moving: seq<Addr>, r: Attempt, on: Phase,
                      ids: set<QueueId>)
    requires size < TWO_64 && (moving != [] ==> moving[0] in s.matter.infos) && r.got != []
    requires var m := s.matter;
             var st := TakeLane(m.stock, slot, Logarithm2(size), r);
             var f := Finish(s, t, slot, moving, st, m.infos);
             && s' == f.(matter := f.matter.(words := s'.matter.words))
             && Delivered(m, s'.matter.words, st, m.infos, slot, moving, r.got[0], ids)
    ensures Look(s, s', t, slot, size, moving, r, on, ids)
  {
    hide Touches, Unlinked, TakeLane, Logarithm2, Delivered, Finish;
  }

  // ---------------------------------------------------------------- carves

  /** The end of the highest mapped region. */
  function TopOf(mapped: seq<Range>): (top: nat)
    ensures forall r :: r in mapped ==> r.base + r.size <= top
  {
    if mapped == [] then 0
    else
      var rest := TopOf(mapped[..|mapped| - 1]);
      var r := mapped[|mapped| - 1];
      assert mapped == mapped[..|mapped| - 1] + [r];
      if r.base + r.size >= rest then r.base + r.size else rest
  }

  /** There is always an address for a fresh region. */
  lemma FreshExists(b: Bump, size: nat) returns (region: nat)
    requires b.page > 0
    ensures FreshRegion(b, Range(region, size))
  {
    var top := TopOf(b.mapped);
    region := (top + 1) * b.page;
    assert region >= top + 1 by { TopScaled(top + 1, b.page); }
    MultipleMod(top + 1, b.page);
  }

  lemma TopScaled(n: nat, page: nat)
    requires page > 0
    ensures n * page >= n
  {}

  /** A request to the mapped-memory manager can always be served. */
  lemma CanRequest(c: Config, b: Bump, arena: nat, mmapSize: nat) returns (b': Bump, p: nat, region: nat)
    requires Mapped(c, b) && arena < |b.arenas| && mmapSize % c.page == 0 && c.page % 16 == 0
    ensures RangeEffect(b, b', arena, mmapSize, p, region) && (mmapSize > 0 ==> p > 0 && p % 16 == 0)
  {
    hide BumpInv, OffsetsPaged, FreshRegion, NewRange, ExtensionSize;
    PagePositive(b);
    region := FreshExists(b, ExtensionSize(b.page, mmapSize));
    GrantFacts(b, arena, mmapSize, region);
    b' := Arenas.Request(b, arena, mmapSize, region);
    p := b'.granted[|b.granted|].range.base;
    LastGrant(b, arena, mmapSize, region);
  }

  lemma PagePositive(b: Bump)
    requires BumpInv(b)
    ensures b.page > 0
  {}

  lemma LastGrant(b: Bump, arena: nat, size: nat, region: nat)
    requires arena < |b.arenas| && b.page > 0
    ensures var b' := Arenas.Request(b, arena, size, region);
            |b'.granted| == |b.granted| + 1 && b'.granted[|b.granted|].slot == arena
              && b'.granted[|b.granted|].range.size == size
  {}

  /** The state of chunks and words after a carve that nobody has used yet. */
  lemma CanCarve(c: Config, m: Matter, arena: nat, core: nat, size: nat)
    returns (b': Bump, p: nat, region: nat, w1: Words)
    requires ConfigOk(c) && MatterOk(c, m) && 0 < size < TWO_64 && core < c.coreN && arena <= c.coreN
    ensures var n := c.table[Logarithm2(size)];
            var sq := Headers(p, TotalSize(size), n);
            var infos' := m.infos + NewInfos(sq, ChunkInfo(core, size));
            && CarveEffect(m.infos, m.bump, infos', b', arena, core, size, n, p, region, sq)
            && Separated(infos') && SameKnown(m.words, w1, m.infos)
            && (forall a :: a in sq ==> HeaderOk(w1, a, infos'[a]))
            && (forall y :: y in sq ==> size <= infos'[y].size)
  {
    hide *;
    var n := c.table[Logarithm2(size)];
    var total, info := TotalSize(size), ChunkInfo(core, size);
    ConfigParts(c, m);
    TableServes(c.table, c.page, size);
    CarveSizes(core, size, n, c.page);
    ChunkInfoFacts(core, size);
    RoomFor(size, n);
    var mmapSize := MmapSize(total, n, c.page);
    b', p, region := CanRequest(c, m.bump, arena, mmapSize);
    w1 := CarvedWords(m.words, p, total, c.coreN, info, n);
    CarvedWordsOk(m.words, p, total, c.coreN, info, n);
    MatterMemory(c, m);
    SameKnownSelf(m.words, m.infos);
    var sq := Headers(p, total, n);
    CarveDone(m.words, m.words, w1, m.stock.places, m.infos, m.bump, b', arena, mmapSize, p, region, total, n, info);
    var infos' := m.infos + NewInfos(sq, info);
    CarvedParts(w1, m.stock.places + NewPlaces(sq), infos', b'.granted);
    NewInfosAre(m.infos, sq, info);
    MulCommutes(total, n);
    CarveIs(m.infos, m.bump, b', arena, core, size, n, p, region);
  }

  lemma MulCommutes(a: nat, b: nat)
    ensures a * b == b * a
  {}

  lemma NewInfosAre(infos: Infos, s: seq<Addr>, info: Info)
    ensures forall a :: a in s ==> a in infos + NewInfos(s, info) && (infos + NewInfos(s, info))[a] == info
  {}

  lemma CarvedParts(w: Words, places: Places, infos: Infos, grants: seq<Grant>)
    requires MemoryOk(w, places, infos, grants)
    ensures Separated(infos) && forall a :: a in infos ==> HeaderOk(w, a, infos[a])
  {
    hide Separated, Covered, HeaderOk, InfoOk, PlacesOk;
  }

  lemma ConfigParts(c: Config, m: Matter)
    requires ConfigOk(c) && MatterOk(c, m)
    ensures c.coreN > 0 && TableOk(c.table, c.page) && c.page % 16 == 0 && 0 < c.page < TWO_64
    ensures Mapped(c, m.bump) && m.bump.page == c.page && |m.bump.arenas| == c.coreN + 1
  {
    hide Tracked, Homed, Separated, Covered, Whole, Unlinked, Situated, BumpInv, OffsetsPaged, NoWrap, TotalSize, Pow2;
  }

  lemma RoomFor(size: nat, n: nat)
    requires size < TWO_64 && (n > 0 ==> size <= TWO_62)
    ensures n > 0 ==> size <= BodySize(size)
  {
    BodyFits(size);
    hide BodySize;
  }

  lemma CarveIs(infos: Infos, b: Bump, b': Bump, arena: nat, core: nat, size: nat, n: nat, p: nat, region: nat)
    requires size < TWO_64 && arena < |b.arenas| && b.page > 0
    requires var sq := Headers(p, TotalSize(size), n);
             && RangeEffect(b, b', arena, MmapSize(TotalSize(size), n, b.page), p, region)
             && TotalSize(size) * n <= MmapSize(TotalSize(size), n, b.page)
             && NoDup(sq) && |sq| == n && (forall a :: a in sq ==> a !in infos)
    ensures var sq := Headers(p, TotalSize(size), n);
            CarveEffect(infos, b, infos + NewInfos(sq, ChunkInfo(core, size)), b', arena, core, size, n, p, region, sq)
  {
    hide RangeEffect, TotalSize, MmapSize, NoDup, Headers, ChunkInfo;
  }

  /** A carve for a request that found nothing else can always be made. */
  lemma CanMap(c: Config, main: Tid, s: State, t: Tid, slot: Slot, size: nat, moving: seq<Addr>)
    returns (p: nat, region: nat, s': State)
    requires ConfigOk(c) && MatterOk(c, s.matter) && ValidSlot(c, slot) && 0 < size < TWO_64 && |moving| <= 1
    requires moving != [] ==> moving[0] in s.matter.infos && moving[0] in LiveSet(s.matter.stock.places)
    requires moving != [] ==> s.matter.infos[moving[0]].size < size
    requires LaneOf(s.matter.stock.qs, slot, Logarithm2(size)).mal == []
    ensures MapStep(c, main, s, s', t, slot, size, moving, p, region)
  {
    hide *;
    var m, k := s.matter, Logarithm2(size);
    var arena := if t == main then c.coreN else slot.core;
    SlotCore(c, slot);
    UnlinkedParts(c, m);
    HomedKeysOf(c, m);
    MatterParts(c, m);
    var b', w1;
    b', p, region, w1 := CanCarve(c, m, arena, slot.core, size);
    var sq := Headers(p, TotalSize(size), c.table[k]);
    var l := LaneOf(m.stock.qs, slot, k);
    var r := CarveStage(l, sq);
    var st := CarvedStock(m.stock, slot, k, sq);
    var infos' := m.infos + NewInfos(sq, ChunkInfo(slot.core, size));
    CarveParts(m.infos, m.bump, infos', b', arena, slot.core, size, c.table[k], p, region, sq);
    CarvedLive(m.stock, m.infos, slot, k, sq);
    GotCarved(l, sq);
    NewInfosAre(m.infos, sq, ChunkInfo(slot.core, size));
    var from := s.(matter := m.(infos := infos', bump := b'));
    if r.got == [] {
      s' := from.(matter := from.matter.(stock := st, words := w1), phases := s.phases[t := Ready(slot)]);
      NoElementsIn(r.got);
      QuietCarve(m, w1, st);
      MapNothing(c, main, s, s', t, slot, size, moving, p, region);
    } else {
      var y := r.got[0];
      GotOne(r.got);
      Grown(m.infos, infos');
      Deliverable(c, m, w1, st, infos', slot, moving, y, {Mal(slot)});
      var f := Finish(from, t, slot, moving, st, infos');
      s' := f.(matter := f.matter.(words := Filled(w1, infos', moving, y)));
      FinishInfos(from, t, slot, moving, st, infos');
      MapSomething(c, main, s, s', t, slot, size, moving, p, region);
    }
  }

  lemma SlotCore(c: Config, slot: Slot)
    requires ValidSlot(c, slot)
    ensures slot.core < c.coreN
  {}

  lemma Grown(infos: Infos, infos': Infos)
    requires forall x :: x in infos ==> x in infos' && infos'[x] == infos[x]
    ensures InfosFrame(infos, infos')
  {}

  lemma FinishInfos(s: State, t: Tid, slot: Slot, moving: seq<Addr>, st: Stock, infos: Infos)
    requires moving != [] ==> moving[0] in infos
    ensures var f := Finish(s, t, slot, moving, st, infos);
            f.matter.infos == s.matter.infos && f.matter.bump == s.matter.bump
  {
    hide Logarithm2, PutBack;
  }

  /** With nothing else in the list, what a carve hands out is new. */
  lemma GotCarved(l: Lane, s: seq<Addr>)
    requires l.mal == []
    ensures forall y :: y in CarveStage(l, s).got ==> y in s
  {}

  lemma QuietCarve(m: Matter, w1: Words, st: Stock)
    requires SameKnown(m.words, w1, m.infos) && Unlinked(m.words, m.stock.places)
    requires m.stock.places.Keys == m.infos.Keys
    requires forall a :: a in LiveSet(st.places) ==> a in LiveSet(m.stock.places)
    ensures Touches(m.words, w1, m.stock.places, m.infos, {}, {}) && Unlinked(w1, st.places)
  {
    forall a | a in st.places && st.places[a].Out? ensures Next(w1, a) == 0 {
      assert a in LiveSet(st.places);
      assert Field(w1, a, OFF_NEXT) == Field(m.words, a, OFF_NEXT);
    }
  }

  lemma MapNothing(c: Config, main: Tid, s: State, s': State, t: Tid, slot: Slot, size: nat, moving: seq<Addr>, p: nat,
                   region: nat)
    requires size < TWO_64 && (moving != [] ==> moving[0] in s.matter.infos)
    requires var k, m, m' := Logarithm2(size), s.matter, s'.matter;
             var sq := Headers(p, TotalSize(size), c.table[k]);
             var st := CarvedStock(m.stock, slot, k, sq);
             && CarveStage(LaneOf(m.stock.qs, slot, k), sq).got == []
             && CarveEffect(m.infos, m.bump, m'.infos, m'.bump, if t == main then c.coreN else slot.core,
                            slot.core, size, c.table[k], p, region, sq)
             && (forall a :: a in sq ==> a in m'.infos && HeaderOk(m'.words, a, m'.infos[a]))
             && s' == s.(matter := m.(infos := m'.infos, bump := m'.bump, stock := st, words := m'.words),
                         phases := s.phases[t := Ready(slot)])
             && Touches(m.words, m'.words, m.stock.places, m.infos, {}, {}) && Unlinked(m'.words, st.places)
    ensures MapStep(c, main, s, s', t, slot, size, moving, p, region)
  {
    hide Touches, Unlinked, CarvedStock, Logarithm2, CarveStage, Headers, TotalSize, LaneOf, CarveEffect, HeaderOk,
      Finish, Delivered;
  }

  lemma MapSomething(c: Config, main: Tid, s: State, s': State, t: Tid, slot: Slot, size: nat, moving: seq<Addr>,
                     p: nat, region: nat)
    requires size < TWO_64 && (moving != [] ==> moving[0] in s.matter.infos && moving[0] in s'.matter.infos)
    requires var k, m, m' := Logarithm2(size), s.matter, s'.matter;
             var sq := Headers(p, TotalSize(size), c.table[k]);
             var st := CarvedStock(m.stock, slot, k, sq);
             var r := CarveStage(LaneOf(m.stock.qs, slot, k), sq);
             && r.got != []
             && CarveEffect(m.infos, m.bump, m'.infos, m'.bump, if t == main then c.coreN else slot.core,
                            slot.core, size, c.table[k], p, region, sq)
             && (forall a :: a in sq ==> a in m'.infos && HeaderOk(m'.words, a, m'.infos[a]))
             && var f := Finish(s.(matter := m.(infos := m'.infos, bump := m'.bump)), t, slot, moving, st, m'.infos);
                && s' == f.(matter := f.matter.(words := m'.words))
                && Delivered(m, m'.words, st, m'.infos, slot, moving, r.got[0], {Mal(slot)})
    ensures MapStep(c, main, s, s', t, slot, size, moving, p, region)
  {
    hide Touches, Unlinked, CarvedStock, Logarithm2, CarveStage, Headers, TotalSize, LaneOf, CarveEffect, HeaderOk,
      Finish, Delivered;
  }

  // ---------------------------------------------------------------- every call goes on

  lemma RequestGoesOn(c: Config, main: Tid, s: State, t: Tid, slot: Slot, size: nat) returns (s': State)
    requires Inv(c, s) && PhaseOf(s, t) == Ready(slot) && 0 < size < TWO_64
    ensures Step(c, main, s, t, Request(size), s')
  {
    hide *;
    var l := LaneOf(s.matter.stock.qs, slot, Logarithm2(size));
    ReadyPhase(c, s, t, slot);
    MatterParts(c, s.matter);
    StagesAre(l, 0);
    StageSources(l, 0);
    forall y | y in LocalStage(l).got ensures Movable(s.matter.stock.places, OwnIds(slot), y) {
      LaneMovable(s.matter.stock, slot, Logarithm2(size), y);
    }
    s' := CanLook(c, s, t, slot, size, [], LocalStage(l), Refilling(slot, size, []), OwnIds(slot));
    RequestIsStep(c, main, s, t, slot, size, s');
  }

  lemma ResizeGoesOn(c: Config, main: Tid, s: State, t: Tid, slot: Slot, x: Addr, size: nat) returns (s': State)
    requires Inv(c, s) && PhaseOf(s, t) == Ready(slot) && size < TWO_64 && Live(s, x) && !Claimed(s, x)
    ensures Step(c, main, s, t, Resize(x, size), s')
  {
    hide *;
    LiveBlock(c, s, x);
    if size <= s.matter.infos[x].size {
      s' := s;
      FittingIsStep(c, main, s, t, slot, x, size);
    } else {
      var l := LaneOf(s.matter.stock.qs, slot, Logarithm2(size));
      ReadyPhase(c, s, t, slot);
      MatterParts(c, s.matter);
      StagesAre(l, 0);
      StageSources(l, 0);
      forall y | y in LocalStage(l).got ensures Movable(s.matter.stock.places, OwnIds(slot), y) {
        LaneMovable(s.matter.stock, slot, Logarithm2(size), y);
      }
      s' := CanLook(c, s, t, slot, size, [x], LocalStage(l), Refilling(slot, size, [x]), OwnIds(slot));
      ResizeIsStep(c, main, s, t, slot, x, size, s');
    }
  }

  lemma LiveBlock(c: Config, s: State, x: Addr)
    requires Inv(c, s) && Live(s, x)
    ensures x in s.matter.infos && x in LiveSet(s.matter.stock.places)
  {
    InvMatter(c, s);
    MatterParts(c, s.matter);
    HomedKeys(s.matter.stock.places, s.matter.infos);
    hide Inv, MatterOk, Tracked, Homed, Situated;
  }

  lemma FittingIsStep(c: Config, main: Tid, s: State, t: Tid, slot: Slot, x: Addr, size: nat)
    requires PhaseOf(s, t) == Ready(slot) && size < TWO_64 && Live(s, x) && !Claimed(s, x)
    requires x in s.matter.infos && size <= s.matter.infos[x].size
    ensures Step(c, main, s, t, Resize(x, size), s)
  {
    hide Claimed, Live, PhaseOf, Look;
  }

  lemma ResizeIsStep(c: Config, main: Tid, s: State, t: Tid, slot: Slot, x: Addr, size: nat, s': State)
    requires PhaseOf(s, t) == Ready(slot) && size < TWO_64 && Live(s, x) && !Claimed(s, x)
    requires x in s.matter.infos && size > s.matter.infos[x].size
    requires Look(s, s', t, slot, size, [x], LocalStage(LaneOf(s.matter.stock.qs, slot, Logarithm2(size))),
                  Refilling(slot, size, [x]), OwnIds(slot))
    ensures Step(c, main, s, t, Resize(x, size), s')
  {
    hide Look, LaneOf, LocalStage, Logarithm2, OwnIds, PhaseOf, Claimed, Live;
  }

  lemma ReleaseGoesOn(c: Config, main: Tid, s: State, t: Tid, slot: Slot, x: Addr) returns (s': State)
    requires Inv(c, s) && PhaseOf(s, t) == Ready(slot) && Live(s, x) && !Claimed(s, x)
    ensures Step(c, main, s, t, Release(x), s')
  {
    hide *;
    LiveBlock(c, s, x);
    InvMatter(c, s);
    UnlinkedParts(c, s.matter);
    var k := ClassOf(s.matter, x);
    var st := PutBack(s.matter.stock, HomeList(s.matter, slot, x), k, x);
    QuietShift(s.matter, slot, x);
    ShiftMore(s.matter, s.matter.(stock := st), st, {HomeList(s.matter, slot, x)});
    var flush := FlushDue(t == main, CountsOf(s.counts, t), k, c.table[k]);
    s' := s.(matter := s.matter.(stock := st),
             phases := s.phases[t := if flush then Flushing(slot, 0) else Ready(slot)],
             counts := s.counts[t := CountRelease(t == main, CountsOf(s.counts, t), k, c.table[k])]);
    ReleaseIsStep(c, main, s, t, slot, x, s');
  }

  lemma ReleaseIsStep(c: Config, main: Tid, s: State, t: Tid, slot: Slot, x: Addr, s': State)
    requires PhaseOf(s, t) == Ready(slot) && Live(s, x) && !Claimed(s, x) && x in s.matter.infos
    requires var m, k := s.matter, ClassOf(s.matter, x);
             var flush := FlushDue(t == main, CountsOf(s.counts, t), k, c.table[k]);
             && s' == s.(matter := s'.matter,
                         phases := s.phases[t := if flush then Flushing(slot, 0) else Ready(slot)],
                         counts := s.counts[t := CountRelease(t == main, CountsOf(s.counts, t), k, c.table[k])])
             && Shift(m, s'.matter, PutBack(m.stock, HomeList(m, slot, x), k, x), {HomeList(m, slot, x)})
    ensures Step(c, main, s, t, Release(x), s')
  {
    hide Shift, PutBack, PhaseOf, ClassOf, Claimed, Live, FlushDue, CountRelease, CountsOf;
  }

  lemma AcquireGoesOn(c: Config, main: Tid, s: State, t: Tid, core: nat) returns (i: nat, s': State)
    requires PhaseOf(s, t) == Unborn && core < c.coreN
    ensures Step(c, main, s, t, Acquire(core, i), s')
  {
    hide PhaseOf;
    if j :| 0 <= j < c.poolN && Slot(core, j) !in s.busy {
      i := j;
      s' := s.(phases := s.phases[t := Ready(Slot(core, i))], busy := s.busy + {Slot(core, i)});
    } else {
      i := c.poolN;
      s' := s.(phases := s.phases[t := Detached]);
    }
  }

  lemma BorrowIsStep(c: Config, main: Tid, s: State, t: Tid, x: Addr, i: nat)
    requires PhaseOf(s, t) == Detached && Live(s, x) && !Claimed(s, x) && x in s.matter.infos && i < c.poolN
    requires Slot(s.matter.infos[x].core, i) !in s.busy
    ensures Step(c, main, s, t, Borrow(x, i), s.(phases := s.phases[t := Borrowing(Slot(s.matter.infos[x].core, i), x)],
                                                busy := s.busy + {Slot(s.matter.infos[x].core, i)}))
  {
    hide PhaseOf, Claimed, Live;
  }

  lemma RequestIsStep(c: Config, main: Tid, s: State, t: Tid, slot: Slot, size: nat, s': State)
    requires PhaseOf(s, t) == Ready(slot) && 0 < size < TWO_64
    requires Look(s, s', t, slot, size, [], LocalStage(LaneOf(s.matter.stock.qs, slot, Logarithm2(size))),
                  Refilling(slot, size, []), OwnIds(slot))
    ensures Step(c, main, s, t, Request(size), s')
  {
    hide Look, LaneOf, LocalStage, Logarithm2, OwnIds, PhaseOf;
  }

  lemma RefillGoesOn(c: Config, main: Tid, s: State, t: Tid, slot: Slot, size: nat, moving: seq<Addr>)
    returns (s': State)
    requires Inv(c, s) && PhaseOf(s, t) == Refilling(slot, size, moving)
    ensures Step(c, main, s, t, Refill, s')
  {
    hide *;
    RequestPhase(c, s, t);
    var k, l := Logarithm2(size), LaneOf(s.matter.stock.qs, slot, Logarithm2(size));
    InvMatter(c, s);
    MatterParts(c, s.matter);
    MovingSmall(s, size, moving);
    StagesAre(l, c.table[k]);
    StageSources(l, c.table[k]);
    forall y | y in RefillStage(l, c.table[k]).got ensures Movable(s.matter.stock.places, PoolIds(slot), y) {
      LaneMovable(s.matter.stock, slot, k, y);
    }
    s' := CanLook(c, s, t, slot, size, moving, RefillStage(l, c.table[k]), Mapping(slot, size, moving), PoolIds(slot));
    RefillIsStep(c, main, s, t, slot, size, moving, s');
  }

  lemma MovingSmall(s: State, size: nat, moving: seq<Addr>)
    requires MovingOk(s, size, moving)
    ensures moving != [] ==> moving[0] in s.matter.infos && s.matter.infos[moving[0]].size < size
  {}

  lemma RefillIsStep(c: Config, main: Tid, s: State, t: Tid, slot: Slot, size: nat, moving: seq<Addr>, s': State)
    requires PhaseOf(s, t) == Refilling(slot, size, moving) && size < TWO_64
             && (moving != [] ==> moving[0] in s.matter.infos)
    requires var k := Logarithm2(size);
             Look(s, s', t, slot, size, moving, RefillStage(LaneOf(s.matter.stock.qs, slot, k), c.table[k]),
                  Mapping(slot, size, moving), PoolIds(slot))
    ensures Step(c, main, s, t, Refill, s')
  {
    hide Look, LaneOf, RefillStage, Logarithm2, PoolIds, PhaseOf;
  }

  lemma MapGoesOn(c: Config, main: Tid, s: State, t: Tid, slot: Slot, size: nat, moving: seq<Addr>)
    returns (p: nat, region: nat, s': State)
    requires ConfigOk(c) && Inv(c, s) && PhaseOf(s, t) == Mapping(slot, size, moving)
    ensures Step(c, main, s, t, Map(p, region), s')
  {
    hide *;
    RequestPhase(c, s, t);
    InvMatter(c, s);
    MovingSmall(s, size, moving);
    p, region, s' := CanMap(c, main, s, t, slot, size, moving);
    MapIsStep(c, main, s, t, slot, size, moving, p, region, s');
  }

  lemma MapIsStep(c: Config, main: Tid, s: State, t: Tid, slot: Slot, size: nat, moving: seq<Addr>, p: nat, region: nat,
                  s': State)
    requires PhaseOf(s, t) == Mapping(slot, size, moving) && size < TWO_64
             && (moving != [] ==> moving[0] in s.matter.infos)
    requires MapStep(c, main, s, s', t, slot, size, moving, p, region)
    ensures Step(c, main, s, t, Map(p, region), s')
  {
    hide MapStep, PhaseOf;
  }

  /** A stock change that keeps the live set needs no write. */
  lemma QuietStep(c: Config, m: Matter, st: Stock, ids: set<QueueId>)
    requires MatterOk(c, m) && LiveSet(st.places) == LiveSet(m.stock.places)
    ensures Shift(m, m.(stock := st), st, ids)
  {
    UnlinkedParts(c, m);
    hide MatterOk, LiveSet, Touches, Unlinked;
    UnlinkedSame(m.words, m.stock.places, st.places);
    TouchesNothing(m.words, m.stock.places, m.infos, ids, {});
  }

  lemma FlushGoesOn(c: Config, main: Tid, s: State, t: Tid, slot: Slot, k: nat) returns (s': State)
    requires Inv(c, s) && PhaseOf(s, t) == Flushing(slot, k)
    ensures Step(c, main, s, t, Flush, s')
  {
    InvMatter(c, s);
    OwnPhase(c, s, t);
    var m, st := s.matter, MoveAll(s.matter.stock, FreeList(slot, k), Pool(k));
    MoveAllLive(m.stock, FreeList(slot, k), Pool(k));
    hide MatterOk, Inv, PhaseOf, Shift, MoveAll, LiveSet;
    QuietStep(c, m, st, {FreeList(slot, k), Pool(k)});
    s' := s.(matter := if k == slot.core then m else m.(stock := st),
             phases := s.phases[t := if k + 1 == c.coreN then Ready(slot) else Flushing(slot, k + 1)]);
  }

  lemma GiveBackGoesOn(c: Config, s: State, t: Tid, slot: Slot) returns (s': State)
    requires Inv(c, s)
    ensures GiveBack(c, s, s', t, slot)
  {
    InvMatter(c, s);
    MatterParts(c, s.matter);
    DonateTracked(s.matter.stock, s.matter.infos, s.busy, slot, c.poolN, c.coreN);
    hide MatterOk, Inv, PhaseOf, Shift, Donate, LiveSet, ExitIds, Tracked, Homed, Situated;
    var st := Donate(s.matter.stock, s.busy, slot, c.poolN, c.coreN);
    QuietStep(c, s.matter, st, ExitIds(c, s, slot));
    s' := s.(matter := s.matter.(stock := st), phases := s.phases[t := Detached], busy := s.busy - {slot});
  }

  lemma DepositGoesOn(c: Config, main: Tid, s: State, t: Tid, slot: Slot, x: Addr) returns (s': State)
    requires Inv(c, s) && PhaseOf(s, t) == Borrowing(slot, x)
    ensures Step(c, main, s, t, Deposit, s')
  {
    hide *;
    DepositIsLive(c, s, t);
    InvMatter(c, s);
    UnlinkedParts(c, s.matter);
    var st := PutBack(s.matter.stock, HomeList(s.matter, slot, x), ClassOf(s.matter, x), x);
    QuietShift(s.matter, slot, x);
    s' := s.(matter := s.matter.(stock := st), phases := s.phases[t := Returning(slot)]);
    ShiftMore(s.matter, s.matter.(stock := st), st, {HomeList(s.matter, slot, x)});
    DepositIsStep(c, main, s, t, slot, x, s');
  }

  lemma ShiftMore(m: Matter, m': Matter, st: Stock, ids: set<QueueId>)
    requires Shift(m, m', st, {})
    ensures Shift(m, m', st, ids)
  {
    hide Touches, Unlinked;
    TouchesWider(m.words, m'.words, m.stock.places, m.infos, {}, {}, ids, {});
  }

  lemma DepositIsStep(c: Config, main: Tid, s: State, t: Tid, slot: Slot, x: Addr, s': State)
    requires PhaseOf(s, t) == Borrowing(slot, x) && x in s.matter.infos
    requires s' == s.(matter := s'.matter, phases := s.phases[t := Returning(slot)])
    requires var m := s.matter;
             Shift(m, s'.matter, PutBack(m.stock, HomeList(m, slot, x), ClassOf(m, x), x), {HomeList(m, slot, x)})
    ensures Step(c, main, s, t, Deposit, s')
  {
    hide Shift, PutBack, PhaseOf, Logarithm2;
  }

  lemma GiveBackIsStep(c: Config, main: Tid, s: State, t: Tid, slot: Slot, s': State)
    requires GiveBack(c, s, s', t, slot)
    ensures PhaseOf(s, t) == Ready(slot) ==> Step(c, main, s, t, Exit, s')
    ensures PhaseOf(s, t) == Returning(slot) ==> Step(c, main, s, t, Return, s')
  {
    hide GiveBack, PhaseOf;
  }

  /** In every state that satisfies the invariant a thread can start every call it may make: its first call, a request
      of any size, the release or reallocation of a live block that no other call has been passed, the release of such a
      block without a heap of its own if a heap of the block's core is idle, and its end. */
  lemma CallsStart(c: Config, main: Tid, s: State, t: Tid, core: nat, size: nat, x: Addr, i: nat)
    requires ConfigOk(c) && Inv(c, s)
    ensures PhaseOf(s, t).Unborn? && core < c.coreN ==> exists j, s' :: Step(c, main, s, t, Acquire(core, j), s')
    ensures PhaseOf(s, t).Ready? && 0 < size < TWO_64 ==> exists s' :: Step(c, main, s, t, Request(size), s')
    ensures PhaseOf(s, t).Ready? && Live(s, x) && !Claimed(s, x) ==> exists s' :: Step(c, main, s, t, Release(x), s')
    ensures PhaseOf(s, t).Ready? && Live(s, x) && !Claimed(s, x) && size < TWO_64 ==>
              exists s' :: Step(c, main, s, t, Resize(x, size), s')
    ensures PhaseOf(s, t).Detached? && Live(s, x) && !Claimed(s, x) && i < c.poolN && x in s.matter.infos
            && Slot(s.matter.infos[x].core, i) !in s.busy ==>
              exists s' :: Step(c, main, s, t, Borrow(x, i), s')
    ensures PhaseOf(s, t).Ready? ==> exists s' :: Step(c, main, s, t, Exit, s')
  {
    hide *;
    match PhaseOf(s, t)
    case Unborn =>
      if core < c.coreN { var j, s1 := AcquireGoesOn(c, main, s, t, core); }
    case Ready(slot) =>
      if 0 < size < TWO_64 { var s1 := RequestGoesOn(c, main, s, t, slot, size); }
      if Live(s, x) && !Claimed(s, x) {
        var s2 := ReleaseGoesOn(c, main, s, t, slot, x);
        if size < TWO_64 { var s3 := ResizeGoesOn(c, main, s, t, slot, x, size); }
      }
      var s4 := GiveBackGoesOn(c, s, t, slot);
      GiveBackIsStep(c, main, s, t, slot, s4);
    case Detached =>
      if Live(s, x) && !Claimed(s, x) && i < c.poolN && x in s.matter.infos
        && Slot(s.matter.infos[x].core, i) !in s.busy {
        BorrowIsStep(c, main, s, t, x, i);
      }
    case _ =>
  }

  /** And a thread in the middle of a call can take the next step of that call. No call ever waits for another
      thread. */
  lemma CallsGoOn(c: Config, main: Tid, s: State, t: Tid)
    requires ConfigOk(c) && Inv(c, s)
    ensures PhaseOf(s, t).Refilling? ==> exists s' :: Step(c, main, s, t, Refill, s')
    ensures PhaseOf(s, t).Mapping? ==> exists p, region, s' :: Step(c, main, s, t, Map(p, region), s')
    ensures PhaseOf(s, t).Flushing? ==> exists s' :: Step(c, main, s, t, Flush, s')
    ensures PhaseOf(s, t).Borrowing? ==> exists s' :: Step(c, main, s, t, Deposit, s')
    ensures PhaseOf(s, t).Returning? ==> exists s' :: Step(c, main, s, t, Return, s')
  {
    hide *;
    match PhaseOf(s, t)
    case Refilling(slot, n, moving) => var s1 := RefillGoesOn(c, main, s, t, slot, n, moving);
    case Mapping(slot, n, moving) => var p, region, s1 := MapGoesOn(c, main, s, t, slot, n, moving);
    case Flushing(slot, k) => var s1 := FlushGoesOn(c, main, s, t, slot, k);
    case Borrowing(slot, x) => var s1 := DepositGoesOn(c, main, s, t, slot, x);
    case Returning(slot) =>
      var s1 := GiveBackGoesOn(c, s, t, slot);
      GiveBackIsStep(c, main, s, t, slot, s1);
    case _ =>
  }
}
