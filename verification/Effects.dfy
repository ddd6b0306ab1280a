/** What one step may touch, and what it does to the set of live blocks. */
module Effects {
  import opened SizeClass
  import opened Bump
  import opened Chunks
  import opened Carving
  import opened Lanes
  import opened SizeTables
  import opened Stocks
  import opened Donations
  import opened Matters
  import opened Protocol
  import opened Invariants
  import opened Safety

  // ---------------------------------------------------------------- the queues a step works on

  /** The list that the old block of a reallocation goes to. */
  ghost function MovingList(m: Matter, slot: Slot, moving: seq<Addr>): set<QueueId> {
    if moving != [] && moving[0] in m.infos then {HomeList(m, slot, moving[0])} else {}
  }

  /** The queue managers that action `a` of thread `t` works on. */
  ghost function Grip(c: Config, s: State, t: Tid, a: Action): set<QueueId> {
    var ph, m := PhaseOf(s, t), s.matter;
    match a
    case Request(_) => if ph.Ready? then OwnIds(ph.slot) else {}
    case Resize(x, _) => if ph.Ready? then OwnIds(ph.slot) + MovingList(m, ph.slot, [x]) else {}
    case Refill => if ph.Refilling? then PoolIds(ph.slot) + MovingList(m, ph.slot, ph.moving) else {}
    case Map(_, _) => if ph.Mapping? then {Mal(ph.slot)} + MovingList(m, ph.slot, ph.moving) else {}
    case Release(x) => if ph.Ready? then MovingList(m, ph.slot, [x]) else {}
    case Deposit => if ph.Borrowing? then MovingList(m, ph.slot, [ph.chunk]) else {}
    case Flush => if ph.Flushing? then {FreeList(ph.slot, ph.next), Pool(ph.next)} else {}
    case Exit => if ph.Ready? then ExitIds(c, s, ph.slot) else {}
    case Return => if ph.Returning? then ExitIds(c, s, ph.slot) else {}
    case _ => {}
  }

  /** Blocks that a step makes live. */
  function Fresh(s: State, s': State): set<Addr> { LiveSet(s'.matter.stock.places) - LiveSet(s.matter.stock.places) }

  /** Blocks that a step makes no longer live. */
  function Gone(s: State, s': State): set<Addr> { LiveSet(s.matter.stock.places) - LiveSet(s'.matter.stock.places) }

  /** The bodies a step may write. */
  function Written(s: State, a: Action, s': State): set<Addr> {
    if a.Write? then {a.x} else Fresh(s, s')
  }

  /** Other queues keep their chunks, in order, and their links; of known chunks only the bodies of `written` change. */
  ghost predicate Confined(m: Matter, m': Matter, ids: set<QueueId>, written: set<Addr>) {
    && (forall id :: id !in ids ==> Q(m'.stock.qs, id) == Q(m.stock.qs, id))
    && Touches(m.words, m'.words, m.stock.places, m.infos, ids, written)
  }

  lemma TouchesWider(w: Words, w': Words, places: Places, infos: Infos, ids: set<QueueId>, written: set<Addr>,
                     more: set<QueueId>, further: set<Addr>)
    requires Touches(w, w', places, infos, ids, written) && ids <= more && written <= further
    ensures Touches(w, w', places, infos, more, further)
  {}

  lemma TouchesNothing(w: Words, places: Places, infos: Infos, ids: set<QueueId>, written: set<Addr>)
    ensures Touches(w, w, places, infos, ids, written)
  {}

  // ---------------------------------------------------------------- each kind of step

  lemma TakeLaneElsewhere(st: Stock, slot: Slot, k: nat, r: Attempt, ids: set<QueueId>)
    requires k < CLASSES && Mal(slot) in ids
    requires var l := LaneOf(st.qs, slot, k);
             && (FreeList(slot, slot.core) in ids || r.lane.own == l.own)
             && (Pool(slot.core) in ids || r.lane.pool == l.pool)
    ensures forall id :: id !in ids ==> Q(TakeLane(st, slot, k, r).qs, id) == Q(st.qs, id)
  {
    forall id | id !in ids ensures Q(TakeLane(st, slot, k, r).qs, id) == Q(st.qs, id) {
      SetLaneReads(st.qs, slot, k, r.lane, id);
    }
  }

  lemma FinishElsewhere(s: State, t: Tid, slot: Slot, moving: seq<Addr>, st: Stock, infos: Infos, id: QueueId)
    requires |moving| <= 1 && (moving != [] ==> moving[0] in infos)
    requires moving != [] ==> id != FreeList(slot, infos[moving[0]].core)
    ensures Q(Finish(s, t, slot, moving, st, infos).matter.stock.qs, id) == Q(st.qs, id)
  {
    hide Logarithm2;
  }

  lemma LookConfined(c: Config, s: State, s': State, t: Tid, slot: Slot, size: nat, moving: seq<Addr>, r: Attempt,
                     on: Phase, ids: set<QueueId>)
    requires size < TWO_64 && |moving| <= 1 && (moving != [] ==> moving[0] in s.matter.infos)
    requires Mal(slot) in ids
    requires var l := LaneOf(s.matter.stock.qs, slot, Logarithm2(size));
             && (FreeList(slot, slot.core) in ids || r.lane.own == l.own)
             && (Pool(slot.core) in ids || r.lane.pool == l.pool)
    requires Look(s, s', t, slot, size, moving, r, on, ids)
    requires r.got != [] ==> r.got[0] in Fresh(s, s')
    ensures Confined(s.matter, s'.matter, ids + MovingList(s.matter, slot, moving), Fresh(s, s'))
  {
    var m, w' := s.matter, s'.matter.words;
    var st := TakeLane(m.stock, slot, Logarithm2(size), r);
    TakeLaneElsewhere(m.stock, slot, Logarithm2(size), r, ids);
    hide Touches, Unlinked, TakeLane, LaneOf, Logarithm2, Fresh, Finish, Q, SameContents;
    if r.got == [] {
      TouchesWider(m.words, w', m.stock.places, m.infos, ids, {}, ids + MovingList(m, slot, moving), Fresh(s, s'));
    } else {
      forall id | id !in ids + MovingList(m, slot, moving) ensures Q(s'.matter.stock.qs, id) == Q(m.stock.qs, id) {
        FinishElsewhere(s, t, slot, moving, st, m.infos, id);
      }
      TouchesWider(m.words, w', m.stock.places, m.infos,
                   ids + (if moving == [] then {} else {FreeList(slot, m.infos[moving[0]].core)}),
                   if moving == [] then {} else {r.got[0]}, ids + MovingList(m, slot, moving), Fresh(s, s'));
    }
  }

  lemma MapConfined(c: Config, main: Tid, s: State, s': State, t: Tid, slot: Slot, size: nat, moving: seq<Addr>, p: nat,
                    region: nat)
    requires size < TWO_64 && |moving| <= 1 && (moving != [] ==> moving[0] in s.matter.infos)
    requires MapStep(c, main, s, s', t, slot, size, moving, p, region)
    requires InfosFrame(s.matter.infos, s'.matter.infos)
    requires var k := Logarithm2(size);
             var r := CarveStage(LaneOf(s.matter.stock.qs, slot, k), Headers(p, TotalSize(size), c.table[k]));
             r.got != [] ==> r.got[0] in Fresh(s, s')
    ensures Confined(s.matter, s'.matter, {Mal(slot)} + MovingList(s.matter, slot, moving), Fresh(s, s'))
  {
    hide *;
    var m, m', k := s.matter, s'.matter, Logarithm2(size);
    var sq := Headers(p, TotalSize(size), c.table[k]);
    var r := CarveStage(LaneOf(m.stock.qs, slot, k), sq);
    var st := CarvedStock(m.stock, slot, k, sq);
    CarvedElsewhere(m.stock, slot, k, sq);
    MapTouched(c, main, s, s', t, slot, size, moving, p, region);
    MovingIs(m, slot, moving);
    InfosFrameOf(m.infos, m'.infos, moving);
    var touched := if r.got == [] then {} else {Mal(slot)} + MovingList(m, slot, moving);
    var written := if r.got == [] || moving == [] then {} else {r.got[0]};
    forall id | id !in {Mal(slot)} + MovingList(m, slot, moving) ensures Q(m'.stock.qs, id) == Q(m.stock.qs, id) {
      if r.got != [] {
        FinishElsewhere(s.(matter := m.(infos := m'.infos, bump := m'.bump)), t, slot, moving, st, m'.infos, id);
      }
    }
    TouchesWider(m.words, m'.words, m.stock.places, m.infos, touched, written,
                 {Mal(slot)} + MovingList(m, slot, moving), Fresh(s, s'));
    FoldConfined(m, m', {Mal(slot)} + MovingList(m, slot, moving), Fresh(s, s'));
  }

  lemma MovingIs(m: Matter, slot: Slot, moving: seq<Addr>)
    requires moving != [] ==> moving[0] in m.infos
    ensures MovingList(m, slot, moving) == if moving == [] then {} else {FreeList(slot, m.infos[moving[0]].core)}
  {}

  lemma InfosFrameOf(i: Infos, i': Infos, moving: seq<Addr>)
    requires InfosFrame(i, i') && (moving != [] ==> moving[0] in i)
    ensures moving != [] ==> moving[0] in i' && i'[moving[0]] == i[moving[0]]
  {}

  lemma FoldConfined(m: Matter, m': Matter, ids: set<QueueId>, written: set<Addr>)
    requires forall id :: id !in ids ==> Q(m'.stock.qs, id) == Q(m.stock.qs, id)
    requires Touches(m.words, m'.words, m.stock.places, m.infos, ids, written)
    ensures Confined(m, m', ids, written)
  {
    hide Q, Touches;
  }

  /** The stock and the words after a carve. */
  lemma MapTouched(c: Config, main: Tid, s: State, s': State, t: Tid, slot: Slot, size: nat, moving: seq<Addr>, p: nat,
                   region: nat)
    requires size < TWO_64 && |moving| <= 1 && (moving != [] ==> moving[0] in s.matter.infos)
    requires MapStep(c, main, s, s', t, slot, size, moving, p, region) && InfosFrame(s.matter.infos, s'.matter.infos)
    ensures var m, m', k := s.matter, s'.matter, Logarithm2(size);
            var sq := Headers(p, TotalSize(size), c.table[k]);
            var r := CarveStage(LaneOf(m.stock.qs, slot, k), sq);
            var st := CarvedStock(m.stock, slot, k, sq);
            && (moving != [] ==> moving[0] in m'.infos)
            && if r.got == [] then
                 m'.stock == st && Touches(m.words, m'.words, m.stock.places, m.infos, {}, {})
               else
                 var from := s.(matter := m.(infos := m'.infos, bump := m'.bump));
                 && m'.stock == Finish(from, t, slot, moving, st, m'.infos).matter.stock
                 && Touches(m.words, m'.words, m.stock.places, m.infos, {Mal(slot)} + MovingList(m, slot, moving),
                            if moving == [] then {} else {r.got[0]})
  {
    hide Touches, Unlinked, CarvedStock, LaneOf, Logarithm2, Finish, Q, SameContents, CarveEffect, HeaderOk, Headers,
      TotalSize, CarveStage;
  }

  lemma CarvedElsewhere(st: Stock, slot: Slot, k: nat, sq: seq<Addr>)
    requires k < CLASSES
    ensures forall id :: id != Mal(slot) ==> Q(CarvedStock(st, slot, k, sq).qs, id) == Q(st.qs, id)
  {
    var l := LaneOf(st.qs, slot, k);
    LaneOfArrive(st, sq, slot, k);
    assert CarveStage(l, sq).lane.own == l.own && CarveStage(l, sq).lane.pool == l.pool;
    hide CarveStage, LaneOf, TakeLane;
    TakeLaneElsewhere(Arrive(st, sq), slot, k, CarveStage(l, sq), {Mal(slot)});
  }

  lemma ShiftConfined(m: Matter, m': Matter, st: Stock, ids: set<QueueId>, written: set<Addr>)
    requires Shift(m, m', st, ids) && forall id :: id !in ids ==> Q(st.qs, id) == Q(m.stock.qs, id)
    ensures Confined(m, m', ids, written)
  {
    hide Touches, Unlinked, Q;
    TouchesWider(m.words, m'.words, m.stock.places, m.infos, ids, {}, ids, written);
  }

  lemma PutBackElsewhere(st: Stock, id: QueueId, k: nat, x: Addr)
    requires k < CLASSES
    ensures forall j :: j != id ==> Q(PutBack(st, id, k, x).qs, j) == Q(st.qs, j)
  {}

  lemma MoveAllElsewhere(st: Stock, from: QueueId, to: QueueId)
    ensures forall j :: j !in {from, to} ==> Q(MoveAll(st, from, to).qs, j) == Q(st.qs, j)
  {}

  lemma DonateElsewhere(c: Config, s: State, slot: Slot)
    ensures forall id :: id !in ExitIds(c, s, slot) ==>
              Q(Donate(s.matter.stock, s.busy, slot, c.poolN, c.coreN).qs, id) == Q(s.matter.stock.qs, id)
  {
    forall id | id !in ExitIds(c, s, slot)
      ensures Q(Donate(s.matter.stock, s.busy, slot, c.poolN, c.coreN).qs, id) == Q(s.matter.stock.qs, id)
    {
      DonateReads(s.matter.stock, s.busy, slot, c.poolN, c.coreN, id);
      if id.Mal? {
        var h := Heir(s.busy, slot, c.poolN, id.slot.core);
        assert h < c.poolN ==> Slot(id.slot.core, h) !in s.busy;
      }
    }
  }

  // ---------------------------------------------------------------- what a request is given

  /** Chunk `y` is of core `core` and of class `k`. */
  predicate OfClass(infos: Infos, y: Addr, core: nat, k: nat) {
    y in infos && Logarithm2(infos[y].size) == k && infos[y].core == core
  }

  /** A stage serves from the request's class and the heap's core. */
  lemma StageClass(st: Stock, infos: Infos, slot: Slot, k: nat, r: Attempt, y: Addr)
    requires Tracked(st) && Homed(st.places, infos) && k < CLASSES
    requires IsStage(LaneOf(st.qs, slot, k), r) && y in r.got
    ensures OfClass(infos, y, slot.core, k)
  {
    var l := LaneOf(st.qs, slot, k);
    LaneTracked(st, slot, k);
    hide Tracked, LaneOf, Rearranged, LocalStage, RefillStage, Logarithm2, NoDup;
    var n :| r == LocalStage(l) || r == RefillStage(l, n);
    StagesRearrange(l, n);
    RearrangedSame(l, [], r);
    FlatParts(r.lane, r.got);
    hide Flat;
    assert y in Flat(l, []);
  }

  lemma CarveClass(st: Stock, infos: Infos, infos': Infos, slot: Slot, k: nat, s: seq<Addr>, y: Addr)
    requires Tracked(st) && Homed(st.places, infos) && k < CLASSES && NoDup(s) && forall a :: a in s ==> a !in infos
    requires InfosFrame(infos, infos')
    requires forall a :: a in s ==> OfClass(infos', a, slot.core, k)
    requires y in CarveStage(LaneOf(st.qs, slot, k), s).got
    ensures OfClass(infos', y, slot.core, k)
  {
    var l := LaneOf(st.qs, slot, k);
    LaneTracked(st, slot, k);
    HomedKeys(st.places, infos);
    hide Tracked, LaneOf, Rearranged, CarveStage, Logarithm2, NoDup;
    CarveRearranges(l, s);
    RearrangedSame(l, s, CarveStage(l, s));
    FlatParts(CarveStage(l, s).lane, CarveStage(l, s).got);
    FlatExtra(l, s);
    hide Flat;
    assert y in Flat(l, []) || y in s;
  }

  lemma ClassRoom(c: Config, m: Matter, y: Addr, size: nat)
    requires MatterOk(c, m) && y in m.infos && size < TWO_64 && Logarithm2(m.infos[y].size) == Logarithm2(size)
    ensures size <= m.infos[y].size
  {
    WholeAt(c, m, y);
    SizeOfClass(m.infos[y].size);
    hide *;
    ClassHasRoom(size);
  }

  lemma WholeAt(c: Config, m: Matter, y: Addr)
    requires MatterOk(c, m) && y in m.infos
    ensures InfoOk(y, m.infos[y]) && HeaderOk(m.words, y, m.infos[y])
    ensures m.infos[y].size == Pow2(Logarithm2(m.infos[y].size))
  {
    hide Tracked, Homed, Separated, Covered, Unlinked, Situated, Mapped, Pow2, Logarithm2;
  }

  /** The outcome of a look or a carve: at most one block becomes live, with room for the request and of the
      heap's core, and only then the old block of a reallocation is queued. */
  ghost predicate Handed(s: State, s': State, slot: Slot, size: nat, moving: seq<Addr>, got: seq<Addr>)
    requires size < TWO_64
  {
    && |got| <= 1 && Fresh(s, s') == Elements(got)
    && Gone(s, s') == (if got == [] then {} else Elements(moving))
    && (forall y :: y in got ==>
          OfClass(s'.matter.infos, y, slot.core, Logarithm2(size)) && size <= s'.matter.infos[y].size)
    && InfosFrame(s.matter.infos, s'.matter.infos)
  }

  lemma LookedHanded(c: Config, s: State, s': State, t: Tid, slot: Slot, size: nat, moving: seq<Addr>, got: seq<Addr>,
                     on: Phase)
    requires Looked(c, s, s', t, slot, moving, got, on) && size < TWO_64
    requires forall x :: x in moving ==> x in LiveSet(s.matter.stock.places)
    requires forall y :: y in got ==> OfClass(s'.matter.infos, y, slot.core, Logarithm2(size))
    ensures Handed(s, s', slot, size, moving, got) && (got != [] ==> got[0] in Fresh(s, s')) && |got| <= 1
  {
    hide MatterOk, SameHeap, LiveSet, Logarithm2;
    forall y | y in got ensures size <= s'.matter.infos[y].size {
      ClassRoom(c, s'.matter, y, size);
    }
    if got == [] {
      assert Elements(got) == {};
    }
  }

  /** The queues a stage leaves alone. */
  lemma StageReach(slot: Slot, l: Lane, n: nat)
    ensures Mal(slot) in OwnIds(slot) && FreeList(slot, slot.core) in OwnIds(slot) && LocalStage(l).lane.pool == l.pool
    ensures Mal(slot) in PoolIds(slot) && Pool(slot.core) in PoolIds(slot) && RefillStage(l, n).lane.own == l.own
  {}

  lemma FirstLookEffect(c: Config, s: State, t: Tid, slot: Slot, size: nat, moving: seq<Addr>, s': State)
    requires Inv(c, s) && PhaseOf(s, t) == Ready(slot) && 0 < size < TWO_64 && MovingOk(s, size, moving)
    requires forall x :: x in moving ==> x in LiveSet(s.matter.stock.places) && !Claimed(s, x)
    requires Look(s, s', t, slot, size, moving, LocalStage(LaneOf(s.matter.stock.qs, slot, Logarithm2(size))),
                  Refilling(slot, size, moving), OwnIds(slot))
    ensures Confined(s.matter, s'.matter, OwnIds(slot) + MovingList(s.matter, slot, moving), Fresh(s, s'))
    ensures Handed(s, s', slot, size, moving, LocalStage(LaneOf(s.matter.stock.qs, slot, Logarithm2(size))).got)
  {
    hide *;
    var l := LaneOf(s.matter.stock.qs, slot, Logarithm2(size));
    var r, on := LocalStage(l), Refilling(slot, size, moving);
    StageReach(slot, l, 0);
    ReadyPhase(c, s, t, slot);
    MovingAtMostOne(s, size, moving);
    StagesAre(l, 0);
    MatterParts(c, s.matter);
    LookKeeps(c, s, s', t, slot, size, moving, r, on, OwnIds(slot));
    forall y | y in r.got
      ensures OfClass(s'.matter.infos, y, slot.core, Logarithm2(size))
    {
      StageClass(s.matter.stock, s.matter.infos, slot, Logarithm2(size), r, y);
    }
    LookedHanded(c, s, s', t, slot, size, moving, r.got, on);
    LookConfined(c, s, s', t, slot, size, moving, r, on, OwnIds(slot));
  }

  lemma SecondLookEffect(c: Config, s: State, t: Tid, slot: Slot, size: nat, moving: seq<Addr>, s': State)
    requires Inv(c, s) && PhaseOf(s, t) == Refilling(slot, size, moving) && size < TWO_64
    requires moving != [] ==> moving[0] in s.matter.infos
    requires var k := Logarithm2(size);
             Look(s, s', t, slot, size, moving, RefillStage(LaneOf(s.matter.stock.qs, slot, k), c.table[k]),
                  Mapping(slot, size, moving), PoolIds(slot))
    ensures Confined(s.matter, s'.matter, PoolIds(slot) + MovingList(s.matter, slot, moving), Fresh(s, s'))
    ensures Handed(s, s', slot, size, moving,
                   RefillStage(LaneOf(s.matter.stock.qs, slot, Logarithm2(size)), c.table[Logarithm2(size)]).got)
  {
    hide *;
    var k, l := Logarithm2(size), LaneOf(s.matter.stock.qs, slot, Logarithm2(size));
    var r, on := RefillStage(l, c.table[k]), Mapping(slot, size, moving);
    StageReach(slot, l, c.table[k]);
    InvMatter(c, s);
    RequestPhase(c, s, t);
    StagesAre(l, c.table[k]);
    MatterParts(c, s.matter);
    LookKeeps(c, s, s', t, slot, size, moving, r, on, PoolIds(slot));
    forall y | y in r.got
      ensures OfClass(s'.matter.infos, y, slot.core, k)
    {
      StageClass(s.matter.stock, s.matter.infos, slot, k, r, y);
    }
    LookedHanded(c, s, s', t, slot, size, moving, r.got, on);
    LookConfined(c, s, s', t, slot, size, moving, r, on, PoolIds(slot));
  }

  lemma MapEffect(c: Config, main: Tid, s: State, t: Tid, slot: Slot, size: nat, moving: seq<Addr>, p: nat, region: nat,
                  s': State)
    requires ConfigOk(c) && Inv(c, s) && PhaseOf(s, t) == Mapping(slot, size, moving) && size < TWO_64
    requires moving != [] ==> moving[0] in s.matter.infos
    requires MapStep(c, main, s, s', t, slot, size, moving, p, region)
    ensures Confined(s.matter, s'.matter, {Mal(slot)} + MovingList(s.matter, slot, moving), Fresh(s, s'))
    ensures var k := Logarithm2(size);
            Handed(s, s', slot, size, moving,
                   CarveStage(LaneOf(s.matter.stock.qs, slot, k), Headers(p, TotalSize(size), c.table[k])).got)
  {
    hide *;
    var k := Logarithm2(size);
    var sq := Headers(p, TotalSize(size), c.table[k]);
    var r := CarveStage(LaneOf(s.matter.stock.qs, slot, k), sq);
    InvMatter(c, s);
    RequestPhase(c, s, t);
    MatterParts(c, s.matter);
    MapKeeps(c, main, s, s', t, slot, size, moving, p, region);
    MappedInfos(c, main, s, s', t, slot, size, moving, p, region);
    forall y | y in r.got
      ensures OfClass(s'.matter.infos, y, slot.core, k)
    {
      CarveClass(s.matter.stock, s.matter.infos, s'.matter.infos, slot, k, sq, y);
    }
    LookedHanded(c, s, s', t, slot, size, moving, r.got, Ready(slot));
    MapConfined(c, main, s, s', t, slot, size, moving, p, region);
  }

  /** What is recorded about carved chunks. */
  lemma MappedInfos(c: Config, main: Tid, s: State, s': State, t: Tid, slot: Slot, size: nat, moving: seq<Addr>, p: nat,
                    region: nat)
    requires ConfigOk(c) && size < TWO_64 && (moving != [] ==> moving[0] in s.matter.infos)
    requires MapStep(c, main, s, s', t, slot, size, moving, p, region)
    ensures var sq := Headers(p, TotalSize(size), c.table[Logarithm2(size)]);
            && NoDup(sq) && (forall a :: a in sq ==> a !in s.matter.infos)
               && InfosFrame(s.matter.infos, s'.matter.infos)
            && forall a :: a in sq ==> OfClass(s'.matter.infos, a, slot.core, Logarithm2(size))
  {
    hide RangeEffect, TotalSize, MmapSize, NoDup, ChunkInfo, Logarithm2, TableOk, Touches, Delivered, Finish,
      CarvedStock, CarveStage, HeaderOk, LaneOf, Unlinked;
    var sq := Headers(p, TotalSize(size), c.table[Logarithm2(size)]);
    ChunkInfoFacts(slot.core, size);
    TableServes(c.table, c.page, size);
  }

  // ---------------------------------------------------------------- every step

  /** The request a step works for: its size, and the block to move, if any. */
  datatype Order = NoOrder | Order(size: nat, moving: seq<Addr>)

  function OrderOf(s: State, t: Tid, a: Action): Order {
    var ph := PhaseOf(s, t);
    match a
    case Request(size) => Order(size, [])
    case Resize(x, size) => Order(size, [x])
    case Refill => if ph.Refilling? then Order(ph.size, ph.moving) else NoOrder
    case Map(_, _) => if ph.Mapping? then Order(ph.size, ph.moving) else NoOrder
    case _ => NoOrder
  }

  /** The block a release step queues. */
  function Given(s: State, t: Tid, a: Action): set<Addr> {
    match a
    case Release(x) => {x}
    case Deposit => if PhaseOf(s, t).Borrowing? then {PhaseOf(s, t).chunk} else {}
    case _ => {}
  }

  /** Blocks become live only by a request, one at a time and with room for it; a block stops being live only
      when it is released, or when its reallocation has got a new one. Known chunks stay what they are. */
  ghost predicate Accounted(s: State, t: Tid, a: Action, s': State) {
    && InfosFrame(s.matter.infos, s'.matter.infos)
    && |Fresh(s, s')| <= 1
    && (Fresh(s, s') != {} ==> OrderOf(s, t, a).Order?)
    && (forall y :: y in Fresh(s, s') ==> y in s'.matter.infos && OrderOf(s, t, a).size <= s'.matter.infos[y].size)
    && Gone(s, s') == Given(s, t, a) + (if Fresh(s, s') != {} then Elements(OrderOf(s, t, a).moving) else {})
  }

  ghost predicate Effect(c: Config, s: State, t: Tid, a: Action, s': State) {
    Confined(s.matter, s'.matter, Grip(c, s, t, a), Written(s, a, s')) && Accounted(s, t, a, s')
  }

  lemma HandedAccounted(c: Config, s: State, t: Tid, a: Action, s': State, slot: Slot, size: nat, moving: seq<Addr>,
                        got: seq<Addr>)
    requires size < TWO_64 && Handed(s, s', slot, size, moving, got) && OrderOf(s, t, a) == Order(size, moving)
    requires Given(s, t, a) == {}
    requires !a.Write? && Confined(s.matter, s'.matter, Grip(c, s, t, a), Fresh(s, s'))
    ensures Effect(c, s, t, a, s')
  {
    hide Confined, Fresh, Gone, OrderOf, Given, Grip;
    assert Elements(got) == if got == [] then {} else {got[0]};
  }

  /** A step that only takes the blocks it was given out of use. */
  lemma QuietAccounted(c: Config, s: State, t: Tid, a: Action, s': State)
    requires OrderOf(s, t, a) == NoOrder && !a.Write? && InfosFrame(s.matter.infos, s'.matter.infos)
    requires Given(s, t, a) <= LiveSet(s.matter.stock.places)
    requires LiveSet(s'.matter.stock.places) == LiveSet(s.matter.stock.places) - Given(s, t, a)
    requires Confined(s.matter, s'.matter, Grip(c, s, t, a), {})
    ensures Effect(c, s, t, a, s')
  {
    hide OrderOf, Given, LiveSet, Grip, Q;
    assert Fresh(s, s') == {} && Gone(s, s') == Given(s, t, a);
  }

  lemma QueueFacts(m: Matter, slot: Slot, x: Addr)
    requires x in m.infos
    ensures var id := HomeList(m, slot, x);
            var st := PutBack(m.stock, id, ClassOf(m, x), x);
            && MovingList(m, slot, [x]) == {id} && LiveSet(st.places) == LiveSet(m.stock.places) - {x}
            && forall j :: j !in {id} ==> Q(st.qs, j) == Q(m.stock.qs, j)
  {
    var id, k := HomeList(m, slot, x), ClassOf(m, x);
    PutBackElsewhere(m.stock, id, k, x);
    LiveAfterSet(m.stock.places, x, In(id, k));
    hide LiveSet, Logarithm2, PutClass, Q;
  }

  lemma ReleaseFacts(c: Config, s: State, t: Tid, a: Action, slot: Slot, x: Addr)
    requires (a == Release(x) && PhaseOf(s, t) == Ready(slot)) || (a == Deposit && PhaseOf(s, t) == Borrowing(slot, x))
    ensures Grip(c, s, t, a) == MovingList(s.matter, slot, [x]) && Given(s, t, a) == {x} && OrderOf(s, t, a) == NoOrder
  {
    hide PhaseOf, HomeList;
  }

  lemma QueueEffect(c: Config, s: State, t: Tid, a: Action, s': State, slot: Slot, x: Addr)
    requires Inv(c, s) && Live(s, x) && x in s.matter.infos
    requires (a == Release(x) && PhaseOf(s, t) == Ready(slot)) || (a == Deposit && PhaseOf(s, t) == Borrowing(slot, x))
    requires var m := s.matter;
             Shift(m, s'.matter, PutBack(m.stock, HomeList(m, slot, x), ClassOf(m, x), x), {HomeList(m, slot, x)})
    ensures Effect(c, s, t, a, s')
  {
    hide *;
    ReleaseFacts(c, s, t, a, slot, x);
    LiveMeans(s);
    var m, id := s.matter, HomeList(s.matter, slot, x);
    var st := PutBack(m.stock, id, ClassOf(m, x), x);
    ShiftParts(m, s'.matter, st, {id});
    QueueFacts(m, slot, x);
    ShiftConfined(m, s'.matter, st, {id}, {});
    SameInfos(m.infos);
    QuietAccounted(c, s, t, a, s');
  }

  lemma DepositIsLive(c: Config, s: State, t: Tid)
    requires Inv(c, s) && PhaseOf(s, t).Borrowing?
    ensures Live(s, PhaseOf(s, t).chunk) && PhaseOf(s, t).chunk in s.matter.infos
  {
    OwnPhase(c, s, t);
    hide Inv, Live, PhaseOf;
    assert PhaseOf(s, t).chunk in Claims(PhaseOf(s, t));
  }

  lemma SameInfos(infos: Infos)
    ensures InfosFrame(infos, infos)
  {}

  lemma FlushEffect(c: Config, s: State, t: Tid, slot: Slot, k: nat, s': State)
    requires Inv(c, s) && PhaseOf(s, t) == Flushing(slot, k)
    requires if k == slot.core then s'.matter == s.matter
             else Shift(s.matter, s'.matter, MoveAll(s.matter.stock, FreeList(slot, k), Pool(k)),
                        {FreeList(slot, k), Pool(k)})
    ensures Effect(c, s, t, Flush, s')
  {
    hide *;
    var m := s.matter;
    FlushFacts(c, s, t, slot, k);
    if k == slot.core {
      NothingMoved(m, Grip(c, s, t, Flush));
      SameInfos(m.infos);
    } else {
      var st := MoveAll(m.stock, FreeList(slot, k), Pool(k));
      ShiftParts(m, s'.matter, st, {FreeList(slot, k), Pool(k)});
      MoveAllElsewhere(m.stock, FreeList(slot, k), Pool(k));
      MoveAllLive(m.stock, FreeList(slot, k), Pool(k));
      ShiftConfined(m, s'.matter, st, {FreeList(slot, k), Pool(k)}, {});
      SameInfos(m.infos);
    }
    QuietAccounted(c, s, t, Flush, s');
  }

  lemma FlushFacts(c: Config, s: State, t: Tid, slot: Slot, k: nat)
    requires PhaseOf(s, t) == Flushing(slot, k)
    ensures Grip(c, s, t, Flush) == {FreeList(slot, k), Pool(k)} && Given(s, t, Flush) == {}
    ensures OrderOf(s, t, Flush) == NoOrder
  {
    hide PhaseOf;
  }

  lemma MoveAllLive(st: Stock, from: QueueId, to: QueueId)
    ensures LiveSet(MoveAll(st, from, to).places) == LiveSet(st.places)
  {
    LiveAfterMove(st.places, from, to, CLASSES);
  }

  lemma NothingMoved(m: Matter, ids: set<QueueId>)
    ensures Confined(m, m, ids, {})
  {
    TouchesNothing(m.words, m.stock.places, m.infos, ids, {});
  }

  lemma GiveBackEffect(c: Config, s: State, t: Tid, a: Action, slot: Slot, s': State)
    requires Inv(c, s) && GiveBack(c, s, s', t, slot) && (a == Exit || a == Return)
    requires if a == Exit then PhaseOf(s, t) == Ready(slot) else PhaseOf(s, t) == Returning(slot)
    ensures Effect(c, s, t, a, s')
  {
    var m := s.matter;
    var st := Donate(m.stock, s.busy, slot, c.poolN, c.coreN);
    InvMatter(c, s);
    GiveBackMatter(c, m, s'.matter, s.busy, slot, ExitIds(c, s, slot));
    ShiftParts(m, s'.matter, st, ExitIds(c, s, slot));
    DonateElsewhere(c, s, slot);
    hide Inv, MatterOk, PhaseOf, LiveSet, Confined, Effect, Shift, Donate, ExitIds;
    ShiftConfined(m, s'.matter, st, ExitIds(c, s, slot), {});
    QuietAccounted(c, s, t, a, s');
  }

  /** A step that does not touch the passive state. */
  lemma IdleEffect(c: Config, s: State, t: Tid, a: Action, s': State)
    requires s'.matter == s.matter && !a.Write? && Given(s, t, a) == {}
    ensures Effect(c, s, t, a, s')
  {
    TouchesNothing(s.matter.words, s.matter.stock.places, s.matter.infos, Grip(c, s, t, a), Written(s, a, s'));
    assert Fresh(s, s') == {} && Gone(s, s') == {};
  }

  lemma WriteEffect(c: Config, s: State, t: Tid, x: Addr, off: nat, v: nat, s': State)
    requires Inv(c, s) && x in s.matter.infos && HEADER <= off < HEADER + s.matter.infos[x].size
    requires s' == s.(matter := s.matter.(words := s.matter.words[x + off := v]))
    ensures Effect(c, s, t, Write(x, off, v), s')
  {
    hide *;
    InvMatter(c, s);
    WriteMatter(c, s.matter, x, off, v);
    BodyWriteTouches(s.matter.words, s'.matter.words, s.matter.stock.places, s.matter.infos, x);
    WriteAccounted(c, s, t, Write(x, off, v), s');
  }

  lemma WriteAccounted(c: Config, s: State, t: Tid, a: Action, s': State)
    requires a.Write? && s'.matter.stock == s.matter.stock && s'.matter.infos == s.matter.infos
    requires Touches(s.matter.words, s'.matter.words, s.matter.stock.places, s.matter.infos, {}, {a.x})
    ensures Effect(c, s, t, a, s')
  {
    hide Touches, LiveSet, Q;
    assert Fresh(s, s') == {} && Gone(s, s') == {};
  }

  lemma RequestFacts(c: Config, s: State, t: Tid, a: Action, slot: Slot, size: nat, moving: seq<Addr>)
    requires PhaseOf(s, t) == Ready(slot)
    requires (a == Request(size) && moving == []) || (|moving| == 1 && a == Resize(moving[0], size))
    requires moving != [] ==> moving[0] in s.matter.infos && s.matter.infos[moving[0]].size < size
    ensures Grip(c, s, t, a) == OwnIds(slot) + MovingList(s.matter, slot, moving)
    ensures OrderOf(s, t, a) == Order(size, moving) && Given(s, t, a) == {} && !a.Write? && MovingOk(s, size, moving)
  {
    hide PhaseOf, HomeList;
    if moving != [] { assert moving == [moving[0]]; }
  }

  lemma RequestEffect(c: Config, s: State, t: Tid, a: Action, slot: Slot, size: nat, moving: seq<Addr>, s': State)
    requires Inv(c, s) && PhaseOf(s, t) == Ready(slot) && 0 < size < TWO_64
    requires (a == Request(size) && moving == []) || (|moving| == 1 && a == Resize(moving[0], size))
    requires forall x :: x in moving ==> x in LiveSet(s.matter.stock.places) && !Claimed(s, x)
    requires moving != [] ==> moving[0] in s.matter.infos && s.matter.infos[moving[0]].size < size
    requires Look(s, s', t, slot, size, moving, LocalStage(LaneOf(s.matter.stock.qs, slot, Logarithm2(size))),
                  Refilling(slot, size, moving), OwnIds(slot))
    ensures Effect(c, s, t, a, s')
  {
    hide *;
    var l := LaneOf(s.matter.stock.qs, slot, Logarithm2(size));
    RequestFacts(c, s, t, a, slot, size, moving);
    FirstLookEffect(c, s, t, slot, size, moving, s');
    HandedAccounted(c, s, t, a, s', slot, size, moving, LocalStage(l).got);
  }

  lemma StepEffect(c: Config, main: Tid, s: State, t: Tid, a: Action, s': State)
    requires ConfigOk(c) && Inv(c, s) && Step(c, main, s, t, a, s')
    ensures Effect(c, s, t, a, s')
  {
    hide Inv, Look, LaneOf, LocalStage, RefillStage, CarveStage, Logarithm2, GiveBack, MapStep, PhaseOf, Claimed,
      Shift, Effect, Live, Confined, Handed, LiveSet, Headers, TotalSize, ConfigOk, PutBack, MoveAll;
    var ph := PhaseOf(s, t);
    match a
    case Acquire(core, i) => IdleEffect(c, s, t, a, s');
    case Borrow(x, i) => IdleEffect(c, s, t, a, s');
    case Request(size) => RequestEffect(c, s, t, a, ph.slot, size, [], s');
    case Resize(x, size) =>
      if size > s.matter.infos[x].size {
        LiveMeans(s);
        RequestEffect(c, s, t, a, ph.slot, size, [x], s');
      } else {
        IdleEffect(c, s, t, a, s');
      }
    case Refill =>
      SecondLookEffect(c, s, t, ph.slot, ph.size, ph.moving, s');
      var k := Logarithm2(ph.size);
      HandedAccounted(c, s, t, a, s', ph.slot, ph.size, ph.moving,
                      RefillStage(LaneOf(s.matter.stock.qs, ph.slot, k), c.table[k]).got);
    case Map(p, region) =>
      MapEffect(c, main, s, t, ph.slot, ph.size, ph.moving, p, region, s');
      var k := Logarithm2(ph.size);
      HandedAccounted(c, s, t, a, s', ph.slot, ph.size, ph.moving,
                      CarveStage(LaneOf(s.matter.stock.qs, ph.slot, k),
                                 Headers(p, TotalSize(ph.size), c.table[k])).got);
    case Release(x) => QueueEffect(c, s, t, a, s', ph.slot, x);
    case Flush => FlushEffect(c, s, t, ph.slot, ph.next, s');
    case Exit => GiveBackEffect(c, s, t, a, ph.slot, s');
    case Return => GiveBackEffect(c, s, t, a, ph.slot, s');
    case Deposit =>
      DepositIsLive(c, s, t);
      QueueEffect(c, s, t, a, s', ph.slot, ph.chunk);
    case Write(x, off, v) => WriteEffect(c, s, t, x, off, v, s');
  }
}
