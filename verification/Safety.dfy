/** Every step of every thread keeps the invariant; so it holds in every state of every run. */
module Safety {
  import opened SizeClass
  import opened Bump
  import opened Chunks
  import opened Carving
  import opened Lanes
  import opened SizeTables
  import opened Stocks
  import opened Donations
  import opened Matters
  import opened Protocol
  import opened Invariants

  // ---------------------------------------------------------------- requests

  lemma LaneAfterTake(st: Stock, slot: Slot, k: nat, r: Attempt)
    requires k < CLASSES
    ensures LaneOf(TakeLane(st, slot, k, r).qs, slot, k) == r.lane
  {
    SetLaneReads(st.qs, slot, k, r.lane, Mal(slot));
    SetLaneReads(st.qs, slot, k, r.lane, FreeList(slot, slot.core));
    SetLaneReads(st.qs, slot, k, r.lane, Pool(slot.core));
    hide SetLane, Q;
  }

  /** A stage that finds nothing leaves nothing in the heap's own lists. */
  lemma EmptyHanded(l: Lane, n: nat)
    ensures LocalStage(l).got == [] ==> LocalStage(l).lane.mal == [] && LocalStage(l).lane.own == []
    ensures l.mal == [] && RefillStage(l, n).got == [] ==> RefillStage(l, n).lane.mal == []
    ensures RefillStage(l, n).lane.own == l.own
  {}

  /** A request that found nothing goes on hungry. */
  lemma GoesOn(c: Config, s: State, s': State, slot: Slot, size: nat, moving: seq<Addr>, r: Attempt, on: Phase)
    requires 0 < size < TWO_64 && MovingOk(s, size, moving) && s'.matter.infos == s.matter.infos
    requires on == Refilling(slot, size, moving) || on == Mapping(slot, size, moving)
    requires s'.matter.stock == TakeLane(s.matter.stock, slot, Logarithm2(size), r) && r.lane.mal == []
    requires r.lane.own == []
    ensures PhaseOk(c, s', on)
  {
    LaneAfterTake(s.matter.stock, slot, Logarithm2(size), r);
    hide TakeLane, LaneOf, Logarithm2;
  }

  /** What a thread in the middle of a request knows. */
  lemma RequestPhase(c: Config, s: State, t: Tid)
    requires Inv(c, s) && (PhaseOf(s, t).Refilling? || PhaseOf(s, t).Mapping?)
    ensures var ph := PhaseOf(s, t);
            && 0 < ph.size < TWO_64 && MovingOk(s, ph.size, ph.moving) && |ph.moving| <= 1
            && (ph.moving != [] ==> ph.moving[0] in s.matter.infos && ph.moving[0] in LiveSet(s.matter.stock.places))
            && LaneOf(s.matter.stock.qs, ph.slot, Logarithm2(ph.size)).mal == []
            && LaneOf(s.matter.stock.qs, ph.slot, Logarithm2(ph.size)).own == []
            && ValidSlot(c, ph.slot) && Slots(ph) == {ph.slot} && Claims(ph) == Elements(ph.moving)
            && (forall x :: x in ph.moving ==> x in LiveSet(s.matter.stock.places) && x in Claims(ph))
  {
    hide *;
    OwnPhase(c, s, t);
    LiveMeans(s);
    RequestPhaseOk(c, s, PhaseOf(s, t));
  }

  lemma RequestPhaseOk(c: Config, s: State, ph: Phase)
    requires (ph.Refilling? || ph.Mapping?) && PhaseOk(c, s, ph)
    ensures 0 < ph.size < TWO_64 && MovingOk(s, ph.size, ph.moving) && |ph.moving| <= 1
    ensures ph.moving != [] ==> ph.moving[0] in s.matter.infos && ph.moving[0] in Claims(ph)
    ensures LaneOf(s.matter.stock.qs, ph.slot, Logarithm2(ph.size)).mal == []
    ensures LaneOf(s.matter.stock.qs, ph.slot, Logarithm2(ph.size)).own == []
    ensures Slots(ph) == {ph.slot} && ph.slot in Slots(ph) && Claims(ph) == Elements(ph.moving)
    ensures forall x :: x in ph.moving ==> x in Claims(ph)
  {
    hide LaneOf, Logarithm2;
  }

  /** What a thread knows of its heap between calls. */
  lemma ReadyPhase(c: Config, s: State, t: Tid, slot: Slot)
    requires Inv(c, s) && PhaseOf(s, t) == Ready(slot)
    ensures ValidSlot(c, slot) && Slots(Ready(slot)) == {slot}
    ensures forall x :: Live(s, x) <==> x in LiveSet(s.matter.stock.places)
    ensures MatterOk(c, s.matter) && ClaimsOk(s)
  {
    OwnPhase(c, s, t);
    LiveMeans(s);
    hide MatterOk, PhaseOf, LiveSet, Live, ClaimsOk, Owners, PhasesOk;
  }

  lemma InvMatter(c: Config, s: State)
    requires Inv(c, s)
    ensures MatterOk(c, s.matter)
  {
    hide MatterOk, Owners, ClaimsOk, PhasesOk;
  }

  lemma MovingAtMostOne(s: State, size: nat, moving: seq<Addr>)
    requires MovingOk(s, size, moving)
    ensures |moving| <= 1 && (moving != [] ==> moving[0] in s.matter.infos)
  {}

  lemma RequestClaims(slot: Slot, size: nat, moving: seq<Addr>)
    ensures Slots(Refilling(slot, size, moving)) == {slot} == Slots(Mapping(slot, size, moving)) == Slots(Ready(slot))
    ensures Claims(Refilling(slot, size, moving)) == Elements(moving) == Claims(Mapping(slot, size, moving))
    ensures Claims(Ready(slot)) == {}
    ensures forall x :: x in moving <==> x in Elements(moving)
  {}

  /** The first look of a request or of a growing reallocation. */
  lemma FirstLook(c: Config, s: State, t: Tid, slot: Slot, size: nat, moving: seq<Addr>, s': State)
    requires Inv(c, s) && PhaseOf(s, t) == Ready(slot) && 0 < size < TWO_64 && MovingOk(s, size, moving)
    requires forall x :: x in moving ==> x in LiveSet(s.matter.stock.places) && !Claimed(s, x)
    requires Look(s, s', t, slot, size, moving, LocalStage(LaneOf(s.matter.stock.qs, slot, Logarithm2(size))),
                  Refilling(slot, size, moving), OwnIds(slot))
    ensures Inv(c, s')
  {
    hide *;
    var l := LaneOf(s.matter.stock.qs, slot, Logarithm2(size));
    var on := Refilling(slot, size, moving);
    ReadyPhase(c, s, t, slot);
    MovingAtMostOne(s, size, moving);
    RequestClaims(slot, size, moving);
    StagesAre(l, 0);
    EmptyHanded(l, 0);
    LookKeeps(c, s, s', t, slot, size, moving, LocalStage(l), on, OwnIds(slot));
    if LocalStage(l).got == [] {
      LookStock(s, s', t, slot, size, moving, LocalStage(l), on, OwnIds(slot));
      GoesOn(c, s, s', slot, size, moving, LocalStage(l), on);
    }
    LookedInv(c, s, s', t, slot, moving, LocalStage(l).got, on);
  }

  lemma LookStock(s: State, s': State, t: Tid, slot: Slot, size: nat, moving: seq<Addr>, r: Attempt, on: Phase,
                  ids: set<QueueId>)
    requires size < TWO_64 && (moving != [] ==> moving[0] in s.matter.infos)
    requires Look(s, s', t, slot, size, moving, r, on, ids) && r.got == []
    ensures s'.matter.stock == TakeLane(s.matter.stock, slot, Logarithm2(size), r)
  {
    hide TakeLane, Touches, Unlinked, Logarithm2, Finish;
  }

  /** The look at the common pool. */
  lemma SecondLook(c: Config, s: State, t: Tid, slot: Slot, size: nat, moving: seq<Addr>, s': State)
    requires Inv(c, s) && PhaseOf(s, t) == Refilling(slot, size, moving) && size < TWO_64
    requires moving != [] ==> moving[0] in s.matter.infos
    requires var k := Logarithm2(size);
             Look(s, s', t, slot, size, moving, RefillStage(LaneOf(s.matter.stock.qs, slot, k), c.table[k]),
                  Mapping(slot, size, moving), PoolIds(slot))
    ensures Inv(c, s')
  {
    hide *;
    var k, l := Logarithm2(size), LaneOf(s.matter.stock.qs, slot, Logarithm2(size));
    var r, on := RefillStage(l, c.table[k]), Mapping(slot, size, moving);
    InvMatter(c, s);
    RequestPhase(c, s, t);
    RequestClaims(slot, size, moving);
    StagesAre(l, c.table[k]);
    EmptyHanded(l, c.table[k]);
    LookKeeps(c, s, s', t, slot, size, moving, r, on, PoolIds(slot));
    if r.got == [] {
      LookStock(s, s', t, slot, size, moving, r, on, PoolIds(slot));
      GoesOn(c, s, s', slot, size, moving, r, on);
    }
    LookedInv(c, s, s', t, slot, moving, r.got, on);
  }

  lemma MapInv(c: Config, main: Tid, s: State, t: Tid, slot: Slot, size: nat, moving: seq<Addr>, p: nat, region: nat,
               s': State)
    requires ConfigOk(c) && Inv(c, s) && PhaseOf(s, t) == Mapping(slot, size, moving) && size < TWO_64
    requires moving != [] ==> moving[0] in s.matter.infos
    requires MapStep(c, main, s, s', t, slot, size, moving, p, region)
    ensures Inv(c, s')
  {
    hide *;
    var k := Logarithm2(size);
    var r := CarveStage(LaneOf(s.matter.stock.qs, slot, k), Headers(p, TotalSize(size), c.table[k]));
    InvMatter(c, s);
    RequestPhase(c, s, t);
    RequestClaims(slot, size, moving);
    ReadyOk(c, s', slot);
    MapKeeps(c, main, s, s', t, slot, size, moving, p, region);
    LookedInv(c, s, s', t, slot, moving, r.got, Ready(slot));
  }

  // ---------------------------------------------------------------- releases, flushes, exits

  lemma FlushPhases(c: Config, slot: Slot, k: nat)
    ensures Slots(Ready(slot)) == Slots(Flushing(slot, k)) == Slots(Returning(slot)) == {slot}
    ensures Claims(Ready(slot)) == Claims(Flushing(slot, k)) == Claims(Returning(slot)) == {}
    ensures forall s {:trigger PhaseOk(c, s, Flushing(slot, k))} :: k < c.coreN ==> PhaseOk(c, s, Flushing(slot, k))
  {}

  lemma ShiftParts(m: Matter, m': Matter, st: Stock, ids: set<QueueId>)
    requires Shift(m, m', st, ids)
    ensures m'.infos == m.infos && m'.stock == st
  {
    hide Touches, Unlinked;
  }

  /** The block `x` goes to the end of its class of the heap's list for its home core. */
  lemma QueueInv(c: Config, s: State, s': State, t: Tid, slot: Slot, x: Addr, ph: Phase)
    requires Inv(c, s) && Slots(PhaseOf(s, t)) == {slot} == Slots(ph) && Claims(ph) == {} && PhaseOk(c, s', ph)
    requires Live(s, x) && x in s.matter.infos && (x in Claims(PhaseOf(s, t)) || !Claimed(s, x))
    requires var m := s.matter;
             Shift(m, s'.matter, PutBack(m.stock, HomeList(m, slot, x), ClassOf(m, x), x), {HomeList(m, slot, x)})
    requires s'.phases == s.phases[t := ph] && s'.busy == s.busy
    ensures Inv(c, s')
  {
    OwnPhase(c, s, t);
    var st := PutBack(s.matter.stock, HomeList(s.matter, slot, x), ClassOf(s.matter, x), x);
    ShiftParts(s.matter, s'.matter, st, {HomeList(s.matter, slot, x)});
    InvMatter(c, s);
    hide MatterOk, Inv, PhaseOf, Claimed, SameHeap, Logarithm2, Shift, PutBack, Slots, Claims;
    ReleaseMatter(c, s.matter, s'.matter, slot, x, st, {HomeList(s.matter, slot, x)});
    ReleasedInv(c, s, s', t, slot, x, ph);
  }

  lemma DepositInv(c: Config, s: State, t: Tid, slot: Slot, x: Addr, s': State)
    requires Inv(c, s) && PhaseOf(s, t) == Borrowing(slot, x) && x in s.matter.infos
    requires s'.phases == s.phases[t := Returning(slot)] && s'.busy == s.busy
    requires var m := s.matter;
             Shift(m, s'.matter, PutBack(m.stock, HomeList(m, slot, x), ClassOf(m, x), x), {HomeList(m, slot, x)})
    ensures Inv(c, s')
  {
    hide *;
    OwnPhase(c, s, t);
    BorrowPhase(c, s, slot, x);
    ReadyOk(c, s', slot);
    FlushPhases(c, slot, 0);
    QueueInv(c, s, s', t, slot, x, Returning(slot));
  }

  lemma ReleaseInv(c: Config, s: State, t: Tid, slot: Slot, x: Addr, ph: Phase, s': State)
    requires Inv(c, s) && PhaseOf(s, t) == Ready(slot) && x in s.matter.infos && Live(s, x) && !Claimed(s, x)
    requires (ph == Ready(slot) || ph == Flushing(slot, 0)) && c.coreN > 0
    requires s'.phases == s.phases[t := ph] && s'.busy == s.busy
    requires var m := s.matter;
             Shift(m, s'.matter, PutBack(m.stock, HomeList(m, slot, x), ClassOf(m, x), x), {HomeList(m, slot, x)})
    ensures Inv(c, s')
  {
    hide *;
    ReadyOk(c, s', slot);
    FlushPhases(c, slot, 0);
    assert PhaseOk(c, s', Flushing(slot, 0));
    QueueInv(c, s, s', t, slot, x, ph);
  }

  /** A step that keeps every block live. */
  lemma QuietInv(c: Config, s: State, s': State, t: Tid, slot: Slot, ph: Phase)
    requires Inv(c, s) && Slots(PhaseOf(s, t)) == {slot} == Slots(ph) && Claims(ph) == {}
    requires MatterOk(c, s'.matter) && s'.matter.infos == s.matter.infos && s'.busy == s.busy
    requires s'.phases == s.phases[t := ph] && PhaseOk(c, s', ph)
    requires forall b :: b != slot ==> SameHeap(s.matter.stock, s'.matter.stock, b)
    requires LiveSet(s'.matter.stock.places) == LiveSet(s.matter.stock.places)
    ensures Inv(c, s')
  {
    OwnersSame(c, s, s', t, ph);
    OtherSlots(c, s, t);
    LiveMeans(s);
    LiveMeans(s');
    hide MatterOk, Owners, PhaseOf, SameHeap, PhaseOk, Live, Claimed, Claims, LiveSet;
    ClaimsStep(s, s', t, ph);
    PhasesStep(c, s, s', t, ph);
  }

  lemma FlushInv(c: Config, s: State, t: Tid, slot: Slot, k: nat, s': State)
    requires Inv(c, s) && PhaseOf(s, t) == Flushing(slot, k) && k < c.coreN && s'.busy == s.busy
    requires s'.phases == s.phases[t := if k + 1 == c.coreN then Ready(slot) else Flushing(slot, k + 1)]
    requires if k == slot.core then s'.matter == s.matter
             else Shift(s.matter, s'.matter, MoveAll(s.matter.stock, FreeList(slot, k), Pool(k)),
                        {FreeList(slot, k), Pool(k)})
    ensures Inv(c, s')
  {
    hide *;
    OwnPhase(c, s, t);
    InvMatter(c, s);
    ReadyOk(c, s', slot);
    FlushPhases(c, slot, k);
    FlushPhases(c, slot, k + 1);
    assert k + 1 < c.coreN ==> PhaseOk(c, s', Flushing(slot, k + 1));
    if k == slot.core {
      SameStock(s.matter.stock);
    } else {
      FlushMatter(c, s.matter, s'.matter, slot, k, {FreeList(slot, k), Pool(k)});
      ShiftParts(s.matter, s'.matter, MoveAll(s.matter.stock, FreeList(slot, k), Pool(k)),
                 {FreeList(slot, k), Pool(k)});
    }
    QuietInv(c, s, s', t, slot, if k + 1 == c.coreN then Ready(slot) else Flushing(slot, k + 1));
  }

  lemma SameStock(st: Stock)
    ensures forall b :: SameHeap(st, st, b)
  {}

  /** Writing to memory words does not concern who owns what. */
  lemma ControlKept(c: Config, s: State, s': State)
    requires Inv(c, s) && MatterOk(c, s'.matter) && s'.phases == s.phases && s'.busy == s.busy
    requires s'.matter.stock == s.matter.stock && s'.matter.infos == s.matter.infos
    ensures Inv(c, s')
  {
    hide MatterOk, Slots, Claims, Logarithm2, PhaseOk;
    forall u ensures PhaseOf(s', u) == PhaseOf(s, u) {}
    forall x ensures Live(s', x) == Live(s, x) {}
    hide PhaseOf, Live;
    forall u ensures PhaseOk(c, s', PhaseOf(s', u)) {
      SamePhaseOk(c, s, s', PhaseOf(s, u));
    }
  }

  lemma SamePhaseOk(c: Config, s: State, s': State, ph: Phase)
    requires PhaseOk(c, s, ph) && s'.matter.stock == s.matter.stock && s'.matter.infos == s.matter.infos
    ensures PhaseOk(c, s', ph)
  {}

  lemma WriteInv(c: Config, s: State, x: Addr, off: nat, v: nat, s': State)
    requires Inv(c, s) && x in s.matter.infos && HEADER <= off < HEADER + s.matter.infos[x].size
    requires s' == s.(matter := s.matter.(words := s.matter.words[x + off := v]))
    ensures Inv(c, s')
  {
    hide *;
    InvMatter(c, s);
    WriteMatter(c, s.matter, x, off, v);
    ControlKept(c, s, s');
  }

  // ---------------------------------------------------------------- getting a heap

  lemma AllBusyInv(c: Config, s: State, t: Tid, s': State)
    requires Inv(c, s) && PhaseOf(s, t) == Unborn && s' == s.(phases := s.phases[t := Detached])
    ensures Inv(c, s')
  {
    OwnersSame(c, s, s', t, Detached);
    hide MatterOk, Owners, PhaseOf, Claimed;
    forall x ensures Live(s, x) <==> Live(s', x) {}
    forall b ensures SameHeap(s.matter.stock, s'.matter.stock, b) {}
    hide Live, SameHeap;
    ClaimsStep(s, s', t, Detached);
    PhasesStep(c, s, s', t, Detached);
  }

  lemma BorrowPhase(c: Config, s: State, slot: Slot, x: Addr)
    ensures Slots(Detached) == {} && Slots(Borrowing(slot, x)) == {slot} && Claims(Borrowing(slot, x)) == {x}
    ensures slot.core < c.coreN && slot.i < c.poolN ==> ValidSlot(c, slot)
    ensures x in s.matter.infos && s.matter.infos[x].core == slot.core ==> PhaseOk(c, s, Borrowing(slot, x))
  {}

  lemma BorrowInv(c: Config, s: State, t: Tid, x: Addr, i: nat, s': State)
    requires Inv(c, s) && PhaseOf(s, t) == Detached && Live(s, x) && !Claimed(s, x) && x in s.matter.infos
    requires i < c.poolN
    requires var b := Slot(s.matter.infos[x].core, i);
             b !in s.busy && s' == s.(phases := s.phases[t := Borrowing(b, x)], busy := s.busy + {b})
    ensures Inv(c, s')
  {
    hide *;
    var slot := Slot(s.matter.infos[x].core, i);
    InvMatter(c, s);
    MatterParts(c, s.matter);
    SituatedAt(c, s.matter.stock.places, s.matter.infos, x);
    BorrowPhase(c, s', slot, x);
    AcquireInv(c, s, s', t, slot, Borrowing(slot, x));
  }

  // ---------------------------------------------------------------- every step, every run

  lemma ConfigCores(c: Config)
    requires ConfigOk(c)
    ensures c.coreN > 0
  {
    hide TableOk;
  }

  lemma StepKeepsInv(c: Config, main: Tid, s: State, t: Tid, a: Action, s': State)
    requires ConfigOk(c) && Inv(c, s) && Step(c, main, s, t, a, s')
    ensures Inv(c, s')
  {
    hide Inv, Look, LaneOf, LocalStage, RefillStage, Logarithm2, GiveBack, MapStep, PhaseOf, Claimed, Shift, PutBack,
      MoveAll, Live, ConfigOk;
    ConfigCores(c);
    match a
    case Acquire(core, i) =>
      if i < c.poolN {
        AcquireInv(c, s, s', t, Slot(core, i), Ready(Slot(core, i)));
      } else {
        AllBusyInv(c, s, t, s');
      }
    case Request(size) => FirstLook(c, s, t, PhaseOf(s, t).slot, size, [], s');
    case Resize(x, size) =>
      if size > s.matter.infos[x].size {
        LiveMeans(s);
        FirstLook(c, s, t, PhaseOf(s, t).slot, size, [x], s');
      }
    case Refill => SecondLook(c, s, t, PhaseOf(s, t).slot, PhaseOf(s, t).size, PhaseOf(s, t).moving, s');
    case Map(p, region) => MapInv(c, main, s, t, PhaseOf(s, t).slot, PhaseOf(s, t).size, PhaseOf(s, t).moving, p,
                                  region, s');
    case Release(x) =>
      var k := ClassOf(s.matter, x);
      var flush := FlushDue(t == main, CountsOf(s.counts, t), k, c.table[k]);
      ReleaseInv(c, s, t, PhaseOf(s, t).slot, x,
                 if flush then Flushing(PhaseOf(s, t).slot, 0) else Ready(PhaseOf(s, t).slot), s');
    case Flush => FlushInv(c, s, t, PhaseOf(s, t).slot, PhaseOf(s, t).next, s');
    case Exit => GiveBackInv(c, s, s', t, PhaseOf(s, t).slot);
    case Borrow(x, i) => BorrowInv(c, s, t, x, i, s');
    case Deposit => DepositInv(c, s, t, PhaseOf(s, t).slot, PhaseOf(s, t).chunk, s');
    case Return => GiveBackInv(c, s, s', t, PhaseOf(s, t).slot);
    case Write(x, off, v) => WriteInv(c, s, x, off, v, s');
  }

  lemma InitInv(c: Config, s: State)
    requires Protocol.Init(c, s)
    ensures Inv(c, s)
  {
    NothingTracked();
  }
}
