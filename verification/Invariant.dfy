/** The invariant of all runs, and the proof that every step of every thread keeps it. */
module Invariants {
  import opened SizeClass
  import opened Bump
  import opened Chunks
  import opened Carving
  import opened Lanes
  import opened SizeTables
  import opened Stocks
  import opened Donations
  import opened Matters
  import opened Protocol

  // ---------------------------------------------------------------- the invariant

  /** A heap is flagged busy exactly when one thread owns it, and no two threads own the same. */
  ghost predicate Owners(c: Config, s: State) {
    && (forall b :: b in s.busy ==> ValidSlot(c, b))
    && (forall t :: Slots(PhaseOf(s, t)) <= s.busy)
    && (forall t, u :: t != u ==> Slots(PhaseOf(s, t)) !! Slots(PhaseOf(s, u)))
    && (forall b :: b in s.busy ==> exists t :: b in Slots(PhaseOf(s, t)))
  }

  /** Blocks passed to calls in progress are live, and no two calls have the same. */
  ghost predicate ClaimsOk(s: State) {
    && (forall t, x :: x in Claims(PhaseOf(s, t)) ==> Live(s, x))
    && (forall t, u :: t != u ==> Claims(PhaseOf(s, t)) !! Claims(PhaseOf(s, u)))
  }

  /** A request in progress has found the heap's own lists empty, and nothing has been put there since. */
  ghost predicate Hungry(s: State, slot: Slot, size: nat)
    requires size < TWO_64
  {
    var l := LaneOf(s.matter.stock.qs, slot, Logarithm2(size));
    l.mal == [] && l.own == []
  }

  ghost predicate MovingOk(s: State, size: nat, moving: seq<Addr>) {
    |moving| <= 1 && (moving != [] ==> moving[0] in s.matter.infos && s.matter.infos[moving[0]].size < size)
  }

  ghost predicate PhaseOk(c: Config, s: State, ph: Phase) {
    match ph
    case Refilling(slot, size, m) => 0 < size < TWO_64 && MovingOk(s, size, m) && Hungry(s, slot, size)
    case Mapping(slot, size, m) => 0 < size < TWO_64 && MovingOk(s, size, m) && Hungry(s, slot, size)
    case Borrowing(slot, x) => x in s.matter.infos && s.matter.infos[x].core == slot.core
    case Flushing(_, k) => k < c.coreN
    case _ => true
  }

  ghost predicate PhasesOk(c: Config, s: State) { forall t :: PhaseOk(c, s, PhaseOf(s, t)) }

  ghost predicate Inv(c: Config, s: State) {
    MatterOk(c, s.matter) && Owners(c, s) && ClaimsOk(s) && PhasesOk(c, s)
  }

  // ---------------------------------------------------------------- control

  lemma PhaseAfter(s: State, s': State, t: Tid, ph: Phase)
    requires s'.phases == s.phases[t := ph]
    ensures forall u :: PhaseOf(s', u) == if u == t then ph else PhaseOf(s, u)
  {}

  lemma OwnersSame(c: Config, s: State, s': State, t: Tid, ph: Phase)
    requires Owners(c, s) && s'.phases == s.phases[t := ph] && s'.busy == s.busy && Slots(ph) == Slots(PhaseOf(s, t))
    ensures Owners(c, s')
  {
    PhaseAfter(s, s', t, ph);
    forall u ensures Slots(PhaseOf(s', u)) == Slots(PhaseOf(s, u)) {}
    hide Slots, PhaseOf;
    forall b | b in s'.busy ensures exists u :: b in Slots(PhaseOf(s', u)) {
      var u :| b in Slots(PhaseOf(s, u));
      assert b in Slots(PhaseOf(s', u));
    }
  }

  lemma OwnersGain(c: Config, s: State, s': State, t: Tid, ph: Phase, b: Slot)
    requires Owners(c, s) && s'.phases == s.phases[t := ph] && s'.busy == s.busy + {b}
    requires Slots(PhaseOf(s, t)) == {} && Slots(ph) == {b} && b !in s.busy && ValidSlot(c, b)
    ensures Owners(c, s')
  {
    PhaseAfter(s, s', t, ph);
    hide Slots, PhaseOf;
    forall u ensures Slots(PhaseOf(s', u)) == if u == t then {b} else Slots(PhaseOf(s, u)) {}
    forall x | x in s'.busy ensures exists u :: x in Slots(PhaseOf(s', u)) {
      if x == b {
        assert x in Slots(PhaseOf(s', t));
      } else {
        var u :| x in Slots(PhaseOf(s, u));
        assert x in Slots(PhaseOf(s', u));
      }
    }
  }

  lemma OwnersLose(c: Config, s: State, s': State, t: Tid, ph: Phase, b: Slot)
    requires Owners(c, s) && s'.phases == s.phases[t := ph] && s'.busy == s.busy - {b}
    requires Slots(PhaseOf(s, t)) == {b} && Slots(ph) == {}
    ensures Owners(c, s')
  {
    PhaseAfter(s, s', t, ph);
    hide Slots, PhaseOf;
    forall u ensures Slots(PhaseOf(s', u)) == if u == t then {} else Slots(PhaseOf(s, u)) {}
    forall u ensures Slots(PhaseOf(s', u)) <= s'.busy {
      assert u != t ==> Slots(PhaseOf(s, u)) !! Slots(PhaseOf(s, t));
    }
    forall x | x in s'.busy ensures exists u :: x in Slots(PhaseOf(s', u)) {
      var u :| x in Slots(PhaseOf(s, u));
      assert x in Slots(PhaseOf(s', u));
    }
  }

  /** Claims survive a step of `t` that releases at most blocks nobody else has claimed. */
  lemma ClaimsStep(s: State, s': State, t: Tid, ph: Phase)
    requires ClaimsOk(s) && s'.phases == s.phases[t := ph]
    requires forall x :: Live(s, x) && !Live(s', x) ==> forall u :: u != t ==> x !in Claims(PhaseOf(s, u))
    requires forall x :: x in Claims(ph) ==> Live(s', x)
    requires forall x :: x in Claims(ph) ==> x in Claims(PhaseOf(s, t)) || !Claimed(s, x)
    ensures ClaimsOk(s')
  {
    PhaseAfter(s, s', t, ph);
    ClaimedMeans(s);
    hide Claims, Live, PhaseOf, Claimed;
    forall u, x | x in Claims(PhaseOf(s', u)) ensures Live(s', x) {
      if u != t { assert Live(s, x); }
    }
    forall u, v | u != v ensures Claims(PhaseOf(s', u)) !! Claims(PhaseOf(s', v)) {
      forall x | x in Claims(PhaseOf(s', u)) ensures x !in Claims(PhaseOf(s', v)) {
        OneClaim(s, t, ph, u, v, x);
      }
    }
  }

  lemma OneClaim(s: State, t: Tid, ph: Phase, u: Tid, v: Tid, x: Addr)
    requires ClaimsOk(s) && u != v
    requires forall y :: y in Claims(ph) ==> y in Claims(PhaseOf(s, t)) || !Claimed(s, y)
    ensures x in (if u == t then Claims(ph) else Claims(PhaseOf(s, u))) ==>
              x !in (if v == t then Claims(ph) else Claims(PhaseOf(s, v)))
  {
    ClaimedMeans(s);
    assert Claims(PhaseOf(s, u)) !! Claims(PhaseOf(s, v));
    hide Claims, PhaseOf, Claimed;
  }

  lemma ClaimedMeans(s: State)
    ensures forall x :: Claimed(s, x) <==> exists t :: x in Claims(PhaseOf(s, t))
  {
    forall x ensures Claimed(s, x) <==> exists t :: x in Claims(PhaseOf(s, t)) {
      if Claimed(s, x) {
        var t :| t in s.phases && x in Claims(s.phases[t]);
        assert x in Claims(PhaseOf(s, t));
      }
      if t :| x in Claims(PhaseOf(s, t)) {
        assert t in s.phases && x in Claims(s.phases[t]);
      }
    }
  }

  // ---------------------------------------------------------------- other threads' heaps

  /** The queues of a heap are as they were. */
  ghost predicate SameHeap(st: Stock, st': Stock, b: Slot) {
    && Q(st'.qs, Mal(b)) == Q(st.qs, Mal(b))
    && forall k :: Q(st'.qs, FreeList(b, k)) == Q(st.qs, FreeList(b, k))
  }

  lemma TakeLaneSameHeap(st: Stock, slot: Slot, k: nat, r: Attempt, b: Slot)
    requires k < CLASSES && b != slot
    ensures SameHeap(st, TakeLane(st, slot, k, r), b)
  {}

  lemma PutBackSameHeap(st: Stock, slot: Slot, k: nat, c: nat, x: Addr, b: Slot)
    requires c < CLASSES && b != slot
    ensures SameHeap(st, PutBack(st, FreeList(slot, k), c, x), b)
  {}

  lemma MoveAllSameHeap(st: Stock, slot: Slot, k: nat, b: Slot)
    requires b != slot
    ensures SameHeap(st, MoveAll(st, FreeList(slot, k), Pool(k)), b)
  {}

  lemma DonateSameHeap(st: Stock, busy: set<Slot>, slot: Slot, poolN: nat, k: nat, b: Slot)
    requires b != slot && b in busy
    ensures SameHeap(st, Donate(st, busy, slot, poolN, k), b)
  {
    DonateReads(st, busy, slot, poolN, k, Mal(b));
    forall j ensures Q(Donate(st, busy, slot, poolN, k).qs, FreeList(b, j)) == Q(st.qs, FreeList(b, j)) {
      DonateReads(st, busy, slot, poolN, k, FreeList(b, j));
    }
  }

  /** A phase of another thread stays in order when its heap and the known chunks are untouched. */
  lemma OtherPhaseOk(c: Config, s: State, s': State, ph: Phase)
    requires PhaseOk(c, s, ph)
    requires forall x :: x in s.matter.infos ==> x in s'.matter.infos && s'.matter.infos[x] == s.matter.infos[x]
    requires forall b :: b in Slots(ph) ==> SameHeap(s.matter.stock, s'.matter.stock, b)
    ensures PhaseOk(c, s', ph)
  {
    hide Logarithm2, Q;
    if !ph.Unborn? && !ph.Detached? {
      assert ph.slot in Slots(ph);
    }
  }

  /** All phases are in order after a step of `t`. */
  lemma PhasesStep(c: Config, s: State, s': State, t: Tid, ph: Phase)
    requires PhasesOk(c, s) && s'.phases == s.phases[t := ph] && PhaseOk(c, s', ph)
    requires forall x :: x in s.matter.infos ==> x in s'.matter.infos && s'.matter.infos[x] == s.matter.infos[x]
    requires forall u, b :: u != t && b in Slots(PhaseOf(s, u)) ==> SameHeap(s.matter.stock, s'.matter.stock, b)
    ensures PhasesOk(c, s')
  {
    PhaseAfter(s, s', t, ph);
    hide PhaseOk, SameHeap, Slots, PhaseOf;
    forall u ensures PhaseOk(c, s', PhaseOf(s', u)) {
      if u != t { OtherPhaseOk(c, s, s', PhaseOf(s, u)); }
    }
  }

  /** Another thread's heap is another heap. */
  lemma OtherSlots(c: Config, s: State, t: Tid)
    requires Owners(c, s)
    ensures forall u, b :: u != t && b in Slots(PhaseOf(s, u)) ==> b in s.busy && b !in Slots(PhaseOf(s, t))
  {
    hide Slots, PhaseOf;
  }

  // ---------------------------------------------------------------- the passive state after each kind of step

  /** What a thread needs of its own phase: its heap exists, and its claims are live and unclaimed by others. */
  lemma OwnPhase(c: Config, s: State, t: Tid)
    requires Inv(c, s)
    ensures PhaseOk(c, s, PhaseOf(s, t))
    ensures forall b :: b in Slots(PhaseOf(s, t)) ==> ValidSlot(c, b) && b in s.busy
    ensures forall x :: x in Claims(PhaseOf(s, t)) ==> Live(s, x) && x in s.matter.infos
    ensures s.matter.stock.places.Keys == s.matter.infos.Keys
  {
    hide MatterOk, PhaseOk;
    HomedKeysOf(c, s.matter);
  }

  lemma HomedKeysOf(c: Config, m: Matter)
    requires MatterOk(c, m)
    ensures m.stock.places.Keys == m.infos.Keys
  {
    hide Tracked, Separated, Covered, Whole, Unlinked, Situated, Mapped;
  }

  lemma MatterParts(c: Config, m: Matter)
    requires MatterOk(c, m)
    ensures Tracked(m.stock) && Homed(m.stock.places, m.infos) && Situated(c, m.stock.places, m.infos)
  {
    hide Tracked, Homed, Separated, Covered, Whole, Unlinked, Situated, Mapped;
  }

  /** Chunks a live block's release concerns. */
  lemma ReleaseMatter(c: Config, m: Matter, m': Matter, slot: Slot, x: Addr, st: Stock, ids: set<QueueId>)
    requires MatterOk(c, m) && ValidSlot(c, slot) && x in m.infos && x in m.stock.places && m.stock.places[x].Out?
    requires st == PutBack(m.stock, HomeList(m, slot, x), ClassOf(m, x), x) && Shift(m, m', st, ids)
    ensures MatterOk(c, m')
    ensures forall b :: b != slot ==> SameHeap(m.stock, m'.stock, b)
    ensures forall y :: y in m'.stock.places && m'.stock.places[y].Out? <==>
              y in m.stock.places && m.stock.places[y].Out? && y != x
  {
    hide MatterOk, Logarithm2, SameHeap, Tracked, Homed, Situated, PutClass, Touches, Unlinked;
    var id, k := HomeList(m, slot, x), ClassOf(m, x);
    MatterParts(c, m);
    SituatedAt(c, m.stock.places, m.infos, x);
    PutBackTracked(m.stock, id, k, x);
    PutBackHomed(m.stock, m.infos, id, k, x);
    PutBackSituated(c, m.stock, m.infos, id, k, x);
    StockChange(c, m, st, m'.words, ids, {});
    forall b | b != slot ensures SameHeap(m.stock, m'.stock, b) {
      PutBackSameHeap(m.stock, slot, m.infos[x].core, k, x, b);
    }
  }

  lemma SituatedAt(c: Config, places: Places, infos: Infos, x: Addr)
    requires Situated(c, places, infos) && x in infos
    ensures infos[x].core < c.coreN && c.table[Logarithm2(infos[x].size)] > 0
  {
    hide Logarithm2;
  }

  lemma FlushMatter(c: Config, m: Matter, m': Matter, slot: Slot, k: nat, ids: set<QueueId>)
    requires MatterOk(c, m) && ValidSlot(c, slot) && k < c.coreN
    requires Shift(m, m', MoveAll(m.stock, FreeList(slot, k), Pool(k)), ids)
    ensures MatterOk(c, m')
    ensures forall b :: b != slot ==> SameHeap(m.stock, m'.stock, b)
    ensures LiveSet(m'.stock.places) == LiveSet(m.stock.places)
  {
    var from, to := FreeList(slot, k), Pool(k);
    MatterParts(c, m);
    MoveAllTracked(m.stock, from, to);
    MoveAllHomed(m.stock, m.infos, from, to);
    MoveAllSituated(c, m.stock, m.infos, from, to);
    StockChange(c, m, MoveAll(m.stock, from, to), m'.words, ids, {});
    LiveAfterMove(m.stock.places, from, to, CLASSES);
    forall b | b != slot ensures SameHeap(m.stock, m'.stock, b) {
      MoveAllSameHeap(m.stock, slot, k, b);
    }
  }

  lemma GiveBackMatter(c: Config, m: Matter, m': Matter, busy: set<Slot>, slot: Slot, ids: set<QueueId>)
    requires MatterOk(c, m) && Shift(m, m', Donate(m.stock, busy, slot, c.poolN, c.coreN), ids)
    ensures MatterOk(c, m')
    ensures forall b :: b != slot && b in busy ==> SameHeap(m.stock, m'.stock, b)
    ensures LiveSet(m'.stock.places) == LiveSet(m.stock.places)
  {
    var st' := Donate(m.stock, busy, slot, c.poolN, c.coreN);
    MatterParts(c, m);
    DonateTracked(m.stock, m.infos, busy, slot, c.poolN, c.coreN);
    DonateSituated(c, m.stock, m.infos, busy, slot, c.coreN);
    StockChange(c, m, st', m'.words, ids, {});
    forall b | b != slot && b in busy ensures SameHeap(m.stock, m'.stock, b) {
      DonateSameHeap(m.stock, busy, slot, c.poolN, c.coreN, b);
    }
  }

  /** A client's write to a live block. */
  lemma WriteMatter(c: Config, m: Matter, x: Addr, off: nat, v: nat)
    requires MatterOk(c, m) && x in m.infos && HEADER <= off < HEADER + m.infos[x].size
    ensures MatterOk(c, m.(words := m.words[x + off := v]))
    ensures BodyWritten(m.words, m.words[x + off := v], m.infos, x)
  {
    hide MatterOk, Logarithm2, Tracked, Homed, Situated, Touches, Unlinked, Separated, BodyWritten, MemoryOk;
    var w' := m.words[x + off := v];
    MatterParts(c, m);
    MatterMemory(c, m);
    MemoryParts(m.words, m.stock.places, m.infos, m.bump.granted);
    WriteInsideBody(m.words, w', m.infos, x);
    BodyWriteTouches(m.words, w', m.stock.places, m.infos, x);
    BodyWriteUnlinked(m.words, w', m.stock.places, m.infos, x, m.bump.granted);
    StockChange(c, m, m.stock, w', {}, {x});
  }

  lemma BodyWriteTouches(w: Words, w': Words, places: Places, infos: Infos, x: Addr)
    requires BodyWritten(w, w', infos, x)
    ensures Touches(w, w', places, infos, {}, {x})
  {}

  lemma BodyWriteUnlinked(w: Words, w': Words, places: Places, infos: Infos, x: Addr, grants: seq<Grant>)
    requires MemoryOk(w, places, infos, grants) && BodyWritten(w, w', infos, x)
    ensures Unlinked(w', places)
  {
    hide Separated, Covered, InfoOk, HeaderOk, Logarithm2;
    forall a | a in places && places[a].Out? ensures Next(w', a) == 0 {
      assert Field(w', a, OFF_NEXT) == Field(w, a, OFF_NEXT);
    }
  }

  // ---------------------------------------------------------------- requests

  /** Queueing a live chunk, without further writes. */
  lemma DepositKeeps(c: Config, m: Matter, slot: Slot, x: Addr)
    requires MatterOk(c, m) && ValidSlot(c, slot) && x in m.infos && x in LiveSet(m.stock.places)
    ensures var st := PutBack(m.stock, HomeList(m, slot, x), ClassOf(m, x), x);
            && MatterOk(c, m.(stock := st))
            && LiveSet(st.places) == LiveSet(m.stock.places) - {x}
            && forall b :: b != slot ==> SameHeap(m.stock, st, b)
  {
    hide *;
    var st := PutBack(m.stock, HomeList(m, slot, x), ClassOf(m, x), x);
    PutBackLive(m, slot, x);
    LiveIn(m.stock.places, x);
    UnlinkedParts(c, m);
    QuietShift(m, slot, x);
    ReleaseMatter(c, m, m.(stock := st), slot, x, st, {});
  }

  lemma LiveIn(places: Places, x: Addr)
    requires x in LiveSet(places)
    ensures x in places && places[x].Out?
  {}

  lemma PutBackLive(m: Matter, slot: Slot, x: Addr)
    requires x in m.infos
    ensures LiveSet(PutBack(m.stock, HomeList(m, slot, x), ClassOf(m, x), x).places) == LiveSet(m.stock.places) - {x}
  {
    LiveAfterSet(m.stock.places, x, In(HomeList(m, slot, x), ClassOf(m, x)));
    hide LiveSet, Logarithm2, PutClass;
  }

  /** A stock change without a write. */
  lemma QuietShift(m: Matter, slot: Slot, x: Addr)
    requires x in m.infos && Unlinked(m.words, m.stock.places)
    ensures var st := PutBack(m.stock, HomeList(m, slot, x), ClassOf(m, x), x);
            Shift(m, m.(stock := st), st, {})
  {
    assert Touches(m.words, m.words, m.stock.places, m.infos, {}, {});
    hide Touches, Logarithm2, PutClass;
  }

  lemma UnlinkedParts(c: Config, m: Matter)
    requires MatterOk(c, m)
    ensures Unlinked(m.words, m.stock.places)
  {
    hide Tracked, Homed, Separated, Covered, Whole, Unlinked, Situated, Mapped;
  }

  /** The end of a request that found `y`: the passive state, and the live set. */
  lemma FinishKeeps(c: Config, s: State, t: Tid, slot: Slot, moving: seq<Addr>, st: Stock, infos: Infos, m1: Matter,
                    y: Addr)
    requires MatterOk(c, m1) && m1.stock == st && m1.infos == infos && ValidSlot(c, slot) && |moving| <= 1
    requires moving != [] ==> moving[0] in infos && moving[0] in LiveSet(st.places)
    ensures var f := Finish(s, t, slot, moving, st, infos);
            && MatterOk(c, m1.(stock := f.matter.stock))
            && LiveSet(f.matter.stock.places) == LiveSet(st.places) - Elements(moving)
            && (forall b :: b != slot ==> SameHeap(st, f.matter.stock, b))
            && f.phases == s.phases[t := Ready(slot)] && f.busy == s.busy
            && f.matter == s.matter.(stock := f.matter.stock)
  {
    hide MatterOk, LiveSet, PutBack, Logarithm2;
    if moving != [] {
      assert moving == [moving[0]] && Elements(moving) == {moving[0]};
      DepositKeeps(c, m1, slot, moving[0]);
    } else {
      assert Elements(moving) == {};
    }
  }

  /** What a finished or continued look means for everybody. */
  ghost predicate Looked(c: Config, s: State, s': State, t: Tid, slot: Slot, moving: seq<Addr>, got: seq<Addr>,
                         on: Phase) {
    && MatterOk(c, s'.matter) && s'.busy == s.busy
    && (forall x :: x in s.matter.infos ==> x in s'.matter.infos && s'.matter.infos[x] == s.matter.infos[x])
    && (forall b :: b != slot ==> SameHeap(s.matter.stock, s'.matter.stock, b))
    && s'.phases == s.phases[t := if got == [] then on else Ready(slot)]
    && |got| <= 1 && (forall y :: y in got ==> y !in LiveSet(s.matter.stock.places))
    && LiveSet(s'.matter.stock.places) ==
         if got == [] then LiveSet(s.matter.stock.places)
         else LiveSet(s.matter.stock.places) + Elements(got) - Elements(moving)
  }

  lemma SameHeapTransitive(a: Stock, b: Stock, d: Stock, x: Slot)
    requires SameHeap(a, b, x) && SameHeap(b, d, x)
    ensures SameHeap(a, d, x)
  {}

  lemma LookKeeps(c: Config, s: State, s': State, t: Tid, slot: Slot, size: nat, moving: seq<Addr>, r: Attempt,
                  on: Phase, ids: set<QueueId>)
    requires MatterOk(c, s.matter) && ValidSlot(c, slot) && size < TWO_64 && |moving| <= 1
    requires moving != [] ==> moving[0] in s.matter.infos && moving[0] in LiveSet(s.matter.stock.places)
    requires IsStage(LaneOf(s.matter.stock.qs, slot, Logarithm2(size)), r)
    requires Look(s, s', t, slot, size, moving, r, on, ids)
    ensures Looked(c, s, s', t, slot, moving, r.got, on) && s'.matter.infos == s.matter.infos
  {
    hide MatterOk, Touches, Unlinked, TakeLane, Tracked, Homed, Situated, LiveSet, LaneOf, SameHeap, Finish,
      Logarithm2, SameContents, IsStage;
    var k := Logarithm2(size);
    var m, w' := s.matter, s'.matter.words;
    var st := TakeLane(m.stock, slot, k, r);
    StageKeepsStock(c, m, slot, k, r);
    StageLive(m, c, slot, k, r);
    forall b | b != slot ensures SameHeap(m.stock, st, b) {
      TakeLaneSameHeap(m.stock, slot, k, r, b);
    }
    if r.got == [] {
      StockChange(c, m, st, w', ids, {});
      assert Elements(r.got) == {};
    } else {
      var m1 := m.(stock := st, words := w');
      StockChange(c, m, st, w',
                  ids + (if moving == [] then {} else {FreeList(slot, m.infos[moving[0]].core)}),
                  if moving == [] then {} else {r.got[0]});
      FinishKeeps(c, s, t, slot, moving, st, m.infos, m1, r.got[0]);
      var f := Finish(s, t, slot, moving, st, m.infos);
      forall b | b != slot ensures SameHeap(m.stock, f.matter.stock, b) {
        SameHeapTransitive(m.stock, st, f.matter.stock, b);
      }
    }
  }

  lemma MapKeeps(c: Config, main: Tid, s: State, s': State, t: Tid, slot: Slot, size: nat, moving: seq<Addr>, p: nat,
                 region: nat)
    requires ConfigOk(c) && MatterOk(c, s.matter) && ValidSlot(c, slot) && 0 < size < TWO_64 && |moving| <= 1
    requires moving != [] ==> moving[0] in s.matter.infos && moving[0] in LiveSet(s.matter.stock.places)
    requires MapStep(c, main, s, s', t, slot, size, moving, p, region)
    ensures var k := Logarithm2(size);
            var r := CarveStage(LaneOf(s.matter.stock.qs, slot, k), Headers(p, TotalSize(size), c.table[k]));
            Looked(c, s, s', t, slot, moving, r.got, Ready(slot))
  {
    hide MatterOk, Touches, Unlinked, CarvedStock, Tracked, Homed, Situated, LiveSet, LaneOf, SameHeap, Finish,
      Logarithm2, SameContents, CarveStage, TotalSize, Headers, HeaderOk, CarveEffect;
    var k := Logarithm2(size);
    var sq := Headers(p, TotalSize(size), c.table[k]);
    var r := CarveStage(LaneOf(s.matter.stock.qs, slot, k), sq);
    var st := CarvedStock(s.matter.stock, slot, k, sq);
    var arena := if t == main then c.coreN else slot.core;
    MatterParts(c, s.matter);
    CarveParts(s.matter.infos, s.matter.bump, s'.matter.infos, s'.matter.bump, arena, slot.core, size, c.table[k], p,
               region, sq);
    CarvedLive(s.matter.stock, s.matter.infos, slot, k, sq);
    forall b | b != slot ensures SameHeap(s.matter.stock, st, b) {
      CarvedSameHeap(s.matter.stock, slot, k, sq, b);
    }
    var m1 := Matter(st, s'.matter.infos, s'.matter.words, s'.matter.bump);
    if r.got == [] {
      CarveKeeps(c, s.matter, m1, arena, slot, size, p, region, sq, {}, {});
      assert Elements(r.got) == {};
    } else {
      CarveKeeps(c, s.matter, m1, arena, slot, size, p, region, sq,
                 {Mal(slot)} + (if moving == [] then {} else {FreeList(slot, m1.infos[moving[0]].core)}),
                 if moving == [] then {} else {r.got[0]});
      var from := s.(matter := s.matter.(infos := m1.infos, bump := m1.bump));
      FinishKeeps(c, from, t, slot, moving, st, m1.infos, m1, r.got[0]);
      var f := Finish(from, t, slot, moving, st, m1.infos);
      forall b | b != slot ensures SameHeap(s.matter.stock, f.matter.stock, b) {
        SameHeapTransitive(s.matter.stock, st, f.matter.stock, b);
      }
    }
  }

  lemma CarvedSameHeap(st: Stock, slot: Slot, k: nat, sq: seq<Addr>, b: Slot)
    requires k < CLASSES && b != slot
    ensures SameHeap(st, CarvedStock(st, slot, k, sq), b)
  {
    hide CarveStage, LaneOf;
    TakeLaneSameHeap(Arrive(st, sq), slot, k, CarveStage(LaneOf(st.qs, slot, k), sq), b);
  }

  lemma CarveParts(infos: Infos, b: Bump, infos': Infos, b': Bump,
                   slot: nat, core: nat, size: nat, n: nat, p: nat, region: nat, s: seq<Addr>)
    requires size < TWO_64 && CarveEffect(infos, b, infos', b', slot, core, size, n, p, region, s)
    ensures NoDup(s) && |s| == n && (forall a :: a in s ==> a !in infos)
    ensures forall x :: x in infos ==> x in infos' && infos'[x] == infos[x]
  {
    hide RangeEffect, TotalSize, MmapSize, NoDup, Headers, ChunkInfo;
  }

  // ---------------------------------------------------------------- every step

  lemma InvParts(c: Config, s: State)
    requires Inv(c, s)
    ensures MatterOk(c, s.matter) && Owners(c, s) && ClaimsOk(s) && PhasesOk(c, s)
  {
    hide MatterOk, Owners, ClaimsOk, PhasesOk;
  }

  lemma InvFold(c: Config, s: State)
    requires MatterOk(c, s.matter) && Owners(c, s) && ClaimsOk(s) && PhasesOk(c, s)
    ensures Inv(c, s)
  {
    hide MatterOk, Owners, ClaimsOk, PhasesOk;
  }

  lemma LookedParts(c: Config, s: State, s': State, t: Tid, slot: Slot, moving: seq<Addr>, got: seq<Addr>, on: Phase)
    requires Looked(c, s, s', t, slot, moving, got, on)
    ensures MatterOk(c, s'.matter) && s'.busy == s.busy
            && s'.phases == s.phases[t := if got == [] then on else Ready(slot)]
    ensures forall x :: x in s.matter.infos ==> x in s'.matter.infos && s'.matter.infos[x] == s.matter.infos[x]
    ensures forall b :: b != slot ==> SameHeap(s.matter.stock, s'.matter.stock, b)
    ensures forall x :: Live(s, x) && !Live(s', x) ==> got != [] && x in Elements(moving)
    ensures got == [] ==> forall x :: Live(s, x) ==> Live(s', x)
  {
    LiveMeans(s);
    LiveMeans(s');
    hide MatterOk, SameHeap, LiveSet, Live;
  }

  lemma LiveMoving(s: State, moving: seq<Addr>)
    requires forall x :: x in moving ==> x in LiveSet(s.matter.stock.places)
    ensures forall x :: x in Elements(moving) ==> Live(s, x)
    ensures forall x :: x in Elements(moving) <==> x in moving
  {
    LiveMeans(s);
    hide LiveSet, Live;
  }

  lemma ReadyClaims(slot: Slot)
    ensures Slots(Ready(slot)) == {slot} && Claims(Ready(slot)) == {}
  {}

  /** A request step, from what it did to its place in the invariant. */
  lemma LookedInv(c: Config, s: State, s': State, t: Tid, slot: Slot, moving: seq<Addr>, got: seq<Addr>, on: Phase)
    requires Inv(c, s) && Slots(PhaseOf(s, t)) == {slot} && Slots(on) == {slot} && |moving| <= 1
    requires forall x :: x in moving ==> x in LiveSet(s.matter.stock.places)
    requires forall x :: x in moving ==> x in Claims(PhaseOf(s, t)) || !Claimed(s, x)
    requires Claims(on) <= Elements(moving)
    requires Looked(c, s, s', t, slot, moving, got, on)
    requires got == [] ==> PhaseOk(c, s', on)
    ensures Inv(c, s')
  {
    hide *;
    var ph := if got == [] then on else Ready(slot);
    InvParts(c, s);
    LookedParts(c, s, s', t, slot, moving, got, on);
    LiveMoving(s, moving);
    ReadyClaims(slot);
    OwnersSame(c, s, s', t, ph);
    OtherSlots(c, s, t);
    OthersClaims(s, t, moving);
    ClaimsStep(s, s', t, ph);
    ReadyOk(c, s', slot);
    PhasesStep(c, s, s', t, ph);
    InvFold(c, s');
  }

  lemma ReadyOk(c: Config, s: State, slot: Slot)
    ensures PhaseOk(c, s, Ready(slot)) && PhaseOk(c, s, Detached) && PhaseOk(c, s, Returning(slot))
  {}

  lemma LiveMeans(s: State)
    ensures forall x :: Live(s, x) <==> x in LiveSet(s.matter.stock.places)
  {}

  /** A block a step may take from its client is in no other call. */
  lemma OthersClaims(s: State, t: Tid, moving: seq<Addr>)
    requires ClaimsOk(s) && forall x :: x in moving ==> x in Claims(PhaseOf(s, t)) || !Claimed(s, x)
    ensures forall x, u :: x in Elements(moving) && u != t ==> x !in Claims(PhaseOf(s, u))
  {
    ClaimedMeans(s);
    hide Claimed, PhaseOf, Claims;
    forall x, u | x in Elements(moving) && u != t ensures x !in Claims(PhaseOf(s, u)) {
      assert Claims(PhaseOf(s, t)) !! Claims(PhaseOf(s, u));
    }
  }

  lemma SingleElement(x: Addr)
    ensures Elements([x]) == {x}
  {}

  /** A step that queues the one live block `x`, or no block. */
  lemma ReleasedInv(c: Config, s: State, s': State, t: Tid, slot: Slot, x: Addr, ph: Phase)
    requires Inv(c, s) && Slots(PhaseOf(s, t)) == {slot} == Slots(ph) && Claims(ph) == {}
    requires x in Claims(PhaseOf(s, t)) || !Claimed(s, x)
    requires MatterOk(c, s'.matter) && s'.matter.infos == s.matter.infos && s'.busy == s.busy
    requires s'.phases == s.phases[t := ph] && PhaseOk(c, s', ph)
    requires forall b :: b != slot ==> SameHeap(s.matter.stock, s'.matter.stock, b)
    requires forall y :: Live(s, y) && y != x ==> Live(s', y)
    ensures Inv(c, s')
  {
    hide *;
    InvParts(c, s);
    OwnersSame(c, s, s', t, ph);
    OtherSlots(c, s, t);
    OthersClaims(s, t, [x]);
    SingleElement(x);
    ClaimsStep(s, s', t, ph);
    PhasesStep(c, s, s', t, ph);
    InvFold(c, s');
  }

  lemma GiveBackInv(c: Config, s: State, s': State, t: Tid, slot: Slot)
    requires Inv(c, s) && Slots(PhaseOf(s, t)) == {slot} && GiveBack(c, s, s', t, slot)
    ensures Inv(c, s')
  {
    OwnersLose(c, s, s', t, Detached, slot);
    OtherSlots(c, s, t);
    GiveBackMatter(c, s.matter, s'.matter, s.busy, slot, ExitIds(c, s, slot));
    LiveMeans(s);
    LiveMeans(s');
    ReadyOk(c, s', slot);
    hide MatterOk, Owners, PhaseOf, SameHeap, PhaseOk, Live, LiveSet, Claimed;
    ClaimsStep(s, s', t, Detached);
    PhasesStep(c, s, s', t, Detached);
  }

  lemma AcquireInv(c: Config, s: State, s': State, t: Tid, slot: Slot, ph: Phase)
    requires Inv(c, s) && Slots(PhaseOf(s, t)) == {} && Slots(ph) == {slot} && slot !in s.busy && ValidSlot(c, slot)
    requires forall x :: x in Claims(ph) ==> Live(s, x) && !Claimed(s, x)
    requires PhaseOk(c, s', ph)
    requires s'.matter == s.matter && s'.phases == s.phases[t := ph] && s'.busy == s.busy + {slot}
    ensures Inv(c, s')
  {
    OwnersGain(c, s, s', t, ph, slot);
    hide MatterOk, Owners, PhaseOf, PhaseOk, Claimed;
    forall x ensures Live(s, x) <==> Live(s', x) {}
    forall b ensures SameHeap(s.matter.stock, s'.matter.stock, b) {}
    hide Live, SameHeap;
    ClaimsStep(s, s', t, ph);
    PhasesStep(c, s, s', t, ph);
  }
}
