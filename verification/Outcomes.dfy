/** What a request or a reallocation returns, over all its steps and whatever other threads do meanwhile. */
module Outcomes {
  import opened SizeClass
  import opened Bump
  import opened Chunks
  import opened Carving
  import opened Lanes
  import opened SizeTables
  import opened Stocks
  import opened Donations
  import opened Matters
  import opened Protocol
  import opened Invariants
  import opened Safety
  import opened Effects
  import opened Runs

  // ---------------------------------------------------------------- one step of a request

  /** The contents of block `x` start the new block, and `x` is the last chunk of its class on the list of its
      home core. */
  ghost predicate Relocated(s: State, s': State, slot: Slot, x: Addr) {
    && x in s.matter.infos
    && (forall y :: y in Fresh(s, s') ==>
          SameContents(s.matter.words, x, s'.matter.words, y, s.matter.infos[x].size))
    && LastIs(Q(s'.matter.stock.qs, HomeList(s.matter, slot, x)), ClassOf(s.matter, x), x)
  }

  predicate LastIs(q: Queues, k: nat, x: Addr) { k < CLASSES && q[k] != [] && q[k][|q[k]| - 1] == x }

  /** How a step of a request ends: with a new block the request is over, without one it goes on in `on`. */
  ghost predicate Outcome(s: State, s': State, t: Tid, slot: Slot, moving: seq<Addr>, on: Phase) {
    if Fresh(s, s') == {} then PhaseOf(s', t) == on
    else PhaseOf(s', t) == Ready(slot) && (moving != [] ==> Relocated(s, s', slot, moving[0]))
  }

  lemma FreshIsGot(s: State, s': State, slot: Slot, size: nat, moving: seq<Addr>, got: seq<Addr>)
    requires size < TWO_64 && Handed(s, s', slot, size, moving, got)
    ensures Fresh(s, s') == {} <==> got == []
    ensures got != [] ==> Fresh(s, s') == {got[0]}
  {
    hide Fresh, Gone, OfClass, InfosFrame, Logarithm2;
    if got != [] {
      assert got[0] in Elements(got);
    }
  }

  lemma LastAfterPut(st: Stock, id: QueueId, k: nat, x: Addr)
    requires k < CLASSES
    ensures LastIs(Q(PutBack(st, id, k, x).qs, id), k, x)
  {}

  /** The state after a request has got block `y`. */
  ghost predicate Ended(m: Matter, s': State, t: Tid, phases: map<Tid, Phase>, slot: Slot, moving: seq<Addr>, st: Stock,
                        y: Addr)
    requires moving != [] ==> moving[0] in m.infos
  {
    && s'.phases == phases[t := Ready(slot)]
    && (moving == [] ==> s'.matter.stock == st)
    && (moving != [] ==>
          var x := moving[0];
          && s'.matter.stock == PutBack(st, HomeList(m, slot, x), ClassOf(m, x), x)
          && SameContents(m.words, x, s'.matter.words, y, m.infos[x].size))
  }

  lemma EndedOutcome(s: State, s': State, t: Tid, slot: Slot, moving: seq<Addr>, st: Stock, y: Addr, on: Phase)
    requires moving != [] ==> moving[0] in s.matter.infos
    requires Ended(s.matter, s', t, s.phases, slot, moving, st, y) && Fresh(s, s') == {y}
    ensures Outcome(s, s', t, slot, moving, on)
  {
    hide PutBack, Fresh, LastIs, Q, SameContents, HomeList, ClassOf;
    if moving != [] {
      LastAfterPut(st, HomeList(s.matter, slot, moving[0]), ClassOf(s.matter, moving[0]), moving[0]);
    }
  }

  lemma LookEnds(s: State, s': State, t: Tid, slot: Slot, size: nat, moving: seq<Addr>, r: Attempt, on: Phase,
                 ids: set<QueueId>)
    requires size < TWO_64 && (moving != [] ==> moving[0] in s.matter.infos)
    requires Look(s, s', t, slot, size, moving, r, on, ids)
    ensures r.got == [] ==> PhaseOf(s', t) == on
    ensures r.got != [] ==>
              Ended(s.matter, s', t, s.phases, slot, moving, TakeLane(s.matter.stock, slot, Logarithm2(size), r),
                    r.got[0])
  {
    hide Touches, Unlinked, TakeLane, Logarithm2, SameContents, PutBack;
  }

  lemma LookOutcome(s: State, s': State, t: Tid, slot: Slot, size: nat, moving: seq<Addr>, r: Attempt, on: Phase,
                    ids: set<QueueId>)
    requires size < TWO_64 && (moving != [] ==> moving[0] in s.matter.infos)
    requires Look(s, s', t, slot, size, moving, r, on, ids) && Handed(s, s', slot, size, moving, r.got)
    ensures Outcome(s, s', t, slot, moving, on)
  {
    hide *;
    FreshIsGot(s, s', slot, size, moving, r.got);
    LookEnds(s, s', t, slot, size, moving, r, on, ids);
    if r.got == [] {
      OnOutcome(s, s', t, slot, moving, on);
    } else {
      EndedOutcome(s, s', t, slot, moving, TakeLane(s.matter.stock, slot, Logarithm2(size), r), r.got[0], on);
    }
  }

  lemma OnOutcome(s: State, s': State, t: Tid, slot: Slot, moving: seq<Addr>, on: Phase)
    requires Fresh(s, s') == {} && PhaseOf(s', t) == on
    ensures Outcome(s, s', t, slot, moving, on)
  {
    hide Fresh, PhaseOf;
  }

  lemma MapEnds(c: Config, main: Tid, s: State, s': State, t: Tid, slot: Slot, size: nat, moving: seq<Addr>, p: nat,
                region: nat)
    requires size < TWO_64 && (moving != [] ==> moving[0] in s.matter.infos)
    requires MapStep(c, main, s, s', t, slot, size, moving, p, region) && InfosFrame(s.matter.infos, s'.matter.infos)
    ensures var k := Logarithm2(size);
            var sq := Headers(p, TotalSize(size), c.table[k]);
            var r := CarveStage(LaneOf(s.matter.stock.qs, slot, k), sq);
            && (r.got == [] ==> PhaseOf(s', t) == Ready(slot))
            && (r.got != [] ==>
                  Ended(s.matter, s', t, s.phases, slot, moving, CarvedStock(s.matter.stock, slot, k, sq), r.got[0]))
  {
    hide Touches, Unlinked, CarvedStock, Logarithm2, SameContents, PutBack, CarveStage, Headers, TotalSize, LaneOf,
      CarveEffect, HeaderOk;
  }

  lemma MapOutcome(c: Config, main: Tid, s: State, s': State, t: Tid, slot: Slot, size: nat, moving: seq<Addr>, p: nat,
                   region: nat)
    requires size < TWO_64 && (moving != [] ==> moving[0] in s.matter.infos)
    requires MapStep(c, main, s, s', t, slot, size, moving, p, region)
    requires var k := Logarithm2(size);
             Handed(s, s', slot, size, moving,
                    CarveStage(LaneOf(s.matter.stock.qs, slot, k), Headers(p, TotalSize(size), c.table[k])).got)
    requires InfosFrame(s.matter.infos, s'.matter.infos)
    ensures Outcome(s, s', t, slot, moving, Ready(slot))
    ensures c.table[Logarithm2(size)] > 0 ==> Fresh(s, s') != {}
  {
    hide *;
    var k := Logarithm2(size);
    var sq := Headers(p, TotalSize(size), c.table[k]);
    var r := CarveStage(LaneOf(s.matter.stock.qs, slot, k), sq);
    FreshIsGot(s, s', slot, size, moving, r.got);
    CarveGives(LaneOf(s.matter.stock.qs, slot, k), p, TotalSize(size), c.table[k]);
    MapEnds(c, main, s, s', t, slot, size, moving, p, region);
    if r.got == [] {
      OnOutcome(s, s', t, slot, moving, Ready(slot));
    } else {
      EndedOutcome(s, s', t, slot, moving, CarvedStock(s.matter.stock, slot, k, sq), r.got[0], Ready(slot));
    }
  }

  lemma CarveGives(l: Lane, p: nat, total: nat, n: nat)
    ensures n > 0 ==> CarveStage(l, Headers(p, total, n)).got != []
  {}

  /** A class from which a block is served is one that the table serves. */
  lemma ServedClass(c: Config, s: State, s': State, slot: Slot, size: nat, moving: seq<Addr>, got: seq<Addr>)
    requires Inv(c, s') && size < TWO_64 && Handed(s, s', slot, size, moving, got)
    ensures Fresh(s, s') != {} ==> c.table[Logarithm2(size)] > 0
  {
    FreshIsGot(s, s', slot, size, moving, got);
    InvMatter(c, s');
    hide Inv, MatterOk, Tracked, Homed, Situated, Logarithm2, Fresh, Gone;
    MatterParts(c, s'.matter);
    if got != [] {
      assert OfClass(s'.matter.infos, got[0], slot.core, Logarithm2(size));
      SituatedAt(c, s'.matter.stock.places, s'.matter.infos, got[0]);
    }
  }

  // ---------------------------------------------------------------- each step of a call

  /** A request, or a reallocation of `moving[0]` to a size it has no room for. */
  ghost predicate Starts(s: State, a: Action, size: nat, moving: seq<Addr>) {
    (a == Request(size) && moving == [])
    || (|moving| == 1 && a == Resize(moving[0], size) && moving[0] in s.matter.infos
        && size > s.matter.infos[moving[0]].size)
  }

  lemma StartOutcome(c: Config, main: Tid, s: State, t: Tid, a: Action, s': State, size: nat, moving: seq<Addr>)
    requires Inv(c, s) && Inv(c, s') && Step(c, main, s, t, a, s') && Starts(s, a, size, moving)
    ensures PhaseOf(s, t).Ready? && 0 < size < TWO_64
    ensures Outcome(s, s', t, PhaseOf(s, t).slot, moving, Refilling(PhaseOf(s, t).slot, size, moving))
    ensures Fresh(s, s') != {} ==> c.table[Logarithm2(size)] > 0
    ensures forall x :: x in moving ==> Live(s, x)
  {
    hide Inv, PhaseOf, Look, LaneOf, LocalStage, Logarithm2, Live, Claimed, Outcome, Fresh;
    var slot := PhaseOf(s, t).slot;
    assert MovingOk(s, size, moving);
    assert moving == [] || moving == [moving[0]];
    LiveMeans(s);
    StartLook(c, s, t, slot, size, moving, s');
  }

  lemma StartLook(c: Config, s: State, t: Tid, slot: Slot, size: nat, moving: seq<Addr>, s': State)
    requires Inv(c, s) && Inv(c, s') && PhaseOf(s, t) == Ready(slot) && 0 < size < TWO_64 && MovingOk(s, size, moving)
    requires forall x :: x in moving ==> x in LiveSet(s.matter.stock.places) && !Claimed(s, x)
    requires Look(s, s', t, slot, size, moving, LocalStage(LaneOf(s.matter.stock.qs, slot, Logarithm2(size))),
                  Refilling(slot, size, moving), OwnIds(slot))
    ensures Outcome(s, s', t, slot, moving, Refilling(slot, size, moving))
    ensures Fresh(s, s') != {} ==> c.table[Logarithm2(size)] > 0
  {
    hide *;
    var r := LocalStage(LaneOf(s.matter.stock.qs, slot, Logarithm2(size)));
    MovingAtMostOne(s, size, moving);
    FirstLookEffect(c, s, t, slot, size, moving, s');
    LookOutcome(s, s', t, slot, size, moving, r, Refilling(slot, size, moving), OwnIds(slot));
    ServedClass(c, s, s', slot, size, moving, r.got);
  }

  lemma RefillOutcome(c: Config, s: State, t: Tid, slot: Slot, size: nat, moving: seq<Addr>, s': State)
    requires Inv(c, s) && Inv(c, s') && PhaseOf(s, t) == Refilling(slot, size, moving) && size < TWO_64
    requires moving != [] ==> moving[0] in s.matter.infos
    requires var k := Logarithm2(size);
             Look(s, s', t, slot, size, moving, RefillStage(LaneOf(s.matter.stock.qs, slot, k), c.table[k]),
                  Mapping(slot, size, moving), PoolIds(slot))
    ensures Outcome(s, s', t, slot, moving, Mapping(slot, size, moving))
    ensures Fresh(s, s') != {} ==> c.table[Logarithm2(size)] > 0
  {
    hide *;
    var k := Logarithm2(size);
    var r := RefillStage(LaneOf(s.matter.stock.qs, slot, k), c.table[k]);
    SecondLookEffect(c, s, t, slot, size, moving, s');
    LookOutcome(s, s', t, slot, size, moving, r, Mapping(slot, size, moving), PoolIds(slot));
    ServedClass(c, s, s', slot, size, moving, r.got);
  }

  lemma CarveOutcome(c: Config, main: Tid, s: State, t: Tid, slot: Slot, size: nat, moving: seq<Addr>, p: nat,
                     region: nat, s': State)
    requires ConfigOk(c) && Inv(c, s) && Inv(c, s') && PhaseOf(s, t) == Mapping(slot, size, moving) && size < TWO_64
    requires moving != [] ==> moving[0] in s.matter.infos
    requires MapStep(c, main, s, s', t, slot, size, moving, p, region)
    ensures Outcome(s, s', t, slot, moving, Ready(slot))
    ensures Fresh(s, s') != {} <==> c.table[Logarithm2(size)] > 0
  {
    hide *;
    var k := Logarithm2(size);
    var r := CarveStage(LaneOf(s.matter.stock.qs, slot, k), Headers(p, TotalSize(size), c.table[k]));
    MapEffect(c, main, s, t, slot, size, moving, p, region, s');
    MappedInfos(c, main, s, s', t, slot, size, moving, p, region);
    MapOutcome(c, main, s, s', t, slot, size, moving, p, region);
    ServedClass(c, s, s', slot, size, moving, r.got);
  }

  /** A step of a call in progress, or an unrelated write. */
  lemma ProgressOutcome(c: Config, main: Tid, s: State, t: Tid, a: Action, s': State, slot: Slot, size: nat,
                        moving: seq<Addr>)
    requires ConfigOk(c) && Inv(c, s) && Inv(c, s') && Step(c, main, s, t, a, s')
    requires PhaseOf(s, t) == Refilling(slot, size, moving) || PhaseOf(s, t) == Mapping(slot, size, moving)
    ensures 0 < size < TWO_64
    ensures a.Write? || Outcome(s, s', t, slot, moving, if a.Refill? then Mapping(slot, size, moving) else Ready(slot))
    ensures a.Write? ==> PhaseOf(s', t) == PhaseOf(s, t)
    ensures !a.Write? && !a.Refill? ==> (Fresh(s, s') != {} <==> c.table[Logarithm2(size)] > 0)
    ensures !a.Write? && a.Refill? && Fresh(s, s') != {} ==> c.table[Logarithm2(size)] > 0
  {
    hide *;
    RequestPhase(c, s, t);
    ProgressActions(c, main, s, t, a, s');
    ProgressStep(c, main, s, t, a, s', slot, size, moving);
    match a
    case Refill => RefillOutcome(c, s, t, slot, size, moving, s');
    case Map(p, region) => CarveOutcome(c, main, s, t, slot, size, moving, p, region, s');
    case Write(_, _, _) =>
  }

  lemma ProgressStep(c: Config, main: Tid, s: State, t: Tid, a: Action, s': State, slot: Slot, size: nat,
                     moving: seq<Addr>)
    requires Step(c, main, s, t, a, s') && size < TWO_64 && (moving != [] ==> moving[0] in s.matter.infos)
    requires PhaseOf(s, t) == Refilling(slot, size, moving) || PhaseOf(s, t) == Mapping(slot, size, moving)
    ensures a.Refill? ==>
              var k := Logarithm2(size);
              Look(s, s', t, slot, size, moving, RefillStage(LaneOf(s.matter.stock.qs, slot, k), c.table[k]),
                   Mapping(slot, size, moving), PoolIds(slot))
    ensures a.Map? ==> MapStep(c, main, s, s', t, slot, size, moving, a.p, a.region)
    ensures a.Write? ==> PhaseOf(s', t) == PhaseOf(s, t)
  {
    hide Look, LaneOf, RefillStage, LocalStage, Logarithm2, Live, Claimed, MapStep, Shift, GiveBack, PoolIds, OwnIds;
  }

  lemma ProgressActions(c: Config, main: Tid, s: State, t: Tid, a: Action, s': State)
    requires Step(c, main, s, t, a, s') && (PhaseOf(s, t).Refilling? || PhaseOf(s, t).Mapping?)
    ensures a.Write? || (a.Refill? && PhaseOf(s, t).Refilling?) || (a.Map? && PhaseOf(s, t).Mapping?)
  {
    hide PhaseOf, Look, MapStep, Shift, GiveBack, Live, Claimed;
  }

  // ---------------------------------------------------------------- whole calls

  /** From event `i` on, up to event `j`, thread `t` is in one call: a request, or a reallocation that has to
      move its block; event `j` ends it. */
  ghost predicate Call(r: Run, i: nat, j: nat, t: Tid, size: nat, moving: seq<Addr>) {
    && i <= j < |r.events| && |r.states| == |r.events| + 1
    && r.events[i].t == t && Starts(r.states[i], r.events[i].a, size, moving)
    && (forall k :: i < k <= j ==> !PhaseOf(r.states[k], t).Ready?)
    && PhaseOf(r.states[j + 1], t).Ready?
  }

  /** Where the thread of a call in progress is. */
  predicate InCall(ph: Phase, slot: Slot, size: nat, moving: seq<Addr>) {
    ph == Refilling(slot, size, moving) || ph == Mapping(slot, size, moving)
  }

  lemma CallAt(r: Run, i: nat, j: nat, t: Tid, size: nat, moving: seq<Addr>, k: nat)
    requires Call(r, i, j, t, size, moving)
    ensures i <= j < |r.events| && |r.states| == |r.events| + 1 && r.events[i].t == t
    ensures Starts(r.states[i], r.events[i].a, size, moving) && PhaseOf(r.states[j + 1], t).Ready?
    ensures i < k <= j ==> !PhaseOf(r.states[k], t).Ready?
  {
    hide PhaseOf, Starts;
  }

  lemma OutcomePhase(s: State, s': State, t: Tid, slot: Slot, moving: seq<Addr>, on: Phase)
    requires Outcome(s, s', t, slot, moving, on)
    ensures PhaseOf(s', t) == if Fresh(s, s') == {} then on else Ready(slot)
    ensures Fresh(s, s') != {} && moving != [] ==> Relocated(s, s', slot, moving[0])
  {
    hide Fresh, PhaseOf, Relocated;
  }

  /** A call stays in progress, with its size and its block, until it ends. */
  lemma {:induction false} CallProgress(c: Config, main: Tid, r: Run, i: nat, j: nat, t: Tid, size: nat,
                                        moving: seq<Addr>, k: nat)
    requires IsRun(c, main, r) && Call(r, i, j, t, size, moving) && i < k <= j
    ensures PhaseOf(r.states[i], t).Ready?
    ensures InCall(PhaseOf(r.states[k], t), PhaseOf(r.states[i], t).slot, size, moving)
    decreases k
  {
    hide *;
    CallAt(r, i, j, t, size, moving, k);
    var s, s', u, a := r.states[k - 1], r.states[k], r.events[k - 1].t, r.events[k - 1].a;
    RunStep(c, main, r, k - 1);
    RunKeepsInv(c, main, r, k - 1);
    RunKeepsInv(c, main, r, k);
    if k - 1 == i {
      StartOutcome(c, main, s, t, a, s', size, moving);
      var slot := PhaseOf(s, t).slot;
      OutcomePhase(s, s', t, slot, moving, Refilling(slot, size, moving));
      InCallMeans(Refilling(slot, size, moving), slot, size, moving);
    } else {
      CallProgress(c, main, r, i, j, t, size, moving, k - 1);
      var slot := PhaseOf(r.states[i], t).slot;
      InCallMeans(PhaseOf(s, t), slot, size, moving);
      if u != t {
        PhasesOfOthers(c, main, s, u, a, s', t);
      } else {
        ProgressOutcome(c, main, s, t, a, s', slot, size, moving);
        if !a.Write? {
          OutcomePhase(s, s', t, slot, moving, if a.Refill? then Mapping(slot, size, moving) else Ready(slot));
          InCallMeans(Mapping(slot, size, moving), slot, size, moving);
        }
      }
    }
  }

  lemma InCallMeans(ph: Phase, slot: Slot, size: nat, moving: seq<Addr>)
    ensures InCall(ph, slot, size, moving) <==> ph == Refilling(slot, size, moving) || ph == Mapping(slot, size, moving)
    ensures InCall(ph, slot, size, moving) ==> Claims(ph) == Elements(moving) && !ph.Ready?
  {}

  /** The step that ends a call: it is the thread's own, and it decides. */
  lemma CallEnds(c: Config, main: Tid, r: Run, i: nat, j: nat, t: Tid, size: nat, moving: seq<Addr>)
    requires IsRun(c, main, r) && Call(r, i, j, t, size, moving)
    ensures 0 < size < TWO_64 && PhaseOf(r.states[i], t).Ready?
    ensures Fresh(r.states[j], r.states[j + 1]) != {} <==> c.table[Logarithm2(size)] > 0
    ensures Fresh(r.states[j], r.states[j + 1]) != {} && moving != [] ==>
              Relocated(r.states[j], r.states[j + 1], PhaseOf(r.states[i], t).slot, moving[0])
    ensures r.events[j].t == t && OrderOf(r.states[j], t, r.events[j].a) == Order(size, moving)
    ensures Given(r.states[j], t, r.events[j].a) == {} && !r.events[j].a.Write?
    ensures forall x :: x in moving ==> Live(r.states[i], x)
  {
    hide *;
    CallAt(r, i, j, t, size, moving, j);
    var s, s', u, a := r.states[j], r.states[j + 1], r.events[j].t, r.events[j].a;
    RunStep(c, main, r, i);
    RunKeepsInv(c, main, r, i);
    RunKeepsInv(c, main, r, i + 1);
    StartOutcome(c, main, r.states[i], t, r.events[i].a, r.states[i + 1], size, moving);
    var slot := PhaseOf(r.states[i], t).slot;
    if i == j {
      OutcomePhase(s, s', t, slot, moving, Refilling(slot, size, moving));
      StartOrder(s, t, a, size, moving);
    } else {
      RunStep(c, main, r, j);
      RunKeepsInv(c, main, r, j);
      RunKeepsInv(c, main, r, j + 1);
      CallProgress(c, main, r, i, j, t, size, moving, j);
      InCallMeans(PhaseOf(s, t), slot, size, moving);
      if u != t { PhasesOfOthers(c, main, s, u, a, s', t); }
      ProgressOutcome(c, main, s, t, a, s', slot, size, moving);
      ProgressActions(c, main, s, t, a, s');
      OutcomePhase(s, s', t, slot, moving, if a.Refill? then Mapping(slot, size, moving) else Ready(slot));
      ProgressOrder(s, t, a, slot, size, moving);
    }
  }

  lemma StartOrder(s: State, t: Tid, a: Action, size: nat, moving: seq<Addr>)
    requires Starts(s, a, size, moving)
    ensures OrderOf(s, t, a) == Order(size, moving) && Given(s, t, a) == {} && !a.Write?
  {
    hide PhaseOf;
    if moving != [] { assert moving == [moving[0]]; }
  }

  lemma ProgressOrder(s: State, t: Tid, a: Action, slot: Slot, size: nat, moving: seq<Addr>)
    requires InCall(PhaseOf(s, t), slot, size, moving)
    requires (a.Refill? && PhaseOf(s, t).Refilling?) || (a.Map? && PhaseOf(s, t).Mapping?)
    ensures OrderOf(s, t, a) == Order(size, moving) && Given(s, t, a) == {}
  {
    hide PhaseOf;
  }

  /** A request is served exactly when the table serves its class, whatever other threads do between its steps:
      if so, its last step makes one block live that was not live, with room for the request. With the default
      table that is the case exactly for sizes from 1 to 2^34. */
  lemma RequestDecided(c: Config, main: Tid, r: Run, i: nat, j: nat, t: Tid, size: nat)
    requires IsRun(c, main, r) && Call(r, i, j, t, size, [])
    ensures var s, s' := r.states[j], r.states[j + 1];
            && (Fresh(s, s') != {} <==> size < TWO_64 && c.table[Logarithm2(size)] > 0)
            && (c.table == DEFAULT ==> (Fresh(s, s') != {} <==> 1 <= size <= 0x4_0000_0000))
            && |Fresh(s, s')| <= 1 && Gone(s, s') == {}
            && (forall y :: y in Fresh(s, s') ==> y in s'.matter.infos && size <= s'.matter.infos[y].size)
  {
    hide *;
    CallAt(r, i, j, t, size, [], j);
    CallEnds(c, main, r, i, j, t, size, []);
    RunEffect(c, main, r, j);
    EffectParts(c, r.states[j], t, r.events[j].a, r.states[j + 1]);
    AccountedMeans(r.states[j], t, r.events[j].a, r.states[j + 1]);
    NoElements();
    DefaultServes(size);
  }

  lemma NoElements()
    ensures Elements([]) == {}
  {}

  lemma AccountedMeans(s: State, t: Tid, a: Action, s': State)
    requires Accounted(s, t, a, s')
    ensures |Fresh(s, s')| <= 1 && (Fresh(s, s') != {} ==> OrderOf(s, t, a).Order?)
    ensures forall y :: y in Fresh(s, s') ==> y in s'.matter.infos && OrderOf(s, t, a).size <= s'.matter.infos[y].size
    ensures Gone(s, s') == Given(s, t, a) + (if Fresh(s, s') != {} then Elements(OrderOf(s, t, a).moving) else {})
    ensures InfosFrame(s.matter.infos, s'.matter.infos)
  {
    hide Fresh, Gone, Given, OrderOf, InfosFrame;
  }

  /** During a call the moving block is live and nobody writes to it. */
  lemma MovingHeld(c: Config, main: Tid, r: Run, i: nat, j: nat, t: Tid, size: nat, x: Addr, k: nat)
    requires IsRun(c, main, r) && Call(r, i, j, t, size, [x]) && i <= k <= j
    ensures |r.states| == |r.events| + 1 && Live(r.states[k], x) && !(r.events[k].a.Write? && r.events[k].a.x == x)
  {
    hide *;
    CallAt(r, i, j, t, size, [x], k);
    RunStep(c, main, r, k);
    RunKeepsInv(c, main, r, k);
    CallEnds(c, main, r, i, j, t, size, [x]);
    if k == i {
      StartOrder(r.states[i], t, r.events[i].a, size, [x]);
    } else {
      CallProgress(c, main, r, i, j, t, size, [x], k);
      InCallMeans(PhaseOf(r.states[k], t), PhaseOf(r.states[i], t).slot, size, [x]);
      OneElement(x);
      OwnPhase(c, r.states[k], t);
      ClaimedIs(r.states[k], t, x);
      NoWriteToClaimed(c, main, r.states[k], r.events[k].t, r.events[k].a, r.states[k + 1], x);
    }
  }

  lemma OneElement(x: Addr)
    ensures Elements([x]) == {x}
  {}

  lemma ClaimedIs(s: State, t: Tid, x: Addr)
    requires x in Claims(PhaseOf(s, t))
    ensures Claimed(s, x)
  {
    hide Claimed;
    ClaimedMeans(s);
  }

  lemma NoWriteToClaimed(c: Config, main: Tid, s: State, t: Tid, a: Action, s': State, x: Addr)
    requires Step(c, main, s, t, a, s') && Claimed(s, x)
    ensures !(a.Write? && a.x == x)
  {
    hide PhaseOf, Look, MapStep, Shift, GiveBack, Live, Claimed;
  }

  /** What became of block `x` of a reallocation. */
  ghost predicate Moved(s0: State, s: State, s': State, slot: Slot, x: Addr, size: nat) {
    && x in s0.matter.infos && x in s'.matter.infos && s'.matter.infos[x] == s0.matter.infos[x]
    && !Live(s', x)
    && LastIs(Q(s'.matter.stock.qs, FreeList(slot, s0.matter.infos[x].core)), Logarithm2(s0.matter.infos[x].size), x)
    && forall y :: y in Fresh(s, s') ==>
         && y in s'.matter.infos && size <= s'.matter.infos[y].size
         && SameContents(s0.matter.words, x, s'.matter.words, y, s0.matter.infos[x].size)
  }

  /** A growing reallocation, whatever other threads do between its steps. If the table serves the new size, its
      last step makes one block live, with room for `size`, whose body begins with what the old body held when
      the call started; and the old chunk is then the last of its class on the list of its home core. Otherwise
      the old block is still live and its body has not changed. */
  lemma ReallocPreserves(c: Config, main: Tid, r: Run, i: nat, j: nat, t: Tid, size: nat, x: Addr)
    requires IsRun(c, main, r) && Call(r, i, j, t, size, [x])
    ensures var s0, s, s' := r.states[i], r.states[j], r.states[j + 1];
            && PhaseOf(s0, t).Ready? && 0 < size < TWO_64 && x in s0.matter.infos
            && if c.table[Logarithm2(size)] > 0 then
                 |Fresh(s, s')| == 1 && Moved(s0, s, s', PhaseOf(s0, t).slot, x, size)
               else
                 Fresh(s, s') == {} && Live(s', x)
                   && SameBody(s0.matter.words, s'.matter.words, x, s0.matter.infos[x].size)
  {
    hide *;
    CallAt(r, i, j, t, size, [x], j);
    var s0, s, s' := r.states[i], r.states[j], r.states[j + 1];
    CallEnds(c, main, r, i, j, t, size, [x]);
    forall k | i <= k <= j
      ensures Live(r.states[k], x) && !(r.events[k].a.Write? && r.events[k].a.x == x)
    {
      MovingHeld(c, main, r, i, j, t, size, x, k);
    }
    RunKeepsInv(c, main, r, i);
    LiveKnown(c, s0, x);
    RunEffect(c, main, r, j);
    EffectParts(c, s, t, r.events[j].a, s');
    AccountedMeans(s, t, r.events[j].a, s');
    OneElement(x);
    ContentsSurvive(c, main, r, i, j, x);
    ContentsSurvive(c, main, r, i, j + 1, x);
    if Fresh(s, s') != {} {
      SameBodySameContents(s0.matter.words, s.matter.words, x, s0.matter.infos[x].size);
      MovedMeans(s0, s, s', PhaseOf(s0, t).slot, x, size);
    } else {
      StillLive(s, s', x);
    }
  }

  lemma MovedMeans(s0: State, s: State, s': State, slot: Slot, x: Addr, size: nat)
    requires Relocated(s, s', slot, x) && x in s0.matter.infos && x in s.matter.infos
    requires s.matter.infos[x] == s0.matter.infos[x]
    requires x in s'.matter.infos && s'.matter.infos[x] == s0.matter.infos[x] && x in Gone(s, s')
    requires SameContents(s0.matter.words, x, s.matter.words, x, s0.matter.infos[x].size)
    requires forall y :: y in Fresh(s, s') ==> y in s'.matter.infos && size <= s'.matter.infos[y].size
    requires Fresh(s, s') != {} && |Fresh(s, s')| <= 1
    ensures Moved(s0, s, s', slot, x, size) && |Fresh(s, s')| == 1
  {
    LiveMeans(s');
    RelocatedContents(s, s', slot, x);
    forall y | y in Fresh(s, s')
      ensures SameContents(s0.matter.words, x, s'.matter.words, y, s0.matter.infos[x].size)
    {
      SameContentsTransitive(s0.matter.words, x, s.matter.words, x, s'.matter.words, y, s0.matter.infos[x].size);
    }
    hide SameContents, LastIs, Q, Fresh, Logarithm2, LiveSet, Live;
  }

  lemma RelocatedContents(s: State, s': State, slot: Slot, x: Addr)
    requires Relocated(s, s', slot, x)
    ensures x in s.matter.infos
    ensures forall y :: y in Fresh(s, s') ==>
              SameContents(s.matter.words, x, s'.matter.words, y, s.matter.infos[x].size)
  {
    hide SameContents, Fresh, LastIs, Q;
  }

  lemma StillLive(s: State, s': State, x: Addr)
    requires Live(s, x) && x !in Gone(s, s')
    ensures Live(s', x)
  {
    LiveMeans(s);
    LiveMeans(s');
    hide LiveSet, Live;
  }

  // ---------------------------------------------------------------- leaving

  /** A thread that leaves: exactly its heap's flag is cleared, and for each core with an idle heap in another
      slot the lowest such heap gets, behind its own chunks of each class, those the leaving heap had freed for
      that core; every other queue is as it was. */
  lemma ExitDonates(c: Config, main: Tid, s: State, t: Tid, a: Action, s': State, id: QueueId)
    requires Step(c, main, s, t, a, s') && (a.Exit? || a.Return?) && ValidId(c, id)
    ensures PhaseOf(s, t).Ready? || PhaseOf(s, t).Returning?
    ensures var slot, qs := PhaseOf(s, t).slot, s.matter.stock.qs;
            && PhaseOf(s', t) == Detached && s'.busy == s.busy - {slot}
            && Q(s'.matter.stock.qs, id) ==
                 match id
                 case Mal(b) =>
                   if b.i == Heir(s.busy, slot, c.poolN, b.core) then Joined(Q(qs, id), Q(qs, FreeList(slot, b.core)))
                     else Q(qs, id)
                 case FreeList(b, k) =>
                   if b == slot && Heir(s.busy, slot, c.poolN, k) < c.poolN then Empty() else Q(qs, id)
                 case Pool(_) => Q(qs, id)
  {
    DonateReads(s.matter.stock, s.busy, PhaseOf(s, t).slot, c.poolN, c.coreN, id);
    hide Donate, Touches, Unlinked, ExitIds, Heir, Joined, Q, Empty;
  }
}
