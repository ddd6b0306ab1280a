/** The flush policy of `free` bounds what a thread keeps of other cores' memory (src/fcmalloc.cpp:131-142). */
module Backlogs {
  import opened SizeClass
  import opened Bump
  import opened Chunks
  import opened Carving
  import opened Lanes
  import opened SizeTables
  import opened Stocks
  import opened Donations
  import opened Matters
  import opened Protocol
  import opened Invariants
  import opened Safety
  import opened Effects
  import opened Runs
  import opened Outcomes

  /** Remote chunks of class `k` in a heap: those on its free lists for the other cores below `upto`. */
  function Backlog(qs: QueueTable, slot: Slot, k: nat, upto: nat): nat
    requires k < CLASSES
  {
    if upto == 0 then 0
    else Backlog(qs, slot, k, upto - 1) + (if upto - 1 == slot.core then 0 else |Q(qs, FreeList(slot, upto - 1))[k]|)
  }

  /** The remote lists of a heap below core `upto` are empty. */
  ghost predicate FlushedTo(qs: QueueTable, slot: Slot, upto: nat) {
    forall j, k :: 0 <= j < upto && j != slot.core && 0 <= k < CLASSES ==> Q(qs, FreeList(slot, j))[k] == []
  }

  // ---------------------------------------------------------------- queue tables

  /** The lists for other cores are as they were. */
  ghost predicate SameRemote(qs: QueueTable, qs': QueueTable, slot: Slot) {
    forall j :: j != slot.core ==> Q(qs', FreeList(slot, j)) == Q(qs, FreeList(slot, j))
  }

  lemma {:induction false} BacklogSame(qs: QueueTable, qs': QueueTable, slot: Slot, k: nat, upto: nat)
    requires SameRemote(qs, qs', slot) && k < CLASSES
    ensures Backlog(qs', slot, k, upto) == Backlog(qs, slot, k, upto)
    decreases upto
  {
    hide Q;
    if upto > 0 {
      BacklogSame(qs, qs', slot, k, upto - 1);
    }
  }

  lemma {:induction false} BacklogPut(st: Stock, slot: Slot, home: nat, c: nat, x: Addr, k: nat, upto: nat)
    requires c < CLASSES && k < CLASSES
    ensures Backlog(PutBack(st, FreeList(slot, home), c, x).qs, slot, k, upto)
            == Backlog(st.qs, slot, k, upto) + if k == c && home != slot.core && home < upto then 1 else 0
    decreases upto
  {
    if upto > 0 {
      BacklogPut(st, slot, home, c, x, k, upto - 1);
      assert Q(PutBack(st, FreeList(slot, home), c, x).qs, FreeList(slot, upto - 1))
             == if upto - 1 == home then Q(st.qs, FreeList(slot, home))[c := Q(st.qs, FreeList(slot, home))[c] + [x]]
                else Q(st.qs, FreeList(slot, upto - 1));
    }
  }

  lemma {:induction false} BacklogNone(qs: QueueTable, slot: Slot, k: nat, upto: nat)
    requires FlushedTo(qs, slot, upto) && k < CLASSES
    ensures Backlog(qs, slot, k, upto) == 0
    decreases upto
  {
    if upto > 0 {
      BacklogNone(qs, slot, k, upto - 1);
    }
  }

  lemma FlushOneMore(st: Stock, slot: Slot, i: nat)
    requires FlushedTo(st.qs, slot, i)
    ensures i != slot.core ==> FlushedTo(MoveAll(st, FreeList(slot, i), Pool(i)).qs, slot, i + 1)
    ensures i == slot.core ==> FlushedTo(st.qs, slot, i + 1)
  {
    var qs := MoveAll(st, FreeList(slot, i), Pool(i)).qs;
    forall j, k | 0 <= j < i + 1 && j != slot.core && 0 <= k < CLASSES && i != slot.core
      ensures Q(qs, FreeList(slot, j))[k] == []
    {
      assert Q(qs, FreeList(slot, j)) == if j == i then Empty() else Q(st.qs, FreeList(slot, j));
    }
  }

  lemma TakeLaneRemote(st: Stock, slot: Slot, k: nat, r: Attempt)
    requires k < CLASSES
    ensures SameRemote(st.qs, TakeLane(st, slot, k, r).qs, slot)
  {}

  lemma CarvedRemote(st: Stock, slot: Slot, k: nat, s: seq<Addr>)
    requires k < CLASSES
    ensures SameRemote(st.qs, CarvedStock(st, slot, k, s).qs, slot)
  {
    hide CarveStage, LaneOf;
    TakeLaneRemote(Arrive(st, s), slot, k, CarveStage(LaneOf(st.qs, slot, k), s));
  }

  lemma SameHeapRemote(st: Stock, st': Stock, slot: Slot)
    requires SameHeap(st, st', slot)
    ensures SameRemote(st.qs, st'.qs, slot)
  {
    hide Q;
  }

  // ---------------------------------------------------------------- what a step adds

  /** Block `x` is of class `k`. */
  predicate InClass(m: Matter, x: Addr, k: nat) { x in m.infos && ClassOf(m, x) == k }

  /** The heap of thread `t` is of another core than block `x`. */
  predicate IsRemote(s: State, t: Tid, x: Addr) {
    x in s.matter.infos && (forall b :: b in Slots(PhaseOf(s, t)) ==> b.core != s.matter.infos[x].core)
  }

  /** The step releases a block of class `k`. */
  predicate Releases(s: State, a: Action, k: nat) { a.Release? && InClass(s.matter, a.x, k) }

  /** The step ends a growing reallocation of a block of class `k`, which it queues. */
  predicate Moves(s: State, t: Tid, a: Action, s': State, k: nat) {
    && OrderOf(s, t, a).Order? && OrderOf(s, t, a).moving != [] && Fresh(s, s') != {}
    && InClass(s.matter, OrderOf(s, t, a).moving[0], k)
  }

  /** The step begins a flush. */
  predicate BeginsFlush(t: Tid, a: Action, s': State) { a.Release? && PhaseOf(s', t).Flushing? }

  predicate ReleasesRemote(s: State, t: Tid, a: Action, k: nat) { Releases(s, a, k) && IsRemote(s, t, a.x) }

  predicate MovesRemote(s: State, t: Tid, a: Action, s': State, k: nat) {
    Moves(s, t, a, s', k) && IsRemote(s, t, OrderOf(s, t, a).moving[0])
  }

  function One(b: bool): nat { if b then 1 else 0 }

  /** The thread may allocate: it has a heap and is not flushing. */
  predicate Working(ph: Phase) { ph.Ready? || ph.Refilling? || ph.Mapping? }

  lemma WorkingSlot(s: State, t: Tid, x: Addr)
    requires Working(PhaseOf(s, t)) && x in s.matter.infos
    ensures IsRemote(s, t, x) <==> s.matter.infos[x].core != PhaseOf(s, t).slot.core
  {
    hide PhaseOf;
    assert PhaseOf(s, t).slot in Slots(PhaseOf(s, t));
  }

  // ---------------------------------------------------------------- the thread's own steps

  /** The heap of `t` before, and the backlog after, a step of its own. */
  ghost predicate Added(c: Config, s: State, t: Tid, s': State, slot: Slot, k: nat, more: nat)
    requires k < CLASSES
  {
    && Working(PhaseOf(s', t)) && PhaseOf(s', t).slot == slot
    && Backlog(s'.matter.stock.qs, slot, k, c.coreN) == Backlog(s.matter.stock.qs, slot, k, c.coreN) + more
  }

  /** What a request step adds: the moved block, if it found a new one and the block is of another core. */
  function MovedIn(s: State, s': State, slot: Slot, moving: seq<Addr>, k: nat): nat
    requires moving != [] ==> moving[0] in s.matter.infos
  {
    One(moving != [] && Fresh(s, s') != {} && ClassOf(s.matter, moving[0]) == k
        && s.matter.infos[moving[0]].core != slot.core)
  }

  /** The end of a request whose queues left the remote lists alone. */
  lemma EndedAdds(c: Config, s: State, s': State, t: Tid, slot: Slot, moving: seq<Addr>, st: Stock, y: Addr, k: nat)
    requires k < CLASSES && (moving != [] ==> moving[0] in s.matter.infos && s.matter.infos[moving[0]].core < c.coreN)
    requires Ended(s.matter, s', t, s.phases, slot, moving, st, y) && Fresh(s, s') != {}
    requires SameRemote(s.matter.stock.qs, st.qs, slot)
    ensures Added(c, s, t, s', slot, k, MovedIn(s, s', slot, moving, k))
  {
    BacklogSame(s.matter.stock.qs, st.qs, slot, k, c.coreN);
    if moving != [] {
      var x := moving[0];
      BacklogPut(st, slot, s.matter.infos[x].core, ClassOf(s.matter, x), x, k, c.coreN);
    }
    hide Backlog, PutBack, Fresh, SameContents, SameRemote, Logarithm2;
  }

  lemma LookAdds(c: Config, s: State, s': State, t: Tid, slot: Slot, size: nat, moving: seq<Addr>, r: Attempt,
                 on: Phase, ids: set<QueueId>, k: nat)
    requires size < TWO_64 && k < CLASSES && Working(on) && on.slot == slot
    requires moving != [] ==> moving[0] in s.matter.infos && s.matter.infos[moving[0]].core < c.coreN
    requires Look(s, s', t, slot, size, moving, r, on, ids) && Handed(s, s', slot, size, moving, r.got)
    ensures Added(c, s, t, s', slot, k, MovedIn(s, s', slot, moving, k))
  {
    hide *;
    var st := TakeLane(s.matter.stock, slot, Logarithm2(size), r);
    FreshIsGot(s, s', slot, size, moving, r.got);
    LookEnds(s, s', t, slot, size, moving, r, on, ids);
    TakeLaneRemote(s.matter.stock, slot, Logarithm2(size), r);
    if r.got == [] {
      LookStock(s, s', t, slot, size, moving, r, on, ids);
      NothingAdded(c, s, s', t, slot, moving, st, on, k);
    } else {
      EndedAdds(c, s, s', t, slot, moving, st, r.got[0], k);
    }
  }

  lemma NothingAdded(c: Config, s: State, s': State, t: Tid, slot: Slot, moving: seq<Addr>, st: Stock, on: Phase,
                     k: nat)
    requires k < CLASSES && Working(on) && on.slot == slot && (moving != [] ==> moving[0] in s.matter.infos)
    requires Fresh(s, s') == {} && PhaseOf(s', t) == on && s'.matter.stock == st
    requires SameRemote(s.matter.stock.qs, st.qs, slot)
    ensures Added(c, s, t, s', slot, k, MovedIn(s, s', slot, moving, k))
  {
    hide Backlog, Fresh, SameRemote, Logarithm2, PhaseOf;
    BacklogSame(s.matter.stock.qs, st.qs, slot, k, c.coreN);
  }

  lemma MapAdds(c: Config, main: Tid, s: State, s': State, t: Tid, slot: Slot, size: nat, moving: seq<Addr>, p: nat,
                region: nat, k: nat)
    requires size < TWO_64 && k < CLASSES
    requires moving != [] ==> moving[0] in s.matter.infos && s.matter.infos[moving[0]].core < c.coreN
    requires MapStep(c, main, s, s', t, slot, size, moving, p, region) && InfosFrame(s.matter.infos, s'.matter.infos)
    requires var j := Logarithm2(size);
             Handed(s, s', slot, size, moving,
                    CarveStage(LaneOf(s.matter.stock.qs, slot, j), Headers(p, TotalSize(size), c.table[j])).got)
    ensures Added(c, s, t, s', slot, k, MovedIn(s, s', slot, moving, k))
  {
    hide *;
    var j := Logarithm2(size);
    var sq := Headers(p, TotalSize(size), c.table[j]);
    var r := CarveStage(LaneOf(s.matter.stock.qs, slot, j), sq);
    var st := CarvedStock(s.matter.stock, slot, j, sq);
    FreshIsGot(s, s', slot, size, moving, r.got);
    MapEnds(c, main, s, s', t, slot, size, moving, p, region);
    CarvedRemote(s.matter.stock, slot, j, sq);
    if r.got == [] {
      WorkingReady(slot);
      MapStock(c, main, s, s', t, slot, size, moving, p, region);
      NothingAdded(c, s, s', t, slot, moving, st, Ready(slot), k);
    } else {
      EndedAdds(c, s, s', t, slot, moving, st, r.got[0], k);
    }
  }

  lemma WorkingReady(slot: Slot)
    ensures Working(Ready(slot))
  {}

  lemma MapStock(c: Config, main: Tid, s: State, s': State, t: Tid, slot: Slot, size: nat, moving: seq<Addr>, p: nat,
                 region: nat)
    requires size < TWO_64 && (moving != [] ==> moving[0] in s.matter.infos)
    requires MapStep(c, main, s, s', t, slot, size, moving, p, region)
    ensures var j := Logarithm2(size);
            var sq := Headers(p, TotalSize(size), c.table[j]);
            CarveStage(LaneOf(s.matter.stock.qs, slot, j), sq).got == [] ==>
              s'.matter.stock == CarvedStock(s.matter.stock, slot, j, sq)
  {
    hide Touches, Unlinked, CarvedStock, Logarithm2, CarveStage, Headers, TotalSize, LaneOf, CarveEffect, HeaderOk,
      Finish, Delivered;
  }

  lemma RequestAdds(c: Config, s: State, t: Tid, slot: Slot, size: nat, moving: seq<Addr>, s': State, k: nat)
    requires Inv(c, s) && PhaseOf(s, t) == Ready(slot) && 0 < size < TWO_64 && MovingOk(s, size, moving) && k < CLASSES
    requires forall x :: x in moving ==> x in LiveSet(s.matter.stock.places) && !Claimed(s, x)
    requires Look(s, s', t, slot, size, moving, LocalStage(LaneOf(s.matter.stock.qs, slot, Logarithm2(size))),
                  Refilling(slot, size, moving), OwnIds(slot))
    ensures moving != [] ==> moving[0] in s.matter.infos
    ensures Added(c, s, t, s', slot, k, MovedIn(s, s', slot, moving, k))
  {
    hide *;
    var r := LocalStage(LaneOf(s.matter.stock.qs, slot, Logarithm2(size)));
    MovingAtMostOne(s, size, moving);
    HomeExists(c, s, moving);
    FirstLookEffect(c, s, t, slot, size, moving, s');
    WorkingRefilling(slot, size, moving);
    LookAdds(c, s, s', t, slot, size, moving, r, Refilling(slot, size, moving), OwnIds(slot), k);
  }

  lemma WorkingRefilling(slot: Slot, size: nat, moving: seq<Addr>)
    ensures Working(Refilling(slot, size, moving)) && Working(Mapping(slot, size, moving))
  {}

  /** Chunks are of existing cores. */
  lemma HomeExists(c: Config, s: State, moving: seq<Addr>)
    requires Inv(c, s)
    ensures moving != [] && moving[0] in s.matter.infos ==> s.matter.infos[moving[0]].core < c.coreN
  {
    InvMatter(c, s);
    hide Inv, MatterOk, Tracked, Homed, Situated;
    MatterParts(c, s.matter);
    if moving != [] && moving[0] in s.matter.infos {
      SituatedAt(c, s.matter.stock.places, s.matter.infos, moving[0]);
    }
  }

  lemma RefillAdds(c: Config, s: State, t: Tid, slot: Slot, size: nat, moving: seq<Addr>, s': State, k: nat)
    requires Inv(c, s) && PhaseOf(s, t) == Refilling(slot, size, moving) && size < TWO_64 && k < CLASSES
    requires moving != [] ==> moving[0] in s.matter.infos
    requires var j := Logarithm2(size);
             Look(s, s', t, slot, size, moving, RefillStage(LaneOf(s.matter.stock.qs, slot, j), c.table[j]),
                  Mapping(slot, size, moving), PoolIds(slot))
    ensures Added(c, s, t, s', slot, k, MovedIn(s, s', slot, moving, k))
  {
    hide *;
    var j := Logarithm2(size);
    HomeExists(c, s, moving);
    SecondLookEffect(c, s, t, slot, size, moving, s');
    WorkingRefilling(slot, size, moving);
    LookAdds(c, s, s', t, slot, size, moving, RefillStage(LaneOf(s.matter.stock.qs, slot, j), c.table[j]),
             Mapping(slot, size, moving), PoolIds(slot), k);
  }

  lemma CarveAdds(c: Config, main: Tid, s: State, t: Tid, slot: Slot, size: nat, moving: seq<Addr>, p: nat, region: nat,
                  s': State, k: nat)
    requires ConfigOk(c) && Inv(c, s) && PhaseOf(s, t) == Mapping(slot, size, moving) && size < TWO_64 && k < CLASSES
    requires moving != [] ==> moving[0] in s.matter.infos
    requires MapStep(c, main, s, s', t, slot, size, moving, p, region)
    ensures Added(c, s, t, s', slot, k, MovedIn(s, s', slot, moving, k))
  {
    hide *;
    HomeExists(c, s, moving);
    MapEffect(c, main, s, t, slot, size, moving, p, region, s');
    MappedInfos(c, main, s, s', t, slot, size, moving, p, region);
    MapAdds(c, main, s, s', t, slot, size, moving, p, region, k);
  }

  lemma ReleaseAdds(c: Config, s: State, t: Tid, slot: Slot, x: Addr, s': State, k: nat)
    requires Inv(c, s) && x in s.matter.infos && k < CLASSES && PhaseOf(s', t) == Ready(slot)
    requires s'.matter.stock == PutBack(s.matter.stock, HomeList(s.matter, slot, x), ClassOf(s.matter, x), x)
    ensures Added(c, s, t, s', slot, k, One(ClassOf(s.matter, x) == k && s.matter.infos[x].core != slot.core))
  {
    HomeExists(c, s, [x]);
    BacklogPut(s.matter.stock, slot, s.matter.infos[x].core, ClassOf(s.matter, x), x, k, c.coreN);
    hide Inv, Backlog, PutBack, Logarithm2, PhaseOf;
  }

  lemma SameAdds(c: Config, s: State, t: Tid, s': State, slot: Slot, k: nat)
    requires k < CLASSES && Working(PhaseOf(s', t)) && PhaseOf(s', t).slot == slot && s'.matter.stock == s.matter.stock
    ensures Added(c, s, t, s', slot, k, 0)
  {
    hide Backlog, PhaseOf;
  }

  /** A step of a working thread that keeps it working: the backlog grows by what the step queues on remote lists. */
  lemma OwnStepAdds(c: Config, main: Tid, s: State, t: Tid, a: Action, s': State, k: nat)
    requires ConfigOk(c) && Inv(c, s) && Step(c, main, s, t, a, s') && k < CLASSES
    requires Working(PhaseOf(s, t)) && !a.Exit? && !BeginsFlush(t, a, s')
    ensures Added(c, s, t, s', PhaseOf(s, t).slot, k,
                  One(ReleasesRemote(s, t, a, k)) + One(MovesRemote(s, t, a, s', k)))
  {
    hide Inv, Look, LaneOf, LocalStage, RefillStage, Logarithm2, MapStep, Claimed, PutBack, MoveAll, Live, ConfigOk,
      Donate, Touches, Unlinked, ExitIds, Added, Fresh, PhaseOf, IsRemote, GiveBack;
    var slot := PhaseOf(s, t).slot;
    match a
    case Request(size) => RequestAdds(c, s, t, slot, size, [], s', k);
    case Resize(x, size) =>
      WorkingSlot(s, t, x);
      if size > s.matter.infos[x].size {
        LiveMeans(s);
        RequestAdds(c, s, t, slot, size, [x], s', k);
      } else {
        NotFresh(s);
        SameAdds(c, s, t, s', slot, k);
      }
    case Refill =>
      if PhaseOf(s, t).moving != [] { WorkingSlot(s, t, PhaseOf(s, t).moving[0]); }
      RefillAdds(c, s, t, slot, PhaseOf(s, t).size, PhaseOf(s, t).moving, s', k);
    case Map(p, region) =>
      if PhaseOf(s, t).moving != [] { WorkingSlot(s, t, PhaseOf(s, t).moving[0]); }
      CarveAdds(c, main, s, t, slot, PhaseOf(s, t).size, PhaseOf(s, t).moving, p, region, s', k);
    case Release(x) =>
      WorkingSlot(s, t, x);
      AfterRelease(s, t, a, s', slot);
      ReleaseAdds(c, s, t, slot, x, s', k);
    case Write(x, off, v) =>
      SamePhase(s, s', t);
      SameAdds(c, s, t, s', slot, k);
  }

  lemma SamePhase(s: State, s': State, t: Tid)
    requires s'.phases == s.phases
    ensures PhaseOf(s', t) == PhaseOf(s, t)
  {}

  lemma NotFresh(s: State)
    ensures Fresh(s, s) == {}
  {}

  lemma AfterRelease(s: State, t: Tid, a: Action, s': State, slot: Slot)
    requires a.Release? && !BeginsFlush(t, a, s')
    requires s'.phases == s.phases[t := Ready(slot)] || s'.phases == s.phases[t := Flushing(slot, 0)]
    ensures PhaseOf(s', t) == Ready(slot)
  {}

  // ---------------------------------------------------------------- counting the events of a run

  /** Releases of class `k` by thread `t` since its last flush, before state `i`. */
  function FreedSince(r: Run, t: Tid, i: nat, k: nat): nat
    requires i < |r.states| <= |r.events| + 1
  {
    if i == 0 then 0
    else
      var e, before := r.events[i - 1], FreedSince(r, t, i - 1, k);
      if e.t != t then before
      else if BeginsFlush(t, e.a, r.states[i]) then 0
      else before + One(Releases(r.states[i - 1], e.a, k))
  }

  /** Of these, the releases of blocks of other cores than the thread's heap. */
  function RemoteFreedSince(r: Run, t: Tid, i: nat, k: nat): nat
    requires i < |r.states| <= |r.events| + 1
  {
    if i == 0 then 0
    else
      var e, before := r.events[i - 1], RemoteFreedSince(r, t, i - 1, k);
      if e.t != t then before
      else if BeginsFlush(t, e.a, r.states[i]) then 0
      else before + One(ReleasesRemote(r.states[i - 1], t, e.a, k))
  }

  /** Growing reallocations of class-`k` blocks of other cores that ended since the thread's last flush. */
  function RemoteMovedSince(r: Run, t: Tid, i: nat, k: nat): nat
    requires i < |r.states| <= |r.events| + 1
  {
    if i == 0 then 0
    else
      var e, before := r.events[i - 1], RemoteMovedSince(r, t, i - 1, k);
      if e.t != t then before
      else if BeginsFlush(t, e.a, r.states[i]) then 0
      else before + One(MovesRemote(r.states[i - 1], t, e.a, r.states[i], k))
  }

  /** Remote chunks of class `k` that were in the thread's heap when it acquired it, unless it has flushed since. */
  function FoundSince(c: Config, r: Run, t: Tid, i: nat, k: nat): nat
    requires i < |r.states| <= |r.events| + 1 && k < CLASSES
  {
    if i == 0 then 0
    else
      var e, before := r.events[i - 1], FoundSince(c, r, t, i - 1, k);
      if e.t != t then before
      else if BeginsFlush(t, e.a, r.states[i]) then 0
      else if e.a.Acquire? && PhaseOf(r.states[i], t).Ready? then
        Backlog(r.states[i].matter.stock.qs, PhaseOf(r.states[i], t).slot, k, c.coreN)
      else before
  }

  function Tally(c: Config, r: Run, t: Tid, i: nat, k: nat): nat
    requires i < |r.states| <= |r.events| + 1 && k < CLASSES
  {
    RemoteFreedSince(r, t, i, k) + RemoteMovedSince(r, t, i, k) + FoundSince(c, r, t, i, k)
  }

  /** Remote releases are releases. */
  lemma {:induction false} RemoteIsFreed(r: Run, t: Tid, i: nat, k: nat)
    requires i < |r.states| <= |r.events| + 1
    ensures RemoteFreedSince(r, t, i, k) <= FreedSince(r, t, i, k)
    decreases i
  {
    hide Releases, IsRemote, BeginsFlush;
    if i > 0 {
      RemoteIsFreed(r, t, i - 1, k);
    }
  }

  /** How a step of `t` takes the tally `n` of thread `u` to `n'`. */
  ghost predicate TalliedOn(c: Config, s: State, t: Tid, a: Action, s': State, u: Tid, k: nat, n: nat, n': nat)
    requires k < CLASSES
  {
    if t != u then n' == n
    else if BeginsFlush(t, a, s') then n' == 0
    else if a.Acquire? then
      PhaseOf(s', t).Ready? && n == 0 ==> n' == Backlog(s'.matter.stock.qs, PhaseOf(s', t).slot, k, c.coreN)
    else n' == n + One(ReleasesRemote(s, t, a, k)) + One(MovesRemote(s, t, a, s', k))
  }

  lemma TallyStep(c: Config, r: Run, u: Tid, i: nat, k: nat)
    requires i < |r.events| && |r.states| == |r.events| + 1 && k < CLASSES
    ensures TalliedOn(c, r.states[i], r.events[i].t, r.events[i].a, r.states[i + 1], u, k, Tally(c, r, u, i, k),
                      Tally(c, r, u, i + 1, k))
  {
    hide IsRemote, Backlog, Fresh, PhaseOf, InClass;
  }

  // ---------------------------------------------------------------- the backlog is the tally

  /** The tally `n` of class `k` is the backlog of a working thread; it is zero before the thread's first call and
      while it flushes, when the lists it has passed are empty. */
  ghost predicate Tallied(c: Config, s: State, t: Tid, k: nat, n: nat)
    requires k < CLASSES
  {
    var ph := PhaseOf(s, t);
    && (ph.Unborn? ==> n == 0)
    && (Working(ph) ==> Backlog(s.matter.stock.qs, ph.slot, k, c.coreN) == n)
    && (ph.Flushing? ==> n == 0 && FlushedTo(s.matter.stock.qs, ph.slot, ph.next))
  }

  lemma OthersTally(c: Config, main: Tid, s: State, t: Tid, a: Action, s': State, u: Tid, k: nat, n: nat)
    requires ConfigOk(c) && Inv(c, s) && Step(c, main, s, t, a, s') && u != t && k < CLASSES && Tallied(c, s, u, k, n)
    ensures Tallied(c, s', u, k, n)
  {
    hide *;
    PhasesOfOthers(c, main, s, t, a, s', u);
    StepEffect(c, main, s, t, a, s');
    forall b | b in Slots(PhaseOf(s, u)) ensures SameRemote(s.matter.stock.qs, s'.matter.stock.qs, b) {
      OtherHeap(c, s, t, u, b);
      forall id | id in Grip(c, s, t, a) ensures !OfHeap(id, b) {
        NotLocked(s, t, a, id, b);
        GripIsLocked(c, s, t, a, id);
      }
      Undisturbed(c, s, t, a, s', b);
      SameHeapRemote(s.matter.stock, s'.matter.stock, b);
    }
    SameTally(c, s, s', u, k, n);
  }

  lemma SameTally(c: Config, s: State, s': State, u: Tid, k: nat, n: nat)
    requires k < CLASSES && Tallied(c, s, u, k, n) && PhaseOf(s', u) == PhaseOf(s, u)
    requires forall b :: b in Slots(PhaseOf(s, u)) ==> SameRemote(s.matter.stock.qs, s'.matter.stock.qs, b)
    ensures Tallied(c, s', u, k, n)
  {
    hide PhaseOf, Backlog, FlushedTo, SameRemote;
    var ph := PhaseOf(s, u);
    if Working(ph) || ph.Flushing? {
      assert ph.slot in Slots(ph);
      BacklogSame(s.matter.stock.qs, s'.matter.stock.qs, ph.slot, k, c.coreN);
      if ph.Flushing? {
        FlushedSame(s.matter.stock.qs, s'.matter.stock.qs, ph.slot, ph.next);
      }
    }
  }

  lemma FlushedSame(qs: QueueTable, qs': QueueTable, slot: Slot, i: nat)
    requires SameRemote(qs, qs', slot) && FlushedTo(qs, slot, i)
    ensures FlushedTo(qs', slot, i)
  {
    hide Q;
  }

  lemma FlushTally(c: Config, s: State, t: Tid, slot: Slot, j: nat, s': State, k: nat)
    requires k < CLASSES && Tallied(c, s, t, k, 0) && PhaseOf(s, t) == Flushing(slot, j) && j < c.coreN
    requires s'.phases == s.phases[t := if j + 1 == c.coreN then Ready(slot) else Flushing(slot, j + 1)]
    requires s'.matter.stock == if j == slot.core then s.matter.stock
             else MoveAll(s.matter.stock, FreeList(slot, j), Pool(j))
    ensures Tallied(c, s', t, k, 0)
  {
    hide FlushedTo, MoveAll, Backlog;
    FlushOneMore(s.matter.stock, slot, j);
    if j + 1 == c.coreN {
      BacklogNone(s'.matter.stock.qs, slot, k, c.coreN);
    }
  }

  /** A step of the thread itself while it is not working. */
  lemma IdleTally(c: Config, main: Tid, s: State, t: Tid, a: Action, s': State, k: nat, n: nat, n': nat)
    requires Step(c, main, s, t, a, s') && k < CLASSES && Tallied(c, s, t, k, n) && !Working(PhaseOf(s, t))
    requires TalliedOn(c, s, t, a, s', t, k, n, n')
    ensures Tallied(c, s', t, k, n')
  {
    hide Live, Claimed, Shift, GiveBack, MoveAll, Backlog, FlushedTo, Fresh, IsRemote, InClass, Look, MapStep;
    var ph := PhaseOf(s, t);
    if a.Flush? {
      hide PhaseOf;
      assert Shift(s.matter, s'.matter, MoveAll(s.matter.stock, FreeList(ph.slot, ph.next), Pool(ph.next)),
                   {FreeList(ph.slot, ph.next), Pool(ph.next)}) || ph.next == ph.slot.core;
      ShiftStock(s.matter, s'.matter, ph.slot, ph.next);
      FlushTally(c, s, t, ph.slot, ph.next, s', k);
    } else if a.Write? {
      SamePhase(s, s', t);
    } else if a.Exit? || a.Return? {
      LeftDetached(c, s, s', t, ph.slot);
    }
  }

  lemma ShiftStock(m: Matter, m': Matter, slot: Slot, j: nat)
    ensures Shift(m, m', MoveAll(m.stock, FreeList(slot, j), Pool(j)), {FreeList(slot, j), Pool(j)}) ==>
              m'.stock == MoveAll(m.stock, FreeList(slot, j), Pool(j))
  {
    hide MoveAll, Touches, Unlinked;
  }

  lemma LeftDetached(c: Config, s: State, s': State, t: Tid, slot: Slot)
    requires GiveBack(c, s, s', t, slot)
    ensures PhaseOf(s', t) == Detached
  {
    hide Shift;
  }

  lemma BegunFlush(c: Config, main: Tid, s: State, t: Tid, a: Action, s': State, k: nat)
    requires Step(c, main, s, t, a, s') && BeginsFlush(t, a, s') && k < CLASSES
    ensures Tallied(c, s', t, k, 0)
  {
    hide Shift, Live, Claimed, PutBack, Backlog;
  }

  lemma LeftHeap(c: Config, main: Tid, s: State, t: Tid, a: Action, s': State, k: nat, n: nat)
    requires Step(c, main, s, t, a, s') && a.Exit? && k < CLASSES
    ensures Tallied(c, s', t, k, n)
  {
    hide GiveBack;
    LeftDetached(c, s, s', t, PhaseOf(s, t).slot);
  }

  lemma AddedTally(c: Config, s: State, t: Tid, s': State, k: nat, n: nat, more: nat)
    requires k < CLASSES && Working(PhaseOf(s, t)) && Tallied(c, s, t, k, n)
    requires Added(c, s, t, s', PhaseOf(s, t).slot, k, more)
    ensures Tallied(c, s', t, k, n + more)
  {
    hide Backlog, PhaseOf;
  }

  lemma WorkingNotNew(c: Config, main: Tid, s: State, t: Tid, a: Action, s': State)
    requires Step(c, main, s, t, a, s') && Working(PhaseOf(s, t))
    ensures !a.Acquire?
  {}

  lemma OwnTally(c: Config, main: Tid, s: State, t: Tid, a: Action, s': State, k: nat, n: nat, n': nat)
    requires ConfigOk(c) && Inv(c, s) && Step(c, main, s, t, a, s') && k < CLASSES && Tallied(c, s, t, k, n)
    requires TalliedOn(c, s, t, a, s', t, k, n, n')
    ensures Tallied(c, s', t, k, n')
  {
    hide Inv, ConfigOk, Step, Tallied, BeginsFlush, Working, ReleasesRemote, MovesRemote, Added, PhaseOf;
    if !Working(PhaseOf(s, t)) {
      IdleTally(c, main, s, t, a, s', k, n, n');
    } else if BeginsFlush(t, a, s') {
      BegunFlush(c, main, s, t, a, s', k);
    } else if a.Exit? {
      LeftHeap(c, main, s, t, a, s', k, n');
    } else {
      WorkingNotNew(c, main, s, t, a, s');
      OwnStepAdds(c, main, s, t, a, s', k);
      AddedTally(c, s, t, s', k, n, One(ReleasesRemote(s, t, a, k)) + One(MovesRemote(s, t, a, s', k)));
    }
  }

  lemma InitTally(c: Config, s: State, t: Tid, k: nat)
    requires Protocol.Init(c, s) && k < CLASSES
    ensures Tallied(c, s, t, k, 0)
  {}

  /** What a working thread keeps of other cores' memory is exactly what it released and moved since its last flush,
      and what it found in its heap. */
  lemma {:induction false} BacklogIsTally(c: Config, main: Tid, r: Run, i: nat, u: Tid, k: nat)
    requires IsRun(c, main, r) && i < |r.states| && k < CLASSES
    ensures |r.states| == |r.events| + 1 && Tallied(c, r.states[i], u, k, Tally(c, r, u, i, k))
    decreases i
  {
    hide *;
    RunStart(c, main, r);
    if i == 0 {
      InitTally(c, r.states[0], u, k);
      TallyStart(c, r, u, k);
    } else {
      BacklogIsTally(c, main, r, i - 1, u, k);
      RunStep(c, main, r, i - 1);
      RunKeepsInv(c, main, r, i - 1);
      TallyStep(c, r, u, i - 1, k);
      var s, s', e := r.states[i - 1], r.states[i], r.events[i - 1];
      var n, n' := Tally(c, r, u, i - 1, k), Tally(c, r, u, i, k);
      if e.t == u {
        OwnTally(c, main, s, u, e.a, s', k, n, n');
      } else {
        TallyOfOther(c, s, e.t, e.a, s', u, k, n, n');
        OthersTally(c, main, s, e.t, e.a, s', u, k, n);
      }
    }
  }

  lemma TallyStart(c: Config, r: Run, u: Tid, k: nat)
    requires |r.states| == |r.events| + 1 && k < CLASSES
    ensures Tally(c, r, u, 0, k) == 0
  {}

  lemma TallyOfOther(c: Config, s: State, t: Tid, a: Action, s': State, u: Tid, k: nat, n: nat, n': nat)
    requires k < CLASSES && t != u && TalliedOn(c, s, t, a, s', u, k, n, n')
    ensures n' == n
  {}

  // ---------------------------------------------------------------- the counters are the releases

  lemma CountersStep(c: Config, main: Tid, s: State, t: Tid, a: Action, s': State)
    requires Step(c, main, s, t, a, s')
    ensures !a.Release? ==> s'.counts == s.counts
    ensures a.Release? ==>
              && a.x in s.matter.infos
              && var k, n := ClassOf(s.matter, a.x), CountsOf(s.counts, t);
                 && s'.counts == s.counts[t := CountRelease(t == main, n, k, c.table[k])]
                 && (BeginsFlush(t, a, s') <==> FlushDue(t == main, n, k, c.table[k]))
  {
    hide Shift, Delivered, Claimed, Live, CarveEffect, Touches, Unlinked, LaneOf, LocalStage, RefillStage, CarveStage,
      CarvedStock, Logarithm2, HeaderOk, TakeLane, PutBack, MoveAll, Headers, TotalSize, CountsOf, CountRelease,
      FlushDue, Donate, ExitIds;
  }

  /** After any run each counter of each thread is the number of its releases of that class since its last flush, and
      those of the main thread are within the batch sizes. */
  lemma {:induction false} CountersAreReleases(c: Config, main: Tid, r: Run, i: nat, u: Tid, k: nat)
    requires IsRun(c, main, r) && i < |r.states| && k < CLASSES
    ensures |r.states| == |r.events| + 1 && CountsOf(r.states[i].counts, u)[k] == FreedSince(r, u, i, k)
    ensures FreedSince(r, main, i, k) <= c.table[k]
    decreases i, u != main
  {
    hide *;
    RunStart(c, main, r);
    if u != main {
      CountersAreReleases(c, main, r, i, main, k);
    }
    if i == 0 {
      NoneReleased(c, r, u, k);
    } else {
      CountersAreReleases(c, main, r, i - 1, u, k);
      RunStep(c, main, r, i - 1);
      CountersStep(c, main, r.states[i - 1], r.events[i - 1].t, r.events[i - 1].a, r.states[i]);
      CountersOn(c, main, r, i - 1, u, k);
    }
  }

  lemma NoneReleased(c: Config, r: Run, u: Tid, k: nat)
    requires |r.states| == |r.events| + 1 && Protocol.Init(c, r.states[0]) && k < CLASSES
    ensures CountsOf(r.states[0].counts, u)[k] == FreedSince(r, u, 0, k) == 0
  {}

  lemma CountersOn(c: Config, main: Tid, r: Run, i: nat, u: Tid, k: nat)
    requires i < |r.events| && |r.states| == |r.events| + 1 && k < CLASSES
    requires var s, s', e := r.states[i], r.states[i + 1], r.events[i];
             if e.a.Release? then
               && e.a.x in s.matter.infos
               && var j, n := ClassOf(s.matter, e.a.x), CountsOf(s.counts, e.t);
                  && s'.counts == s.counts[e.t := CountRelease(e.t == main, n, j, c.table[j])]
                  && (BeginsFlush(e.t, e.a, s') <==> FlushDue(e.t == main, n, j, c.table[j]))
             else s'.counts == s.counts
    requires CountsOf(r.states[i].counts, u)[k] == FreedSince(r, u, i, k)
    requires u == main ==> FreedSince(r, main, i, k) <= c.table[k]
    ensures CountsOf(r.states[i + 1].counts, u)[k] == FreedSince(r, u, i + 1, k)
    ensures u == main ==> FreedSince(r, main, i + 1, k) <= c.table[k]
  {
    hide ClassOf, PhaseOf;
  }

  // ---------------------------------------------------------------- main results

  lemma PhaseAfterOwnStep(c: Config, main: Tid, s: State, t: Tid, a: Action, s': State)
    requires Step(c, main, s, t, a, s') && t != main && !PhaseOf(s, t).Flushing?
    ensures !PhaseOf(s', t).Flushing?
  {
    hide Shift, Delivered, Claimed, Live, CarveEffect, Touches, Unlinked, LaneOf, LocalStage, RefillStage, CarveStage,
      CarvedStock, Logarithm2, HeaderOk, TakeLane, PutBack, MoveAll, Headers, TotalSize, CountRelease, CountsOf, Donate,
      ExitIds;
  }

  /** Only the main thread flushes: in no reachable state is another thread flushing. */
  lemma {:induction false} OnlyMainFlushes(c: Config, main: Tid, r: Run, i: nat, u: Tid)
    requires IsRun(c, main, r) && i < |r.states| && u != main
    ensures !PhaseOf(r.states[i], u).Flushing?
    decreases i
  {
    hide *;
    RunStart(c, main, r);
    if i == 0 {
      InitNotFlushing(c, r.states[0], u);
    } else {
      OnlyMainFlushes(c, main, r, i - 1, u);
      RunStep(c, main, r, i - 1);
      var s, s', e := r.states[i - 1], r.states[i], r.events[i - 1];
      if e.t == u {
        PhaseAfterOwnStep(c, main, s, u, e.a, s');
      } else {
        PhasesOfOthers(c, main, s, e.t, e.a, s', u);
      }
    }
  }

  lemma InitNotFlushing(c: Config, s: State, u: Tid)
    requires Protocol.Init(c, s)
    ensures !PhaseOf(s, u).Flushing?
  {}

  lemma ReleasePhases(c: Config, main: Tid, s: State, t: Tid, a: Action, s': State)
    requires Step(c, main, s, t, a, s') && a.Release?
    ensures PhaseOf(s, t).Ready? && (PhaseOf(s', t).Flushing? || PhaseOf(s', t) == PhaseOf(s, t))
  {
    hide Shift, Live, Claimed, PutBack, ClassOf, FlushDue, CountRelease, CountsOf;
  }

  lemma ReleaseCounted(c: Config, s: State, t: Tid, isMain: bool, a: Action, s': State, k: nat)
    requires k < CLASSES && Releases(s, a, k)
    requires var j, n := ClassOf(s.matter, a.x), CountsOf(s.counts, t);
             && s'.counts == s.counts[t := CountRelease(isMain, n, j, c.table[j])]
             && (BeginsFlush(t, a, s') <==> FlushDue(isMain, n, j, c.table[j]))
    ensures var n, n' := CountsOf(s.counts, t), CountsOf(s'.counts, t);
            if isMain && n[k] + 1 > c.table[k] then
              PhaseOf(s', t).Flushing? && forall j :: 0 <= j < CLASSES ==> n'[j] == 0
            else
              !PhaseOf(s', t).Flushing? && n' == n[k := n[k] + 1]
  {
    hide ClassOf, PhaseOf;
  }

  /** A release of class `k` by any other thread leaves it ready for the next call, with one more release counted in
      that class and the other counters as they were. */
  lemma WorkersCount(c: Config, main: Tid, r: Run, i: nat, k: nat)
    requires IsRun(c, main, r) && i < |r.events| && k < CLASSES && |r.states| == |r.events| + 1
    requires r.events[i].t != main && Releases(r.states[i], r.events[i].a, k)
    ensures var u, s, s' := r.events[i].t, r.states[i], r.states[i + 1];
            && PhaseOf(s', u) == PhaseOf(s, u) && PhaseOf(s', u).Ready?
            && CountsOf(s'.counts, u) == CountsOf(s.counts, u)[k := CountsOf(s.counts, u)[k] + 1]
  {
    hide *;
    var u, s, s', a := r.events[i].t, r.states[i], r.states[i + 1], r.events[i].a;
    RunStep(c, main, r, i);
    ReleaseOf(s, a, k);
    CountersStep(c, main, s, u, a, s');
    ReleasePhases(c, main, s, u, a, s');
    ReleaseCounted(c, s, u, u == main, a, s', k);
  }

  /** The main thread's releases. A release of class `k` that makes one more than a batch of them since its last flush
      clears all counters and begins a flush; any other is counted, like those of other threads. */
  lemma MainCounts(c: Config, main: Tid, r: Run, i: nat, k: nat)
    requires IsRun(c, main, r) && i < |r.events| && k < CLASSES && |r.states| == |r.events| + 1
    requires r.events[i].t == main && Releases(r.states[i], r.events[i].a, k)
    ensures var s, s', n := r.states[i], r.states[i + 1], CountsOf(r.states[i].counts, main);
            if n[k] + 1 > c.table[k] then
              PhaseOf(s', main).Flushing? && forall j :: 0 <= j < CLASSES ==> CountsOf(s'.counts, main)[j] == 0
            else
              PhaseOf(s', main).Ready? && CountsOf(s'.counts, main) == n[k := n[k] + 1]
  {
    hide *;
    var u, s, s', a := r.events[i].t, r.states[i], r.states[i + 1], r.events[i].a;
    RunStep(c, main, r, i);
    ReleaseOf(s, a, k);
    CountersStep(c, main, s, u, a, s');
    ReleasePhases(c, main, s, u, a, s');
    ReleaseCounted(c, s, u, u == main, a, s', k);
  }

  /** A release of class `k` by the main thread begins a flush exactly when the thread has already released one batch
      of that class since its last flush. All of its counters then start anew. */
  lemma FlushBeyondBatch(c: Config, main: Tid, r: Run, i: nat, k: nat)
    requires IsRun(c, main, r) && i < |r.events| && k < CLASSES
    requires r.events[i].t == main && |r.states| == |r.events| + 1 && Releases(r.states[i], r.events[i].a, k)
    ensures PhaseOf(r.states[i + 1], main).Flushing? <==> FreedSince(r, main, i, k) == c.table[k]
    ensures PhaseOf(r.states[i + 1], main).Flushing? <==> CountsOf(r.states[i + 1].counts, main) == Zeros()
  {
    hide *;
    CountersAreReleases(c, main, r, i, main, k);
    RunStep(c, main, r, i);
    CountersStep(c, main, r.states[i], main, r.events[i].a, r.states[i + 1]);
    ReleaseOf(r.states[i], r.events[i].a, k);
    ReleaseFlushes(c, main, r.states[i], r.events[i].a, r.states[i + 1], k);
  }

  lemma ReleaseOf(s: State, a: Action, k: nat)
    requires Releases(s, a, k)
    ensures a.Release? && a.x in s.matter.infos
  {}

  lemma ReleaseFlushes(c: Config, main: Tid, s: State, a: Action, s': State, k: nat)
    requires Releases(s, a, k) && k < CLASSES
    requires var j, n := ClassOf(s.matter, a.x), CountsOf(s.counts, main);
             && n[k] <= c.table[k] && s'.counts == s.counts[main := CountRelease(true, n, j, c.table[j])]
             && (BeginsFlush(main, a, s') <==> FlushDue(true, n, j, c.table[j]))
    ensures PhaseOf(s', main).Flushing? <==> CountsOf(s.counts, main)[k] == c.table[k]
    ensures PhaseOf(s', main).Flushing? <==> CountsOf(s'.counts, main) == Zeros()
  {
    hide ClassOf, PhaseOf;
    if !BeginsFlush(main, a, s') {
      assert CountsOf(s'.counts, main)[k] == CountsOf(s.counts, main)[k] + 1;
    }
  }

  /** Between flushes, the chunks of class `k` that a working thread's heap keeps for other cores are exactly those of
      its own releases and growing reallocations since its last flush and those it found when it acquired the heap. For
      the main thread these releases never exceed the batch size. While it flushes, every list it has passed is
      empty. */
  lemma RemoteBacklogBounded(c: Config, main: Tid, r: Run, i: nat, k: nat, u: Tid)
    requires IsRun(c, main, r) && i < |r.states| && k < CLASSES
    ensures |r.states| == |r.events| + 1
    ensures RemoteFreedSince(r, u, i, k) <= FreedSince(r, u, i, k) == CountsOf(r.states[i].counts, u)[k]
    ensures RemoteFreedSince(r, main, i, k) <= c.table[k]
    ensures var ph, qs := PhaseOf(r.states[i], u), r.states[i].matter.stock.qs;
            && (ph.Ready? || ph.Refilling? || ph.Mapping? ==>
                  Backlog(qs, ph.slot, k, c.coreN)
                  == RemoteFreedSince(r, u, i, k) + RemoteMovedSince(r, u, i, k) + FoundSince(c, r, u, i, k))
            && (ph.Flushing? ==> forall j :: 0 <= j < ph.next && j != ph.slot.core ==>
                  Q(qs, FreeList(ph.slot, j))[k] == [])
  {
    BacklogIsTally(c, main, r, i, u, k);
    CountersAreReleases(c, main, r, i, u, k);
    CountersAreReleases(c, main, r, i, main, k);
    RemoteIsFreed(r, u, i, k);
    RemoteIsFreed(r, main, i, k);
    hide IsRun, Q, Backlog, PhaseOf, CountsOf, FreedSince, RemoteFreedSince, RemoteMovedSince, FoundSince;
  }
}
