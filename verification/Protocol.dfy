/** Threads over the shared allocator, step by step. A thread's step is either work on the heap it owns,
    or one region under a mutex: the heap table, one common pool, or one mapped-memory pool. Runs
    interleave the steps of any number of threads in any order (src/fcmalloc.cpp, src/global_memory_manager.cpp,
    src/local_memory_manager.cpp). */
module Protocol {
  import opened SizeClass
  import opened Bump
  import opened Chunks
  import opened Carving
  import opened Lanes
  import opened SizeTables
  import opened Stocks
  import opened Donations
  import opened Matters

  type Tid = nat

  /** Where a thread is. `moving` is the block of a growing reallocation in progress, if any. */
  datatype Phase =
    | Unborn                                                  // has not called the allocator
    | Detached                                                // `lp` is null
    | Ready(slot: Slot)                                       // owns a heap, between calls
    | Refilling(slot: Slot, size: nat, moving: seq<Addr>)     // its own lists were empty
    | Mapping(slot: Slot, size: nat, moving: seq<Addr>)       // the common pool was empty, too
    | Flushing(slot: Slot, next: nat)                         // handing remote lists to the common pools
    | Borrowing(slot: Slot, chunk: Addr)                      // a release without a heap of its own
    | Returning(slot: Slot)                                   // and giving the borrowed heap back

  /** The heaps a thread owns. */
  function Slots(ph: Phase): set<Slot> { if ph.Unborn? || ph.Detached? then {} else {ph.slot} }

  /** The live blocks a thread has passed to a call that is still in progress. */
  function Claims(ph: Phase): set<Addr> {
    match ph
    case Refilling(_, _, m) => Elements(m)
    case Mapping(_, _, m) => Elements(m)
    case Borrowing(_, x) => {x}
    case _ => {}
  }

  /** A counter per class. */
  type Counters = t: seq<nat> | |t| == CLASSES witness seq(CLASSES, _ => 0)

  function Zeros(): Counters { seq(CLASSES, _ => 0) }

  /** A release of class `k`, with batch size `n`, makes its thread flush. */
  predicate FlushDue(isMain: bool, counts: Counters, k: nat, n: nat)
    requires k < CLASSES
  {
    isMain && counts[k] + 1 > n
  }

  /** The counters after it. */
  function CountRelease(isMain: bool, counts: Counters, k: nat, n: nat): Counters
    requires k < CLASSES
  {
    if FlushDue(isMain, counts, k, n) then Zeros() else counts[k := counts[k] + 1]
  }

  /** `busy` are the set flags of the heap table; `counts` each thread's `cntsPerSize`. */
  datatype State = State(phases: map<Tid, Phase>, busy: set<Slot>, matter: Matter, counts: map<Tid, Counters>)

  function PhaseOf(s: State, t: Tid): Phase { if t in s.phases then s.phases[t] else Unborn }

  function CountsOf(m: map<Tid, Counters>, t: Tid): Counters { if t in m then m[t] else Zeros() }

  predicate Claimed(s: State, x: Addr) { exists t :: t in s.phases && x in Claims(s.phases[t]) }

  predicate Live(s: State, x: Addr) { x in s.matter.stock.places && s.matter.stock.places[x].Out? }

  // ---------------------------------------------------------------- actions

  datatype Action =
    | Acquire(core: nat, i: nat)        // first call of a thread; `i` is the slot found, `poolN` if all are busy
    | Request(size: nat)                // malloc, up to and including its look at the heap's own lists
    | Refill                            // its look at the common pool
    | Map(p: nat, region: nat)          // its carve
    | Release(x: Addr)                  // free
    | Flush                             // one common pool's share of a flush
    | Resize(x: Addr, size: nat)        // realloc
    | Exit                              // the thread ends
    | Borrow(x: Addr, i: nat)           // free without a heap: take one of the chunk's core
    | Deposit                           // queue the chunk there
    | Return                            // give the heap back
    | Write(x: Addr, off: nat, v: nat)  // a client writes to one of its blocks

  function HomeList(m: Matter, slot: Slot, x: Addr): QueueId
    requires x in m.infos
  {
    FreeList(slot, m.infos[x].core)
  }

  function ClassOf(m: Matter, x: Addr): (k: nat)
    requires x in m.infos
    ensures k < CLASSES
  {
    Logarithm2(m.infos[x].size)
  }

  /** The state once a request has its chunk: a reallocation also queues the old block. */
  function Finish(s: State, t: Tid, slot: Slot, moving: seq<Addr>, st: Stock, infos: Infos): State
    requires moving != [] ==> moving[0] in infos
  {
    if moving == [] then
      s.(matter := s.matter.(stock := st), phases := s.phases[t := Ready(slot)])
    else
      var x := moving[0];
      var c := Logarithm2(infos[x].size);
      s.(matter := s.matter.(stock := PutBack(st, FreeList(slot, infos[x].core), c, x)),
         phases := s.phases[t := Ready(slot)])
  }

  /** The words after a request found chunk `y`: the old block of a reallocation is copied into it. */
  ghost predicate Delivered(m: Matter, w': Words, st: Stock, infos: Infos, slot: Slot, moving: seq<Addr>, y: Addr,
                            ids: set<QueueId>)
    requires moving != [] ==> moving[0] in infos
  {
    && Touches(m.words, w', m.stock.places, m.infos,
               ids + (if moving == [] then {} else {FreeList(slot, infos[moving[0]].core)}),
               if moving == [] then {} else {y})
    && Unlinked(w', st.places)
    && (moving != [] ==> SameContents(m.words, moving[0], w', y, infos[moving[0]].size))
  }

  /** What a heap looks into on its own, and under its core's pool mutex. */
  function OwnIds(slot: Slot): set<QueueId> { {Mal(slot), FreeList(slot, slot.core)} }

  function PoolIds(slot: Slot): set<QueueId> { {Mal(slot), Pool(slot.core)} }

  /** One look for a chunk in the queues `ids`: with a chunk the request is finished, without one it goes on
      in phase `on`. */
  ghost predicate Look(s: State, s': State, t: Tid, slot: Slot, size: nat, moving: seq<Addr>, r: Attempt, on: Phase,
                       ids: set<QueueId>)
    requires size < TWO_64 && (moving != [] ==> moving[0] in s.matter.infos)
  {
    var st := TakeLane(s.matter.stock, slot, Logarithm2(size), r);
    var w' := s'.matter.words;
    if r.got == [] then
      && s' == s.(matter := s.matter.(stock := st, words := w'), phases := s.phases[t := on])
      && Touches(s.matter.words, w', s.matter.stock.places, s.matter.infos, ids, {})
      && Unlinked(w', st.places)
    else
      var f := Finish(s, t, slot, moving, st, s.matter.infos);
      && s' == f.(matter := f.matter.(words := w'))
      && Delivered(s.matter, w', st, s.matter.infos, slot, moving, r.got[0], ids)
  }

  /** A carve for a request, and its end. */
  ghost predicate MapStep(c: Config, main: Tid, s: State, s': State, t: Tid, slot: Slot, size: nat, moving: seq<Addr>,
                          p: nat, region: nat)
    requires size < TWO_64 && (moving != [] ==> moving[0] in s.matter.infos)
  {
    var k := Logarithm2(size);
    var sq := Headers(p, TotalSize(size), c.table[k]);
    var r := CarveStage(LaneOf(s.matter.stock.qs, slot, k), sq);
    var st := CarvedStock(s.matter.stock, slot, k, sq);
    var m' := s'.matter;
    && CarveEffect(s.matter.infos, s.matter.bump, m'.infos, m'.bump, if t == main then c.coreN else slot.core,
                   slot.core, size, c.table[k], p, region, sq)
    && (forall a :: a in sq ==> HeaderOk(m'.words, a, m'.infos[a]))
    && var from := s.(matter := s.matter.(infos := m'.infos, bump := m'.bump));
       if r.got == [] then
         && s' == from.(matter := from.matter.(stock := st, words := m'.words), phases := s.phases[t := Ready(slot)])
         && Touches(s.matter.words, m'.words, s.matter.stock.places, s.matter.infos, {}, {})
         && Unlinked(m'.words, st.places)
       else
         && (moving != [] ==> moving[0] in m'.infos)
         && var f := Finish(from, t, slot, moving, st, m'.infos);
            && s' == f.(matter := f.matter.(words := m'.words))
            && Delivered(s.matter, m'.words, st, m'.infos, slot, moving, r.got[0], {Mal(slot)})
  }

  /** A stock change with the next words of `ids`. */
  ghost predicate Shift(m: Matter, m': Matter, st: Stock, ids: set<QueueId>) {
    && m' == m.(stock := st, words := m'.words)
    && Touches(m.words, m'.words, m.stock.places, m.infos, ids, {})
    && Unlinked(m'.words, st.places)
  }

  /** A heap goes back to the table: what it freed is handed on, and its flag is cleared. */
  ghost predicate GiveBack(c: Config, s: State, s': State, t: Tid, slot: Slot) {
    && s' == s.(matter := s'.matter, phases := s.phases[t := Detached], busy := s.busy - {slot})
    && Shift(s.matter, s'.matter, Donate(s.matter.stock, s.busy, slot, c.poolN, c.coreN), ExitIds(c, s, slot))
  }

  /** The queue managers a leaving heap changes. */
  ghost function ExitIds(c: Config, s: State, slot: Slot): set<QueueId> { DonateIds(s.busy, slot, c.poolN, c.coreN) }

  /** The steps of thread `t`; `main` is the main thread. */
  ghost predicate Step(c: Config, main: Tid, s: State, t: Tid, a: Action, s': State) {
    var ph := PhaseOf(s, t);
    var m := s.matter;
    match a
    case Acquire(core, i) =>
      && ph == Unborn && core < c.coreN && i <= c.poolN
      && if i < c.poolN then
           && Slot(core, i) !in s.busy
           && s' == s.(phases := s.phases[t := Ready(Slot(core, i))], busy := s.busy + {Slot(core, i)})
         else
           && (forall j :: 0 <= j < c.poolN ==> Slot(core, j) in s.busy)
           && s' == s.(phases := s.phases[t := Detached])
    case Request(size) =>
      && ph.Ready? && 0 < size < TWO_64
      && Look(s, s', t, ph.slot, size, [], LocalStage(LaneOf(m.stock.qs, ph.slot, Logarithm2(size))),
              Refilling(ph.slot, size, []), OwnIds(ph.slot))
    case Resize(x, size) =>
      && ph.Ready? && size < TWO_64 && Live(s, x) && !Claimed(s, x) && x in m.infos
      && if size <= m.infos[x].size then s' == s
         else Look(s, s', t, ph.slot, size, [x], LocalStage(LaneOf(m.stock.qs, ph.slot, Logarithm2(size))),
                   Refilling(ph.slot, size, [x]), OwnIds(ph.slot))
    case Refill =>
      && ph.Refilling? && ph.size < TWO_64 && (ph.moving != [] ==> ph.moving[0] in m.infos)
      && var k := Logarithm2(ph.size);
         Look(s, s', t, ph.slot, ph.size, ph.moving, RefillStage(LaneOf(m.stock.qs, ph.slot, k), c.table[k]),
              Mapping(ph.slot, ph.size, ph.moving), PoolIds(ph.slot))
    case Map(p, region) =>
      && ph.Mapping? && ph.size < TWO_64 && (ph.moving != [] ==> ph.moving[0] in m.infos)
      && MapStep(c, main, s, s', t, ph.slot, ph.size, ph.moving, p, region)
    case Release(x) =>
      && ph.Ready? && Live(s, x) && !Claimed(s, x) && x in m.infos
      && var k := ClassOf(m, x);
         var flush := FlushDue(t == main, CountsOf(s.counts, t), k, c.table[k]);
         && s' == s.(matter := s'.matter,
                     phases := s.phases[t := if flush then Flushing(ph.slot, 0) else Ready(ph.slot)],
                     counts := s.counts[t := CountRelease(t == main, CountsOf(s.counts, t), k, c.table[k])])
         && Shift(m, s'.matter, PutBack(m.stock, HomeList(m, ph.slot, x), k, x), {HomeList(m, ph.slot, x)})
    case Flush =>
      && ph.Flushing? && ph.next < c.coreN
      && s' == s.(matter := s'.matter, phases := s.phases[t := if ph.next + 1 == c.coreN then Ready(ph.slot)
                                                          else Flushing(ph.slot, ph.next + 1)])
      && (if ph.next == ph.slot.core then s'.matter == m
          else Shift(m, s'.matter, MoveAll(m.stock, FreeList(ph.slot, ph.next), Pool(ph.next)),
                     {FreeList(ph.slot, ph.next), Pool(ph.next)}))
    case Exit => ph.Ready? && GiveBack(c, s, s', t, ph.slot)
    case Borrow(x, i) =>
      && ph.Detached? && Live(s, x) && !Claimed(s, x) && x in m.infos && i < c.poolN
      && Slot(m.infos[x].core, i) !in s.busy
      && s' == s.(phases := s.phases[t := Borrowing(Slot(m.infos[x].core, i), x)],
                  busy := s.busy + {Slot(m.infos[x].core, i)})
    case Deposit =>
      && ph.Borrowing? && ph.chunk in m.infos
      && s' == s.(matter := s'.matter, phases := s.phases[t := Returning(ph.slot)])
      && Shift(m, s'.matter, PutBack(m.stock, HomeList(m, ph.slot, ph.chunk), ClassOf(m, ph.chunk), ph.chunk),
               {HomeList(m, ph.slot, ph.chunk)})
    case Return => ph.Returning? && GiveBack(c, s, s', t, ph.slot)
    case Write(x, off, v) =>
      && Live(s, x) && !Claimed(s, x) && x in m.infos && HEADER <= off < HEADER + m.infos[x].size
      && s' == s.(matter := m.(words := m.words[x + off := v]))
  }

  /** No thread has called the allocator, and nothing is carved. */
  ghost predicate Init(c: Config, s: State) {
    && s.phases == map[] && s.busy == {} && s.counts == map[]
    && s.matter.stock == Stock(map[], map[]) && s.matter.infos == map[]
    && Mapped(c, s.matter.bump) && s.matter.bump.granted == []
  }
}
