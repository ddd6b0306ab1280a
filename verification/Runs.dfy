/** What holds along every run: any number of threads, their steps interleaved in any order. */
module Runs {
  import opened SizeClass
  import opened Bump
  import opened Chunks
  import opened Carving
  import opened Lanes
  import opened SizeTables
  import opened Stocks
  import opened Donations
  import opened Matters
  import opened Protocol
  import opened Invariants
  import opened Safety
  import opened Effects

  datatype Event = Event(t: Tid, a: Action)

  datatype Run = Run(states: seq<State>, events: seq<Event>)

  ghost predicate IsRun(c: Config, main: Tid, r: Run) {
    && ConfigOk(c) && |r.states| == |r.events| + 1 && Protocol.Init(c, r.states[0])
    && forall i :: 0 <= i < |r.events| ==> Step(c, main, r.states[i], r.events[i].t, r.events[i].a, r.states[i + 1])
  }

  lemma RunStep(c: Config, main: Tid, r: Run, i: nat)
    requires IsRun(c, main, r) && i < |r.events|
    ensures ConfigOk(c) && Step(c, main, r.states[i], r.events[i].t, r.events[i].a, r.states[i + 1])
  {
    hide Step, ConfigOk, Protocol.Init;
  }

  lemma RunStart(c: Config, main: Tid, r: Run)
    requires IsRun(c, main, r)
    ensures |r.states| == |r.events| + 1 && Protocol.Init(c, r.states[0])
  {
    hide Step, ConfigOk, Protocol.Init;
  }

  /** Every reachable state satisfies the invariant. */
  lemma {:induction false} RunKeepsInv(c: Config, main: Tid, r: Run, i: nat)
    requires IsRun(c, main, r) && i < |r.states|
    ensures Inv(c, r.states[i])
    decreases i
  {
    hide *;
    RunStart(c, main, r);
    if i == 0 {
      InitInv(c, r.states[0]);
    } else {
      RunKeepsInv(c, main, r, i - 1);
      RunStep(c, main, r, i - 1);
      StepKeepsInv(c, main, r.states[i - 1], r.events[i - 1].t, r.events[i - 1].a, r.states[i]);
    }
  }

  /** Every step of a run has the effect stated for its action. */
  lemma RunEffect(c: Config, main: Tid, r: Run, i: nat)
    requires IsRun(c, main, r) && i < |r.events|
    ensures |r.states| == |r.events| + 1
    ensures Effect(c, r.states[i], r.events[i].t, r.events[i].a, r.states[i + 1])
    ensures Inv(c, r.states[i]) && Inv(c, r.states[i + 1])
  {
    hide *;
    RunStart(c, main, r);
    RunStep(c, main, r, i);
    RunKeepsInv(c, main, r, i);
    RunKeepsInv(c, main, r, i + 1);
    StepEffect(c, main, r.states[i], r.events[i].t, r.events[i].a, r.states[i + 1]);
  }

  // ---------------------------------------------------------------- partition

  /** `a` sits at some position of class `k` of queue manager `id`. */
  predicate Listed(qs: QueueTable, a: Addr, id: QueueId, k: nat) { k < CLASSES && a in Q(qs, id)[k] }

  /** No queue manager lists `a`. */
  ghost predicate Unlisted(qs: QueueTable, a: Addr) { forall id, k: nat :: !Listed(qs, a, id, k) }

  /** `a` has at most one position in all queues. */
  ghost predicate AtMostOneSeat(qs: QueueTable, a: Addr) {
    forall id, k, j, id', k', j' ::
      SitsAt(qs, a, id, k, j) && SitsAt(qs, a, id', k', j') ==> id == id' && k == k' && j == j'
  }

  /** Where `a` is listed it belongs: the queue manager exists and is of the chunk's home core, and the class is
      the one of its body size. */
  ghost predicate WellListed(c: Config, m: Matter, a: Addr) {
    forall id, k: nat :: Listed(m.stock.qs, a, id, k) ==>
      && a in m.infos && ValidId(c, id)
      && m.infos[a].core == Home(id) && m.infos[a].size == Pow2(k) && c.table[k] > 0
  }

  /** In every reachable state a carved chunk is either live and in no queue, or it sits at exactly one
      position of exactly one class of one queue; that queue exists, belongs to the chunk's home core, and
      the class is that of the chunk's body size. Nothing but carved chunks is ever queued. */
  lemma ChunkPartition(c: Config, main: Tid, r: Run, i: nat, a: Addr)
    requires IsRun(c, main, r) && i < |r.states|
    ensures var s := r.states[i];
            && (a in s.matter.infos ==> (Live(s, a) <==> Unlisted(s.matter.stock.qs, a)))
            && AtMostOneSeat(s.matter.stock.qs, a) && WellListed(c, s.matter, a)
  {
    hide *;
    RunKeepsInv(c, main, r, i);
    PartitionOf(c, r.states[i], a);
  }

  lemma PartitionOf(c: Config, s: State, a: Addr)
    requires Inv(c, s)
    ensures a in s.matter.infos ==> (Live(s, a) <==> Unlisted(s.matter.stock.qs, a))
    ensures AtMostOneSeat(s.matter.stock.qs, a) && WellListed(c, s.matter, a)
  {
    hide *;
    var m := s.matter;
    InvMatter(c, s);
    MatterParts(c, m);
    OneSeat(m, a);
    if a in m.infos {
      WholeAt(c, m, a);
    }
    ListedWhere(c, m, a);
    LiveUnlisted(c, s, a);
  }

  lemma OneSeat(m: Matter, a: Addr)
    requires Tracked(m.stock) && Homed(m.stock.places, m.infos)
    ensures AtMostOneSeat(m.stock.qs, a)
  {
    hide Tracked, Homed, SitsAt;
    ExactlyOnePlace(m.stock, m.infos, a);
  }

  lemma ListedMeans(st: Stock, a: Addr, id: QueueId, k: nat)
    requires Tracked(st) && k < CLASSES
    ensures Listed(st.qs, a, id, k) <==> a in st.places && st.places[a] == In(id, k)
  {
    assert Housed(st.places, id, Q(st.qs, id));
    assert Placed(st.places, In(id, k), Q(st.qs, id)[k]);
  }

  lemma ListedClass(st: Stock, a: Addr, id: QueueId, k: nat)
    requires Listed(st.qs, a, id, k)
    ensures k < CLASSES
  {}

  lemma ListedWhere(c: Config, m: Matter, a: Addr)
    requires Tracked(m.stock) && Homed(m.stock.places, m.infos) && Situated(c, m.stock.places, m.infos)
    requires a in m.infos ==> m.infos[a].size == Pow2(Logarithm2(m.infos[a].size))
    ensures WellListed(c, m, a)
  {
    hide Tracked, Listed, Logarithm2, Pow2;
    forall id, k: nat | Listed(m.stock.qs, a, id, k)
      ensures a in m.infos && ValidId(c, id) && m.infos[a].core == Home(id) && m.infos[a].size == Pow2(k)
      ensures k < CLASSES && c.table[k] > 0
    {
      ListedClass(m.stock, a, id, k);
      ListedMeans(m.stock, a, id, k);
    }
  }

  lemma LiveUnlisted(c: Config, s: State, a: Addr)
    requires Tracked(s.matter.stock) && Homed(s.matter.stock.places, s.matter.infos)
    requires Situated(c, s.matter.stock.places, s.matter.infos)
    ensures a in s.matter.infos ==> (Live(s, a) <==> Unlisted(s.matter.stock.qs, a))
  {
    var st := s.matter.stock;
    hide Tracked, Listed, Logarithm2;
    if a in s.matter.infos {
      if st.places[a].In? {
        ListedMeans(st, a, st.places[a].id, st.places[a].cls);
      }
      forall id, k: nat | Listed(st.qs, a, id, k) ensures st.places[a].In? {
        ListedClass(st, a, id, k);
        ListedMeans(st, a, id, k);
      }
    }
  }

  lemma EffectKeepsInfos(c: Config, s: State, t: Tid, a: Action, s': State)
    requires Effect(c, s, t, a, s')
    ensures InfosFrame(s.matter.infos, s'.matter.infos)
  {
    hide Confined, Fresh, Gone, Given, OrderOf, InfosFrame;
  }

  lemma InfosFrameTransitive(i0: Infos, i1: Infos, i2: Infos)
    requires InfosFrame(i0, i1) && InfosFrame(i1, i2)
    ensures InfosFrame(i0, i2)
  {}

  /** No chunk is ever lost: once carved it stays known, with its core and size, and so by the partition it is
      live or queued for ever after. */
  lemma {:induction false} NothingIsLost(c: Config, main: Tid, r: Run, i: nat, j: nat)
    requires IsRun(c, main, r) && i <= j < |r.states|
    ensures InfosFrame(r.states[i].matter.infos, r.states[j].matter.infos)
    decreases j
  {
    hide *;
    RunStart(c, main, r);
    if i < j {
      NothingIsLost(c, main, r, i, j - 1);
      RunEffect(c, main, r, j - 1);
      EffectKeepsInfos(c, r.states[j - 1], r.events[j - 1].t, r.events[j - 1].a, r.states[j]);
      InfosFrameTransitive(r.states[i].matter.infos, r.states[j - 1].matter.infos, r.states[j].matter.infos);
    } else {
      SameInfos(r.states[i].matter.infos);
    }
  }

  /** A class that the table does not serve has no chunk, ever: none is queued in it and none was carved for it. */
  lemma DisabledClassesStayEmpty(c: Config, main: Tid, r: Run, i: nat, id: QueueId, k: nat)
    requires IsRun(c, main, r) && i < |r.states| && k < CLASSES && c.table[k] == 0
    ensures Q(r.states[i].matter.stock.qs, id)[k] == []
    ensures forall a :: a in r.states[i].matter.infos ==> Logarithm2(r.states[i].matter.infos[a].size) != k
  {
    var m := r.states[i].matter;
    RunKeepsInv(c, main, r, i);
    InvMatter(c, r.states[i]);
    hide IsRun, Inv, MatterOk, Tracked, Homed, Logarithm2, Q;
    MatterParts(c, m);
    if Q(m.stock.qs, id)[k] != [] {
      var a := Q(m.stock.qs, id)[k][0];
      assert Listed(m.stock.qs, a, id, k);
      PartitionOf(c, r.states[i], a);
      assert false;
    }
  }

  // ---------------------------------------------------------------- layout

  /** In every reachable state the chunks, header and body together, are pairwise disjoint, over all pools,
      extensions and carves; each lies inside one mapped region; headers and bodies are 16-aligned; and each
      header, found 48 bytes before its body, still says what was recorded when the chunk was carved. */
  lemma ChunksNeverOverlap(c: Config, main: Tid, r: Run, i: nat, a: Addr, b: Addr)
    requires IsRun(c, main, r) && i < |r.states|
    requires a in r.states[i].matter.infos && b in r.states[i].matter.infos && a != b
    ensures var m := r.states[i].matter;
            && (a + 48 + m.infos[a].size <= b || b + 48 + m.infos[b].size <= a)
            && a > 0 && a % 16 == 0 && (a + 48) % 16 == 0
            && (exists g :: g in m.bump.mapped && Inside(Range(a, 48 + m.infos[a].size), g))
            && Read(m.words, a) == 0xDEADC0DE && Read(m.words, a + 8) == m.infos[a].core
            && Read(m.words, a + 24) == m.infos[a].size && Read(m.words, a + 40) == a + 48
  {
    hide *;
    RunKeepsInv(c, main, r, i);
    InvMatter(c, r.states[i]);
    WholeAt(c, r.states[i].matter, a);
    HeaderMeans(r.states[i].matter.words, a, r.states[i].matter.infos[a]);
    LayoutOf(c, r.states[i].matter, a, b);
  }

  lemma HeaderMeans(w: Words, a: Addr, info: Info)
    requires HeaderOk(w, a, info) && InfoOk(a, info)
    ensures a > 0 && a % 16 == 0 && (a + 48) % 16 == 0
    ensures Read(w, a) == 0xDEADC0DE && Read(w, a + 8) == info.core
    ensures Read(w, a + 24) == info.size && Read(w, a + 40) == a + 48
  {
    hide Logarithm2, Pow2;
  }

  lemma LayoutOf(c: Config, m: Matter, a: Addr, b: Addr)
    requires MatterOk(c, m) && a in m.infos && b in m.infos && a != b
    ensures a + 48 + m.infos[a].size <= b || b + 48 + m.infos[b].size <= a
    ensures exists g :: g in m.bump.mapped && Inside(Range(a, 48 + m.infos[a].size), g)
  {
    hide Tracked, Homed, Whole, Unlinked, Situated, ArenasOk, OffsetsPaged;
    assert Apart(m.infos, a, b);
    var g :| 0 <= g < |m.bump.granted| && Inside(Range(a, HEADER + m.infos[a].size), m.bump.granted[g].range);
    var q :| q in m.bump.mapped && Inside(m.bump.granted[g].range, q);
    assert Inside(Range(a, HEADER + m.infos[a].size), q);
  }

  // ---------------------------------------------------------------- contents

  lemma NotWritten(c: Config, s: State, t: Tid, a: Action, s': State, x: Addr)
    requires Live(s, x) && !(a.Write? && a.x == x)
    ensures x !in Written(s, a, s')
  {
    LiveMeans(s);
    hide LiveSet, Live;
  }

  lemma BodyOutside(m: Matter, m': Matter, ids: set<QueueId>, written: set<Addr>, x: Addr)
    requires Confined(m, m', ids, written) && x in m.infos && x !in written
    ensures SameBody(m.words, m'.words, x, m.infos[x].size)
  {
    hide Q;
  }

  lemma LiveKnown(c: Config, s: State, x: Addr)
    requires Inv(c, s) && Live(s, x)
    ensures x in s.matter.infos
  {
    InvMatter(c, s);
    hide Inv, MatterOk, Tracked, Homed, Situated;
    MatterParts(c, s.matter);
    HomedKeys(s.matter.stock.places, s.matter.infos);
  }

  lemma EffectParts(c: Config, s: State, t: Tid, a: Action, s': State)
    requires Effect(c, s, t, a, s')
    ensures Confined(s.matter, s'.matter, Grip(c, s, t, a), Written(s, a, s')) && Accounted(s, t, a, s')
  {
    hide Confined, Accounted;
  }

  lemma InfosFrameAt(i: Infos, i': Infos, x: Addr)
    requires InfosFrame(i, i') && x in i
    ensures x in i' && i'[x] == i[x]
  {}

  lemma StepKeepsBody(c: Config, s: State, t: Tid, a: Action, s': State, x: Addr)
    requires Inv(c, s) && Effect(c, s, t, a, s') && Live(s, x) && !(a.Write? && a.x == x)
    ensures x in s.matter.infos && x in s'.matter.infos && s'.matter.infos[x] == s.matter.infos[x]
    ensures SameBody(s.matter.words, s'.matter.words, x, s.matter.infos[x].size)
  {
    hide *;
    EffectParts(c, s, t, a, s');
    EffectKeepsInfos(c, s, t, a, s');
    LiveKnown(c, s, x);
    InfosFrameAt(s.matter.infos, s'.matter.infos, x);
    NotWritten(c, s, t, a, s', x);
    BodyOutside(s.matter, s'.matter, Grip(c, s, t, a), Written(s, a, s'), x);
  }

  /** While a block stays live, no step of the allocator changes a word of its body: only a client's own
      write to that block does. */
  lemma {:induction false} ContentsSurvive(c: Config, main: Tid, r: Run, i: nat, j: nat, x: Addr)
    requires IsRun(c, main, r) && i <= j < |r.states| && x in r.states[i].matter.infos
    requires forall k :: i <= k < j ==> Live(r.states[k], x)
    requires forall k :: i <= k < j < |r.states| && k < |r.events| ==> !(r.events[k].a.Write? && r.events[k].a.x == x)
    ensures x in r.states[j].matter.infos && r.states[j].matter.infos[x] == r.states[i].matter.infos[x]
    ensures SameBody(r.states[i].matter.words, r.states[j].matter.words, x, r.states[i].matter.infos[x].size)
    decreases j
  {
    hide IsRun, Inv, Effect, Live;
    if i < j {
      RunStart(c, main, r);
      ContentsSurvive(c, main, r, i, j - 1, x);
      RunEffect(c, main, r, j - 1);
      StepKeepsBody(c, r.states[j - 1], r.events[j - 1].t, r.events[j - 1].a, r.states[j], x);
      SameBodyTransitive(r.states[i].matter.words, r.states[j - 1].matter.words, r.states[j].matter.words, x,
                         r.states[i].matter.infos[x].size);
    }
  }

  lemma SameBodyTransitive(w0: Words, w1: Words, w2: Words, x: Addr, size: nat)
    requires SameBody(w0, w1, x, size) && SameBody(w1, w2, x, size)
    ensures SameBody(w0, w2, x, size)
  {
    forall off | HEADER <= off < HEADER + size ensures Field(w2, x, off) == Field(w0, x, off) {
      assert Field(w1, x, off) == Field(w0, x, off);
    }
  }

  // ---------------------------------------------------------------- exclusive access

  /** The queues a step works on belong to the heap its thread owns, or to an idle heap while the heap table
      is locked, or are the one common pool whose mutex the step holds. */
  lemma GripIsLocked(c: Config, s: State, t: Tid, a: Action, id: QueueId)
    requires id in Grip(c, s, t, a)
    ensures Locked(s, t, a, id)
  {
    hide PhaseOf;
  }

  /** Thread `t` may work on queue manager `id` during step `a`. */
  predicate Locked(s: State, t: Tid, a: Action, id: QueueId) {
    match id
    case Pool(k) =>
      (a.Refill? && PhaseOf(s, t).Refilling? && k == PhaseOf(s, t).slot.core)
      || (a.Flush? && PhaseOf(s, t).Flushing? && k == PhaseOf(s, t).next)
    case Mal(b) => b in Slots(PhaseOf(s, t)) || ((a.Exit? || a.Return?) && b !in s.busy)
    case FreeList(b, k) => b in Slots(PhaseOf(s, t))
  }

  /** Each class of `id` keeps its sequence, and the chunks in it their next words. */
  ghost predicate SameQueue(m: Matter, m': Matter, id: QueueId) {
    && Q(m'.stock.qs, id) == Q(m.stock.qs, id)
    && forall k: nat, x: Addr :: Listed(m.stock.qs, x, id, k) ==> Next(m'.words, x) == Next(m.words, x)
  }

  /** A step leaves every queue manager alone that it has no lock for: a common pool changes only under its own mutex,
      a heap's lists only by the thread that owns the heap, or, when idle, under the lock of the heap table. */
  lemma QueuesUndisturbed(c: Config, main: Tid, r: Run, i: nat, id: QueueId)
    requires IsRun(c, main, r) && i < |r.events| && |r.states| == |r.events| + 1
    requires !Locked(r.states[i], r.events[i].t, r.events[i].a, id)
    ensures SameQueue(r.states[i].matter, r.states[i + 1].matter, id)
  {
    var s, s', t, a := r.states[i], r.states[i + 1], r.events[i].t, r.events[i].a;
    hide *;
    RunStep(c, main, r, i);
    RunEffect(c, main, r, i);
    if id in Grip(c, s, t, a) {
      GripIsLocked(c, s, t, a, id);
    }
    EffectParts(c, s, t, a, s');
    InvMatter(c, s);
    MatterParts(c, s.matter);
    HomedKeys(s.matter.stock.places, s.matter.infos);
    ConfinedQueue(s.matter, s'.matter, Grip(c, s, t, a), Written(s, a, s'), id);
  }

  lemma ConfinedQueue(m: Matter, m': Matter, ids: set<QueueId>, written: set<Addr>, id: QueueId)
    requires Confined(m, m', ids, written) && id !in ids && Tracked(m.stock) && m.stock.places.Keys == m.infos.Keys
    ensures SameQueue(m, m', id)
  {
    hide Q, Tracked, Listed;
    forall k: nat, x: Addr | Listed(m.stock.qs, x, id, k)
      ensures Next(m'.words, x) == Next(m.words, x)
    {
      ListedClass(m.stock, x, id, k);
      ListedMeans(m.stock, x, id, k);
      assert !Movable(m.stock.places, ids, x);
    }
  }

  /** Every chunk in the queues of heap `b` keeps its next word. */
  ghost predicate SameLinks(m: Matter, m': Matter, b: Slot) {
    forall id, k: nat, x: Addr :: OfHeap(id, b) && Listed(m.stock.qs, x, id, k) ==>
      Next(m'.words, x) == Next(m.words, x)
  }

  predicate OfHeap(id: QueueId, b: Slot) { !id.Pool? && id.slot == b }

  /** At most one thread owns a heap, and a step of one thread leaves every heap that another thread owns as it
      is: the sequences of its queues, the links of the chunks in them, and what its owner is doing. */
  lemma OthersUndisturbed(c: Config, main: Tid, r: Run, i: nat, u: Tid, b: Slot)
    requires IsRun(c, main, r) && i < |r.events| && |r.states| == |r.events| + 1
    requires u != r.events[i].t && b in Slots(PhaseOf(r.states[i], u))
    ensures b !in Slots(PhaseOf(r.states[i], r.events[i].t)) && b in r.states[i].busy
    ensures PhaseOf(r.states[i + 1], u) == PhaseOf(r.states[i], u) && b in r.states[i + 1].busy
    ensures SameHeap(r.states[i].matter.stock, r.states[i + 1].matter.stock, b)
    ensures SameLinks(r.states[i].matter, r.states[i + 1].matter, b)
  {
    var s, s', t, a := r.states[i], r.states[i + 1], r.events[i].t, r.events[i].a;
    hide *;
    RunStep(c, main, r, i);
    RunEffect(c, main, r, i);
    OtherHeap(c, s, t, u, b);
    PhasesOfOthers(c, main, s, t, a, s', u);
    OtherHeap(c, s', t, u, b);
    forall id | id in Grip(c, s, t, a) ensures !OfHeap(id, b) {
      NotLocked(s, t, a, id, b);
      GripIsLocked(c, s, t, a, id);
    }
    Undisturbed(c, s, t, a, s', b);
  }

  lemma OtherHeap(c: Config, s: State, t: Tid, u: Tid, b: Slot)
    requires Inv(c, s) && t != u && b in Slots(PhaseOf(s, u))
    ensures b !in Slots(PhaseOf(s, t)) && b in s.busy
  {
    hide MatterOk, ClaimsOk, PhasesOk, PhaseOf;
    OtherSlots(c, s, t);
  }

  lemma PhasesOfOthers(c: Config, main: Tid, s: State, t: Tid, a: Action, s': State, u: Tid)
    requires Step(c, main, s, t, a, s') && u != t
    ensures PhaseOf(s', u) == PhaseOf(s, u)
  {
    hide Shift, Delivered, Claimed, Live, CarveEffect, Touches, Unlinked, LaneOf, LocalStage, RefillStage, CarveStage,
      CarvedStock, Logarithm2, HeaderOk, TakeLane, PutBack, MoveAll, Headers, TotalSize;
  }

  /** A step is not locked for the heap of another thread. */
  lemma NotLocked(s: State, t: Tid, a: Action, id: QueueId, b: Slot)
    requires b in s.busy && b !in Slots(PhaseOf(s, t))
    ensures OfHeap(id, b) ==> !Locked(s, t, a, id)
  {
    hide PhaseOf;
  }

  lemma Undisturbed(c: Config, s: State, t: Tid, a: Action, s': State, b: Slot)
    requires Inv(c, s) && Effect(c, s, t, a, s')
    requires forall id :: id in Grip(c, s, t, a) ==> !OfHeap(id, b)
    ensures SameHeap(s.matter.stock, s'.matter.stock, b) && SameLinks(s.matter, s'.matter, b)
  {
    hide *;
    EffectParts(c, s, t, a, s');
    InvMatter(c, s);
    MatterParts(c, s.matter);
    HomedKeys(s.matter.stock.places, s.matter.infos);
    ConfinedHeap(s.matter, s'.matter, Grip(c, s, t, a), Written(s, a, s'), b);
    ConfinedLinks(s.matter, s'.matter, Grip(c, s, t, a), Written(s, a, s'), b);
  }

  lemma ConfinedHeap(m: Matter, m': Matter, ids: set<QueueId>, written: set<Addr>, b: Slot)
    requires Confined(m, m', ids, written) && forall id :: id in ids ==> !OfHeap(id, b)
    ensures SameHeap(m.stock, m'.stock, b)
  {
    hide Touches, Q;
    assert OfHeap(Mal(b), b);
    forall k ensures Q(m'.stock.qs, FreeList(b, k)) == Q(m.stock.qs, FreeList(b, k)) {
      assert OfHeap(FreeList(b, k), b);
    }
  }

  lemma ConfinedLinks(m: Matter, m': Matter, ids: set<QueueId>, written: set<Addr>, b: Slot)
    requires Confined(m, m', ids, written) && forall id :: id in ids ==> !OfHeap(id, b)
    requires Tracked(m.stock) && m.stock.places.Keys == m.infos.Keys
    ensures SameLinks(m, m', b)
  {
    hide Confined, Q, Tracked, OfHeap, Listed;
    forall id, k: nat, x: Addr | OfHeap(id, b) && Listed(m.stock.qs, x, id, k)
      ensures Next(m'.words, x) == Next(m.words, x)
    {
      ConfinedQueue(m, m', ids, written, id);
    }
  }
}
