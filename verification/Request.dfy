/** A whole request as one change of the stock: the four stages of src/local_memory_manager.cpp:40-68 on the
    queues and places of the whole allocator. */
module Requests {
  import opened SizeClass
  import opened Bump
  import opened Chunks
  import opened Carving
  import opened Lanes
  import opened Stocks
  import opened Matters
  import opened Protocol
  import opened Invariants
  import opened Safety

  /** The stock after a request of class `k`, with batch size `n`; `carved` are the chunks carved for it. */
  function Served(st: Stock, slot: Slot, k: nat, n: nat, carved: seq<Addr>): Stock
    requires k < CLASSES
  {
    TakeLane(Arrive(st, carved), slot, k, FourStages(LaneOf(st.qs, slot, k), n, carved))
  }

  /** Carved chunks are distinct and new, and there are none unless the request needs a carve. */
  ghost predicate Carvable(st: Stock, slot: Slot, k: nat, n: nat, carved: seq<Addr>)
    requires k < CLASSES
  {
    && NoDup(carved) && (forall a :: a in carved ==> a !in st.places)
    && (!NeedsCarve(LaneOf(st.qs, slot, k), n) ==> carved == [])
  }

  lemma FourStagesRearrange(st: Stock, slot: Slot, k: nat, n: nat, carved: seq<Addr>)
    requires Tracked(st) && k < CLASSES && Carvable(st, slot, k, n, carved)
    ensures Rearranged(LaneOf(st.qs, slot, k), carved, FourStages(LaneOf(st.qs, slot, k), n, carved))
  {
    var l := LaneOf(st.qs, slot, k);
    LaneTracked(st, slot, k);
    hide Rearranged, Population, FourStages, NoDup, Tracked, LaneOf, NeedsCarve;
    FourStagesConserve(l, n, carved);
    assert Flat(l, []) + carved == Flat(l, carved);
    NoDupConcat(Flat(l, []), carved);
    ConservedRearranged(l, carved, FourStages(l, n, carved));
  }

  lemma ArrivedLane(st: Stock, slot: Slot, k: nat, carved: seq<Addr>)
    requires k < CLASSES
    ensures LaneOf(Arrive(st, carved).qs, slot, k) == LaneOf(st.qs, slot, k)
    ensures forall a :: a in carved ==> a in Arrive(st, carved).places && !Arrive(st, carved).places[a].In?
  {}

  /** The queue managers a request of the heap at `slot` works on. */
  function NearOf(slot: Slot): set<QueueId> { {Mal(slot), FreeList(slot, slot.core), Pool(slot.core)} }

  /** What a carve records about its chunks. */
  ghost predicate Recorded(infos: Infos, infos': Infos, core: nat, k: nat, carved: seq<Addr>) {
    && infos'.Keys == infos.Keys + Elements(carved) && InfosFrame(infos, infos')
    && forall a :: a in carved ==> infos'[a].core == core && Logarithm2(infos'[a].size) == k
  }

  /** A request leaves a sound stock, makes exactly the chunk it serves live, and works on the near queues only. */
  lemma ServedSound(st: Stock, infos: Infos, infos': Infos, slot: Slot, k: nat, n: nat, carved: seq<Addr>)
    requires Sound(st, infos) && k < CLASSES && Carvable(st, slot, k, n, carved)
    requires Recorded(infos, infos', slot.core, k, carved)
    ensures var st', got := Served(st, slot, k, n, carved), FourStages(LaneOf(st.qs, slot, k), n, carved).got;
            && Sound(st', infos') && st'.places.Keys == infos'.Keys && PlacesFrame(st.places, st'.places, NearOf(slot))
            && LiveSet(st'.places) == LiveSet(st.places) + Elements(got)
            && (forall y :: y in got ==> y !in LiveSet(st.places))
  {
    hide *;
    var st1, r := Arrive(st, carved), FourStages(LaneOf(st.qs, slot, k), n, carved);
    SoundParts(st, infos);
    CarvableNew(st, slot, k, n, carved);
    FourStagesRearrange(st, slot, k, n, carved);
    ArrivedLane(st, slot, k, carved);
    ArriveTracked(st, carved);
    RecordedParts(st, infos, infos', slot.core, k, carved);
    ArriveHomed(st, infos, infos', carved);
    TakeLaneTracked(st1, slot, k, r, carved);
    TakeLaneHomed(st1, infos', slot, k, r, carved);
    ArriveLiveSet(st, carved);
    TakeLaneLive(st1, slot, k, r, carved);
    ServedIs(st, slot, k, n, carved);
    ServedPlaces(st, slot, k, n, carved);
    FoldSound(Served(st, slot, k, n, carved), infos');
  }

  lemma ServedIs(st: Stock, slot: Slot, k: nat, n: nat, carved: seq<Addr>)
    requires k < CLASSES
    ensures Served(st, slot, k, n, carved) == TakeLane(Arrive(st, carved), slot, k,
                                                       FourStages(LaneOf(st.qs, slot, k), n, carved))
  {}

  lemma SoundParts(st: Stock, infos: Infos)
    requires Sound(st, infos)
    ensures Tracked(st) && Homed(st.places, infos) && Settled(st) && st.places.Keys == infos.Keys
  {
    hide Tracked;
  }

  lemma FoldSound(st: Stock, infos: Infos)
    requires Tracked(st) && Homed(st.places, infos) && Settled(st)
    ensures Sound(st, infos) && st.places.Keys == infos.Keys
  {
    hide Tracked;
  }

  lemma RecordedParts(st: Stock, infos: Infos, infos': Infos, core: nat, k: nat, carved: seq<Addr>)
    requires Recorded(infos, infos', core, k, carved) && st.places.Keys == infos.Keys && forall a :: a in carved ==>
              a !in st.places
    ensures infos'.Keys == infos.Keys + Elements(carved)
    ensures forall a :: a in infos ==> infos'[a] == infos[a]
    ensures forall a :: a in carved ==> a !in infos && infos'[a].core == core && Logarithm2(infos'[a].size) == k
  {
    hide Logarithm2;
  }

  lemma ServedPlaces(st: Stock, slot: Slot, k: nat, n: nat, carved: seq<Addr>)
    requires Tracked(st) && Settled(st) && k < CLASSES
    requires Rearranged(LaneOf(st.qs, slot, k), carved, FourStages(LaneOf(st.qs, slot, k), n, carved))
    requires forall a :: a in carved ==> a !in st.places
    ensures Settled(Served(st, slot, k, n, carved))
    ensures PlacesFrame(st.places, Served(st, slot, k, n, carved).places, NearOf(slot))
  {
    var l, r := LaneOf(st.qs, slot, k), FourStages(LaneOf(st.qs, slot, k), n, carved);
    var p := Served(st, slot, k, n, carved).places;
    LaneTracked(st, slot, k);
    RearrangedSame(l, carved, r);
    FlatExtra(l, carved);
    hide FourStages, LaneOf, PlaceIn, SetLane, Flat, Rearranged, Tracked, NoDup;
    forall a | a in p
      ensures !p[a].Loose? && (p[a].In? && p[a].id !in NearOf(slot) ==> a in st.places && p[a] == st.places[a])
      ensures a in st.places && st.places[a].In? && st.places[a].id !in NearOf(slot) ==> p[a] == st.places[a]
    {
      PlaceInCases(r.lane, r.got, slot, k, a, if a in st.places then st.places[a] else Loose);
    }
  }

  lemma PlaceInCases(l: Lane, got: seq<Addr>, slot: Slot, k: nat, a: Addr, p: Place)
    requires NoDup(Flat(l, got))
    ensures if a in Flat(l, got) then PlaceIn(l, got, slot, k, a, p) in {Out, In(Mal(slot), k),
                                                                         In(FreeList(slot, slot.core), k),
                                                                         In(Pool(slot.core), k)}
            else PlaceIn(l, got, slot, k, a, p) == p
  {
    FlatParts(l, got);
    hide Flat, NoDup;
  }

  lemma ArriveLiveSet(st: Stock, s: seq<Addr>)
    requires forall a :: a in s ==> a !in st.places
    ensures LiveSet(Arrive(st, s).places) == LiveSet(st.places)
    ensures forall a :: a in s ==> a in Arrive(st, s).places && Arrive(st, s).places[a].Loose?
  {}

  // ---------------------------------------------------------------- a growing reallocation

  /** The stock after a growing reallocation of chunk `x`: a request, and, if it found a chunk, the release of `x`. */
  function Regrown(st: Stock, slot: Slot, k: nat, n: nat, carved: seq<Addr>, x: Addr, info: Info): Stock
    requires k < CLASSES
  {
    var st1 := Served(st, slot, k, n, carved);
    if FourStages(LaneOf(st.qs, slot, k), n, carved).got == [] then st1
    else PutBack(st1, FreeList(slot, info.core), Logarithm2(info.size), x)
  }

  /** A growing reallocation leaves a sound stock; the new chunk is live instead of the old one, or nothing is. */
  lemma RegrownSound(st: Stock, infos: Infos, infos': Infos, slot: Slot, k: nat, n: nat, carved: seq<Addr>, x: Addr)
    requires Sound(st, infos) && k < CLASSES && Carvable(st, slot, k, n, carved)
    requires Recorded(infos, infos', slot.core, k, carved)
    requires x in infos && x in LiveSet(st.places)
    ensures var got := FourStages(LaneOf(st.qs, slot, k), n, carved).got;
            var st' := Regrown(st, slot, k, n, carved, x, infos[x]);
            && Sound(st', infos') && st'.places.Keys == infos'.Keys
            && PlacesFrame(st.places, st'.places, NearOf(slot) + {FreeList(slot, infos[x].core)})
            && LiveSet(st'.places) == LiveSet(st.places) + Elements(got) - (if got == [] then {} else {x})
  {
    hide *;
    var got, st1, home := FourStages(LaneOf(st.qs, slot, k), n, carved).got, Served(st, slot, k, n,
        carved), FreeList(slot, infos[x].core);
    ServedSound(st, infos, infos', slot, k, n, carved);
    RegrownIs(st, slot, k, n, carved, x, infos[x]);
    PlacesFrameWider(st.places, st1.places, NearOf(slot), NearOf(slot) + {home});
    if got != [] {
      StillLive(st, infos, infos', st1, slot, k, carved, x, got);
      PutBackSound(st1, infos', home, Logarithm2(infos[x].size), x);
      PutBackPlaces(st.places, st1, NearOf(slot) + {home}, home, Logarithm2(infos[x].size), x);
    } else {
      NoneTaken(LiveSet(st.places), got);
    }
    SoundParts(Regrown(st, slot, k, n, carved, x, infos[x]), infos');
  }

  lemma RegrownIs(st: Stock, slot: Slot, k: nat, n: nat, carved: seq<Addr>, x: Addr, info: Info)
    requires k < CLASSES
    ensures info.size < TWO_64 && Logarithm2(info.size) < CLASSES
    ensures Regrown(st, slot, k, n, carved, x, info)
            == if FourStages(LaneOf(st.qs, slot, k), n, carved).got == [] then Served(st, slot, k, n, carved)
               else PutBack(Served(st, slot, k, n, carved), FreeList(slot, info.core), Logarithm2(info.size), x)
  {
    hide FourStages, PutBack, Served, LaneOf;
  }

  lemma NoneTaken(live: set<Addr>, got: seq<Addr>)
    requires got == []
    ensures live + Elements(got) - {} == live + Elements(got)
  {}

  lemma PlacesFrameWider(p: Places, p': Places, ids: set<QueueId>, more: set<QueueId>)
    requires PlacesFrame(p, p', ids) && ids <= more
    ensures PlacesFrame(p, p', more)
  {}

  lemma StillLive(st: Stock, infos: Infos, infos': Infos, st1: Stock, slot: Slot, k: nat, carved: seq<Addr>, x: Addr,
                  got: seq<Addr>)
    requires Recorded(infos, infos', slot.core, k, carved) && x in infos && x in LiveSet(st.places)
    requires LiveSet(st1.places) == LiveSet(st.places) + Elements(got)
    ensures x in st1.places && st1.places[x].Out? && infos'[x] == infos[x]
    ensures Home(FreeList(slot, infos[x].core)) == infos[x].core
  {
    assert x in LiveSet(st1.places);
    hide Logarithm2;
  }

  lemma PutBackPlaces(p: Places, st: Stock, ids: set<QueueId>, id: QueueId, c: nat, x: Addr)
    requires c < CLASSES && id in ids && PlacesFrame(p, st.places, ids) && x in st.places && st.places[x].Out?
    ensures PlacesFrame(p, PutBack(st, id, c, x).places, ids)
    ensures LiveSet(PutBack(st, id, c, x).places) == LiveSet(st.places) - {x}
  {
    LiveAfterSet(st.places, x, In(id, c));
    hide PutClass, LiveSet;
  }

  // ---------------------------------------------------------------- the queues determine the places

  /** Queues and live chunks determine every chunk's place: if an operation on the queue managers `ids` has left in them
      what the sound stock `target` lists there, and its chunks and live chunks are those of `target`, then so are all
      places. */
  lemma PlacesDetermined(st: Stock, target: Stock, infos: Infos, places': Places, ids: set<QueueId>)
    requires Sound(target, infos) && PlacesFrame(st.places, target.places, ids) && PlacesFrame(st.places, places', ids)
    requires forall id :: id in ids ==> Housed(places', id, Q(target.qs, id))
    requires places'.Keys == target.places.Keys && LiveSet(places') == LiveSet(target.places)
    ensures places' == target.places
  {
    hide Q, PlacesFrame, LiveSet, Logarithm2;
    forall a | a in places' ensures places'[a] == target.places[a] {
      var p := target.places[a];
      if p.In? && p.id in ids {
        assert Housed(target.places, p.id, Q(target.qs, p.id)) && Housed(places', p.id, Q(target.qs, p.id));
        assert Placed(target.places, p, Q(target.qs, p.id)[p.cls]) && Placed(places', p, Q(target.qs, p.id)[p.cls]);
      } else if p.In? {
        UnmovedPlace(st.places, target.places, places', ids, a);
      } else {
        LivePlace(target.places, places', a);
      }
    }
  }

  lemma UnmovedPlace(places: Places, target: Places, places': Places, ids: set<QueueId>, a: Addr)
    requires PlacesFrame(places, target, ids) && PlacesFrame(places, places', ids)
    requires a in target && target[a].In? && target[a].id !in ids
    ensures a in places' && places'[a] == target[a]
  {
    assert !Movable(target, ids, a);
  }

  lemma LivePlace(target: Places, places': Places, a: Addr)
    requires a in target && a in places' && target[a].Out? && LiveSet(places') == LiveSet(target)
    ensures places'[a] == target[a]
  {
    assert a in LiveSet(target);
  }

  // ---------------------------------------------------------------- a request step by step

  /** The same queues and places. */
  ghost predicate Alike(a: Stock, b: Stock) {
    a.places == b.places && forall id :: Q(a.qs, id) == Q(b.qs, id)
  }

  /** A stage that hands nothing out, followed by another: the second one decides. */
  lemma StageThenStage(st: Stock, slot: Slot, k: nat, a: Attempt, b: Attempt, carved: seq<Addr>)
    requires k < CLASSES && (forall x :: x in carved ==> x !in st.places)
    requires Rearranged(LaneOf(st.qs, slot, k), [], a) && a.got == []
    requires Rearranged(a.lane, carved, b)
    ensures Alike(TakeLane(Arrive(TakeLane(st, slot, k, a), carved), slot, k, b),
                  TakeLane(Arrive(st, carved), slot, k, b))
  {
    hide *;
    var u := TakeLane(Arrive(TakeLane(st, slot, k, a), carved), slot, k, b);
    var v := TakeLane(Arrive(st, carved), slot, k, b);
    SameQueues(st, slot, k, a, b, carved);
    SameOrder(LaneOf(st.qs, slot, k), a, b, carved);
    SamePlaces(st, slot, k, a, b, carved);
    FoldAlike(u, v);
  }

  lemma FoldAlike(u: Stock, v: Stock)
    requires u.places == v.places && forall id :: Q(u.qs, id) == Q(v.qs, id)
    ensures Alike(u, v)
  {
    hide Q;
  }

  lemma SameQueues(st: Stock, slot: Slot, k: nat, a: Attempt, b: Attempt, carved: seq<Addr>)
    requires k < CLASSES
    ensures forall id :: Q(TakeLane(Arrive(TakeLane(st, slot, k, a), carved), slot, k, b).qs, id)
                         == Q(TakeLane(Arrive(st, carved), slot, k, b).qs, id)
  {
    hide TakePlaces;
    forall id ensures Q(SetLane(SetLane(st.qs, slot, k, a.lane), slot, k, b.lane), id)
      == Q(SetLane(st.qs, slot, k, b.lane), id) {
      SetLaneReads(st.qs, slot, k, a.lane, id);
      SetLaneReads(SetLane(st.qs, slot, k, a.lane), slot, k, b.lane, id);
      SetLaneReads(st.qs, slot, k, b.lane, id);
    }
  }

  /** Every chunk of the lane after the first stage is in the lane after the second. */
  lemma SameOrder(l: Lane, a: Attempt, b: Attempt, carved: seq<Addr>)
    requires Rearranged(l, [], a) && a.got == [] && Rearranged(a.lane, carved, b)
    ensures NoDup(Flat(a.lane, a.got)) && NoDup(Flat(b.lane, b.got))
    ensures forall x :: x in Flat(a.lane, a.got) ==> x in Flat(b.lane, b.got)
  {
    FlatExtra(a.lane, carved);
    hide Flat, NoDup;
  }

  lemma SamePlaces(st: Stock, slot: Slot, k: nat, a: Attempt, b: Attempt, carved: seq<Addr>)
    requires k < CLASSES && (forall x :: x in carved ==> x !in st.places)
    requires NoDup(Flat(a.lane, a.got)) && NoDup(Flat(b.lane, b.got))
    requires forall x :: x in Flat(a.lane, a.got) ==> x in Flat(b.lane, b.got)
    ensures TakeLane(Arrive(TakeLane(st, slot, k, a), carved), slot, k, b).places
            == TakeLane(Arrive(st, carved), slot, k, b).places
  {
    var u := TakeLane(Arrive(TakeLane(st, slot, k, a), carved), slot, k, b).places;
    var v := TakeLane(Arrive(st, carved), slot, k, b).places;
    hide SetLane, Flat, NoDup, PlaceIn;
    assert u.Keys == v.Keys;
    forall x | x in u ensures u[x] == v[x] {
      OnePlace(slot, k, a, b, x, if x in st.places && x !in carved then st.places[x] else Loose);
    }
  }

  lemma OnePlace(slot: Slot, k: nat, a: Attempt, b: Attempt, x: Addr, p: Place)
    requires NoDup(Flat(a.lane, a.got)) && NoDup(Flat(b.lane, b.got))
    requires x in Flat(a.lane, a.got) ==> x in Flat(b.lane, b.got)
    ensures PlaceIn(b.lane, b.got, slot, k, x, PlaceIn(a.lane, a.got, slot, k, x, p))
            == PlaceIn(b.lane, b.got, slot, k, x, p)
  {
    PlaceInMeans(a.lane, a.got, slot, k, x, p);
    FlatParts(b.lane, b.got);
    hide Flat;
  }

  lemma AlikeTransitive(a: Stock, b: Stock, c: Stock)
    requires Alike(a, b) && Alike(b, c)
    ensures Alike(a, c)
  {
    hide Q;
  }

  lemma AlikeArrived(a: Stock, b: Stock, slot: Slot, k: nat, r: Attempt, carved: seq<Addr>)
    requires Alike(a, b) && k < CLASSES
    ensures Alike(TakeLane(Arrive(a, carved), slot, k, r), TakeLane(Arrive(b, carved), slot, k, r))
  {
    forall id ensures Q(SetLane(a.qs, slot, k, r.lane), id) == Q(SetLane(b.qs, slot, k, r.lane), id) {
      SetLaneReads(a.qs, slot, k, r.lane, id);
      SetLaneReads(b.qs, slot, k, r.lane, id);
    }
    hide SetLane, Q;
  }

  lemma ArriveNone(st: Stock)
    ensures Arrive(st, []) == st
  {
    assert st.places + NewPlaces([]) == st.places;
  }

  lemma RearrangedTransitive(l: Lane, a: Attempt, b: Attempt)
    requires Rearranged(l, [], a) && a.got == [] && Rearranged(a.lane, [], b)
    ensures Rearranged(l, [], b)
  {
    hide Flat, NoDup;
  }

  lemma AlikeSame(st: Stock)
    ensures Alike(st, st)
  {}

  /** A stage keeps the stock tracked and sets the lane. */
  lemma StageFacts(st: Stock, slot: Slot, k: nat, r: Attempt)
    requires Tracked(st) && k < CLASSES && Rearranged(LaneOf(st.qs, slot, k), [], r)
    ensures Tracked(TakeLane(st, slot, k, r)) && LaneOf(TakeLane(st, slot, k, r).qs, slot, k) == r.lane
    ensures NoDup(Flat(r.lane, r.got))
  {
    LaneAfterTake(st, slot, k, r);
    RearrangedSame(LaneOf(st.qs, slot, k), [], r);
    hide Tracked, TakeLane, LaneOf, Rearranged, Flat, NoDup;
    TakeLaneTracked(st, slot, k, r, []);
  }

  /** The steps of a request add up to the served stock, if no other thread's step comes between them: the look at
      the heap's own lists, then, if that found nothing, the look at the common pool, and then the carve. */
  lemma StepsCompose(st: Stock, slot: Slot, k: nat, n: nat, carved: seq<Addr>)
    requires Tracked(st) && k < CLASSES && Carvable(st, slot, k, n, carved)
    ensures var a := LocalStage(LaneOf(st.qs, slot, k));
            var st1 := TakeLane(st, slot, k, a);
            var b := RefillStage(LaneOf(st1.qs, slot, k), n);
            var st2 := TakeLane(st1, slot, k, b);
            Alike(if a.got != [] then st1 else if b.got != [] then st2 else CarvedStock(st2, slot, k, carved),
                  Served(st, slot, k, n, carved))
  {
    var l := LaneOf(st.qs, slot, k);
    var a := LocalStage(l);
    var st1 := TakeLane(st, slot, k, a);
    LaneTracked(st, slot, k);
    CarvableNew(st, slot, k, n, carved);
    hide Tracked, TakeLane, LaneOf, Rearranged, NoDup, Flat, LocalStage, RefillStage, CarveStage, Alike, Carvable;
    StagesRearrange(l, n);
    StageFacts(st, slot, k, a);
    ArriveNone(st);
    if a.got != [] {
      AlikeSame(st1);
    } else {
      AfterLocal(st, slot, k, n, carved, a);
    }
  }

  lemma AlikePut(a: Stock, b: Stock, id: QueueId, c: nat, x: Addr)
    requires Alike(a, b) && c < CLASSES
    ensures Alike(PutBack(a, id, c, x), PutBack(b, id, c, x))
  {
    hide Q;
    forall i ensures Q(PutBack(a, id, c, x).qs, i) == Q(PutBack(b, id, c, x).qs, i) {
      PutBackReads(a, id, c, x, i);
      PutBackReads(b, id, c, x, i);
    }
  }

  lemma PutBackReads(st: Stock, id: QueueId, c: nat, x: Addr, i: QueueId)
    requires c < CLASSES
    ensures Q(PutBack(st, id, c, x).qs, i) == if i == id then Q(st.qs, id)[c := Q(st.qs, id)[c] + [x]] else Q(st.qs, i)
  {}

  /** The stages of a request find a chunk exactly if the four stages do. */
  lemma StagesFind(st: Stock, slot: Slot, k: nat, n: nat, carved: seq<Addr>)
    requires Tracked(st) && k < CLASSES
    ensures var a := LocalStage(LaneOf(st.qs, slot, k));
            var st1 := TakeLane(st, slot, k, a);
            var b := RefillStage(LaneOf(st1.qs, slot, k), n);
            var st2 := TakeLane(st1, slot, k, b);
            && FourStages(LaneOf(st.qs, slot, k), n, carved).got
               == if a.got != [] then a.got else if b.got != [] then b.got
                 else CarveStage(LaneOf(st2.qs, slot, k), carved).got
  {
    var l := LaneOf(st.qs, slot, k);
    var a := LocalStage(l);
    var st1 := TakeLane(st, slot, k, a);
    var b := RefillStage(a.lane, n);
    LaneTracked(st, slot, k);
    hide Tracked, TakeLane, LaneOf, Rearranged, NoDup, Flat, LocalStage, RefillStage, CarveStage;
    StagesRearrange(l, n);
    StageFacts(st, slot, k, a);
    LaneTracked(st1, slot, k);
    StagesRearrange(a.lane, n);
    StageFacts(st1, slot, k, b);
  }

  /** The steps of a growing reallocation add up to the regrown stock in the same way: the step that finds a chunk also
      queues the old one. */
  lemma ResizeComposes(st: Stock, slot: Slot, k: nat, n: nat, carved: seq<Addr>, x: Addr, info: Info)
    requires Tracked(st) && k < CLASSES && Carvable(st, slot, k, n, carved)
    ensures var a := LocalStage(LaneOf(st.qs, slot, k));
            var st1 := TakeLane(st, slot, k, a);
            var b := RefillStage(LaneOf(st1.qs, slot, k), n);
            var st2 := TakeLane(st1, slot, k, b);
            var last := if a.got != [] then st1 else if b.got != [] then st2 else CarvedStock(st2, slot, k, carved);
            var found := a.got != [] || b.got != [] || CarveStage(LaneOf(st2.qs, slot, k), carved).got != [];
            Alike(if found then PutBack(last, FreeList(slot, info.core), Logarithm2(info.size), x) else last,
                  Regrown(st, slot, k, n, carved, x, info))
  {
    StepsCompose(st, slot, k, n, carved);
    StagesFind(st, slot, k, n, carved);
    RegrownIs(st, slot, k, n, carved, x, info);
    hide Tracked, TakeLane, LaneOf, FourStages, LocalStage, RefillStage, CarveStage, Alike, Carvable, PutBack, Served,
      Regrown, CarvedStock, Logarithm2;
    var st1 := TakeLane(st, slot, k, LocalStage(LaneOf(st.qs, slot, k)));
    var b := RefillStage(LaneOf(st1.qs, slot, k), n);
    var st2 := TakeLane(st1, slot, k, b);
    var last := if LocalStage(LaneOf(st.qs, slot, k)).got != [] then st1 else if b.got != [] then st2
      else CarvedStock(st2, slot, k, carved);
    AlikePut(last, Served(st, slot, k, n, carved), FreeList(slot, info.core), Logarithm2(info.size), x);
  }

  lemma CarvableNew(st: Stock, slot: Slot, k: nat, n: nat, s: seq<Addr>)
    requires k < CLASSES && Carvable(st, slot, k, n, s)
    ensures NoDup(s) && forall a :: a in s ==> a !in st.places
    ensures !NeedsCarve(LaneOf(st.qs, slot, k), n) ==> s == []
  {
    hide NeedsCarve, LaneOf, NoDup;
  }

  /** The steps after the first. */
  lemma AfterLocal(st: Stock, slot: Slot, k: nat, n: nat, carved: seq<Addr>, a: Attempt)
    requires Tracked(st) && k < CLASSES && Carvable(st, slot, k, n, carved)
    requires a == LocalStage(LaneOf(st.qs, slot, k)) && a.got == [] && Rearranged(LaneOf(st.qs, slot, k), [], a)
    ensures var st1 := TakeLane(st, slot, k, a);
            var b := RefillStage(LaneOf(st1.qs, slot, k), n);
            var st2 := TakeLane(st1, slot, k, b);
            Alike(if b.got != [] then st2 else CarvedStock(st2, slot, k, carved), Served(st, slot, k, n, carved))
  {
    var l := LaneOf(st.qs, slot, k);
    var st1 := TakeLane(st, slot, k, a);
    CarvableNew(st, slot, k, n, carved);
    hide Tracked, TakeLane, LaneOf, Rearranged, NoDup, Flat, LocalStage, RefillStage, CarveStage, Alike, Carvable;
    StageFacts(st, slot, k, a);
    var b := RefillStage(a.lane, n);
    var st2 := TakeLane(st1, slot, k, b);
    LaneTracked(st1, slot, k);
    StagesRearrange(a.lane, n);
    StageFacts(st1, slot, k, b);
    ArriveNone(st);
    ArriveNone(st1);
    StageThenStage(st, slot, k, a, b, []);
    if b.got == [] {
      RearrangedTransitive(l, a, b);
      LastStage(st, st2, slot, k, n, carved, b);
    }
  }

  lemma LastStage(st: Stock, st2: Stock, slot: Slot, k: nat, n: nat, carved: seq<Addr>, b: Attempt)
    requires Tracked(st) && Tracked(st2) && k < CLASSES && NoDup(carved)
             && (forall x :: x in carved ==> x !in st.places)
    requires b.got == [] && Rearranged(LaneOf(st.qs, slot, k), [], b) && LaneOf(st2.qs, slot, k) == b.lane
    requires Alike(st2, TakeLane(st, slot, k, b))
    requires FourStages(LaneOf(st.qs, slot, k), n, carved) == CarveStage(b.lane, carved)
    ensures Alike(CarvedStock(st2, slot, k, carved), Served(st, slot, k, n, carved))
  {
    var c := CarveStage(b.lane, carved);
    AlikePlaces(st2, st, slot, k, b);
    LaneTracked(st2, slot, k);
    hide Tracked, TakeLane, LaneOf, Rearranged, NoDup, Flat, CarveStage, Alike, FourStages;
    CarveRearranges(b.lane, carved);
    AlikeArrived(st2, TakeLane(st, slot, k, b), slot, k, c, carved);
    StageThenStage(st, slot, k, b, c, carved);
    AlikeTransitive(CarvedStock(st2, slot, k, carved), TakeLane(Arrive(TakeLane(st, slot, k, b), carved), slot, k, c),
                    Served(st, slot, k, n, carved));
  }

  lemma AlikePlaces(st2: Stock, st: Stock, slot: Slot, k: nat, b: Attempt)
    requires k < CLASSES && Alike(st2, TakeLane(st, slot, k, b))
    ensures st2.places.Keys == st.places.Keys
  {
    hide SetLane, Q, PlaceIn;
  }

  // ---------------------------------------------------------------- a release step by step

  /** Steps `from` to `to` of the states `ss` are rounds of a flush by thread `t`. */
  ghost predicate Flushes(c: Config, main: Tid, ss: seq<State>, t: Tid, from: nat, to: nat) {
    from <= to < |ss| && forall j {:trigger ss[j + 1]} :: from <= j < to ==> Step(c, main, ss[j], t, Flush, ss[j + 1])
  }

  lemma FlushAt(c: Config, main: Tid, ss: seq<State>, t: Tid, from: nat, to: nat, j: nat)
    requires Flushes(c, main, ss, t, from, to) && from <= j < to
    ensures Step(c, main, ss[j], t, Flush, ss[j + 1])
  {
    hide Step;
  }

  /** A state is reached by moving chunks between the queues `ids`: the matter with stock `st`. */
  ghost predicate Rearrangement(m: Matter, m': Matter, st: Stock, ids: set<QueueId>) {
    && m'.stock == st && m'.infos == m.infos && m'.bump == m.bump
    && Frame(m.words, m.stock.places, m.infos, m'.words, st.places, m.infos, ids)
  }

  lemma ShiftRearranges(m: Matter, m': Matter, st: Stock, ids: set<QueueId>)
    requires Shift(m, m', st, ids) && PlacesFrame(m.stock.places, st.places, ids)
    ensures Rearrangement(m, m', st, ids)
  {
    hide PlacesFrame, Unlinked;
  }

  lemma RearrangeOnward(m: Matter, m': Matter, m'': Matter, st: Stock, st': Stock, ids: set<QueueId>,
                        more: set<QueueId>)
    requires m.stock.places.Keys == m.infos.Keys && st.places.Keys == m.infos.Keys
    requires Rearrangement(m, m', st, ids) && Rearrangement(m', m'', st', more)
    ensures Rearrangement(m, m'', st', ids + more)
  {
    hide Frame;
    FrameWider(m.words, m.stock.places, m.infos, m'.words, st.places, m.infos, ids, ids + more);
    FrameWider(m'.words, st.places, m.infos, m''.words, st'.places, m.infos, more, ids + more);
    FrameTransitive(m.words, m.stock.places, m.infos, m'.words, st.places, m.infos, m''.words, st'.places, m.infos,
                    ids + more);
  }

  lemma MoveAllPlaces(st: Stock, from: QueueId, to: QueueId)
    ensures PlacesFrame(st.places, MoveAll(st, from, to).places, {from, to})
    ensures MoveAll(st, from, to).places.Keys == st.places.Keys
  {}

  lemma FlushRoundIs(c: Config, main: Tid, s: State, t: Tid, s': State, slot: Slot, j: nat)
    requires Step(c, main, s, t, Flush, s') && PhaseOf(s, t) == Flushing(slot, j)
    ensures j < c.coreN && PhaseOf(s', t) == (if j + 1 == c.coreN then Ready(slot) else Flushing(slot, j + 1))
    ensures s'.counts == s.counts && s'.busy == s.busy
    ensures if j == slot.core then s'.matter == s.matter
            else Rearrangement(s.matter, s'.matter, MoveAll(s.matter.stock, FreeList(slot, j), Pool(j)),
                               {FreeList(slot, j), Pool(j)})
  {
    hide Shift, MoveAll, Rearrangement, PlacesFrame;
    if j != slot.core {
      MoveAllPlaces(s.matter.stock, FreeList(slot, j), Pool(j));
      ShiftRearranges(s.matter, s'.matter, MoveAll(s.matter.stock, FreeList(slot, j), Pool(j)),
                      {FreeList(slot, j), Pool(j)});
    }
  }

  lemma FlushIdsNext(slot: Slot, j: nat)
    ensures FlushIdsOf(slot, 0) == {}
    ensures FlushIdsOf(slot, j + 1) == if j == slot.core then FlushIdsOf(slot, j)
            else FlushIdsOf(slot, j) + {FreeList(slot, j), Pool(j)}
  {}

  /** The rounds of a flush add up to the flush of the method. */
  lemma {:induction false} FlushComposes(c: Config, main: Tid, ss: seq<State>, t: Tid, from: nat, n: nat, slot: Slot)
    requires n <= c.coreN && 0 < c.coreN && Flushes(c, main, ss, t, from, from + n)
    requires PhaseOf(ss[from], t) == Flushing(slot, 0)
    requires ss[from].matter.stock.places.Keys == ss[from].matter.infos.Keys
    ensures var s, s' := ss[from], ss[from + n];
            && PhaseOf(s', t) == (if n == c.coreN then Ready(slot) else Flushing(slot, n))
            && s'.counts == s.counts && s'.busy == s.busy
            && Rearrangement(s.matter, s'.matter, FlushBelow(s.matter.stock, slot, n), FlushIdsOf(slot, n))
            && FlushBelow(s.matter.stock, slot, n).places.Keys == s.matter.infos.Keys
    decreases n
  {
    hide Step, Rearrangement, PhaseOf, MoveAll, FlushIdsOf;
    var s := ss[from];
    FlushIdsNext(slot, 0);
    if n == 0 {
      SameRearrangement(s.matter);
    } else {
      FlushComposes(c, main, ss, t, from, n - 1, slot);
      var u, u', j := ss[from + (n - 1)], ss[from + (n - 1) + 1], n - 1;
      FlushAt(c, main, ss, t, from, from + n, from + (n - 1));
      FlushRoundIs(c, main, u, t, u', slot, j);
      FlushIdsNext(slot, j);
      RearrangedTo(s.matter, u.matter, FlushBelow(s.matter.stock, slot, j), FlushIdsOf(slot, j));
      MoveAllPlaces(FlushBelow(s.matter.stock, slot, j), FreeList(slot, j), Pool(j));
      if j != slot.core {
        RearrangeOnward(s.matter, u.matter, u'.matter, FlushBelow(s.matter.stock, slot, j),
                        FlushBelow(s.matter.stock, slot, n), FlushIdsOf(slot, j), {FreeList(slot, j), Pool(j)});
      }
    }
  }

  lemma SameRearrangement(m: Matter)
    ensures Rearrangement(m, m, m.stock, {})
  {
    SameFrame(m.words, m.stock.places, m.infos, {});
  }

  lemma RearrangedTo(m: Matter, m': Matter, st: Stock, ids: set<QueueId>)
    requires Rearrangement(m, m', st, ids)
    ensures m'.stock == st && m'.infos == m.infos
  {}

  lemma ReleaseRoundIs(c: Config, main: Tid, s: State, t: Tid, x: Addr, s': State, slot: Slot)
    requires Step(c, main, s, t, Release(x), s') && PhaseOf(s, t) == Ready(slot)
    requires s.matter.stock.places.Keys == s.matter.infos.Keys
    ensures x in s.matter.infos
    ensures var m, k := s.matter, ClassOf(s.matter, x);
            var due := FlushDue(t == main, CountsOf(s.counts, t), k, c.table[k]);
            && PhaseOf(s', t) == (if due then Flushing(slot, 0) else Ready(slot)) && s'.busy == s.busy
            && s'.counts == s.counts[t := CountRelease(t == main, CountsOf(s.counts, t), k, c.table[k])]
            && Rearrangement(m, s'.matter, PutBack(m.stock, HomeList(m, slot, x), k, x), {HomeList(m, slot, x)})
            && PutBack(m.stock, HomeList(m, slot, x), k, x).places.Keys == m.infos.Keys
  {
    var m, k := s.matter, ClassOf(s.matter, x);
    hide Shift, Rearrangement, PlacesFrame, FlushDue, CountRelease, Logarithm2, CountsOf, Claimed;
    PutBackFrame(m.stock, HomeList(m, slot, x), k, x);
    ShiftRearranges(m, s'.matter, PutBack(m.stock, HomeList(m, slot, x), k, x), {HomeList(m, slot, x)});
  }

  lemma PutBackFrame(st: Stock, id: QueueId, k: nat, x: Addr)
    requires k < CLASSES && x in st.places && st.places[x].Out?
    ensures PlacesFrame(st.places, PutBack(st, id, k, x).places, {id})
    ensures PutBack(st, id, k, x).places.Keys == st.places.Keys
  {
    hide PutClass;
  }

  /** A release and the rounds of the flush it begins, if it begins one, add up to the effect of `free`: stock,
      counters, and the links that may have changed. */
  lemma FreeComposes(c: Config, main: Tid, ss: seq<State>, t: Tid, x: Addr, slot: Slot)
    requires c.coreN > 0 && |ss| >= 2 && PhaseOf(ss[0], t) == Ready(slot) && Step(c, main, ss[0], t, Release(x), ss[1])
    requires ss[0].matter.stock.places.Keys == ss[0].matter.infos.Keys && x in ss[0].matter.infos
    requires var k := ClassOf(ss[0].matter, x);
             if t == main && CountsOf(ss[0].counts, t)[k] + 1 > c.table[k]
             then |ss| == c.coreN + 2 && Flushes(c, main, ss, t, 1, c.coreN + 1) else |ss| == 2
    ensures var s, s', k := ss[0], ss[|ss| - 1], ClassOf(ss[0].matter, x);
            var before := CountsOf(s.counts, t);
            var due := t == main && before[k] + 1 > c.table[k];
            var home, st1 := HomeList(s.matter, slot, x), PutBack(s.matter.stock, HomeList(s.matter, slot, x), k, x);
            && PhaseOf(s', t) == Ready(slot) && s'.busy == s.busy
            && s'.counts == s.counts[t := if due then seq(CLASSES, _ => 0) else before[k := before[k] + 1]]
            && Rearrangement(s.matter, s'.matter, if due then FlushBelow(st1, slot, c.coreN) else st1,
                             {home} + if due then FlushIdsOf(slot, c.coreN) else {})
  {
    hide Step, Rearrangement, PhaseOf, FlushBelow, FlushIdsOf, Flushes, CountsOf, PutBack,
      HomeList, ClassOf;
    var s, k := ss[0], ClassOf(ss[0].matter, x);
    ReleaseRoundIs(c, main, s, t, x, ss[1], slot);
    var home := HomeList(s.matter, slot, x);
    var st1 := PutBack(s.matter.stock, home, k, x);
    RearrangedTo(s.matter, ss[1].matter, st1, {home});
    if t == main && CountsOf(s.counts, t)[k] + 1 > c.table[k] {
      FlushComposes(c, main, ss, t, 1, c.coreN, slot);
      RearrangeOnward(s.matter, ss[1].matter, ss[c.coreN + 1].matter, st1, FlushBelow(st1, slot, c.coreN), {home},
                      FlushIdsOf(slot, c.coreN));
    } else {
      assert {home} + {} == {home};
    }
  }

  // ---------------------------------------------------------------- a request step by step, over states

  /** What a look does to the stock and the phase. */
  lemma LookIs(s: State, s': State, t: Tid, slot: Slot, size: nat, moving: seq<Addr>, r: Attempt, on: Phase,
               ids: set<QueueId>)
    requires size < TWO_64 && (moving != [] ==> moving[0] in s.matter.infos)
    requires Look(s, s', t, slot, size, moving, r, on, ids)
    ensures s'.matter.infos == s.matter.infos && PhaseOf(s', t) == (if r.got == [] then on else Ready(slot))
    ensures var st := TakeLane(s.matter.stock, slot, Logarithm2(size), r);
            s'.matter.stock == if r.got == [] then st else WithMoved(st, slot, moving, s.matter.infos)
  {
    hide Touches, Unlinked, Delivered, TakeLane, Logarithm2, PutBack;
  }

  /** The stock once a request has its chunk: a reallocation has also queued the old block. */
  function WithMoved(st: Stock, slot: Slot, moving: seq<Addr>, infos: Infos): Stock
    requires moving != [] ==> moving[0] in infos
  {
    if moving == [] then st
    else PutBack(st, FreeList(slot, infos[moving[0]].core), Logarithm2(infos[moving[0]].size), moving[0])
  }

  lemma MapIs(c: Config, main: Tid, s: State, s': State, t: Tid, slot: Slot, size: nat, moving: seq<Addr>, p: nat,
              region: nat)
    requires ConfigOk(c) && size < TWO_64 && (moving != [] ==> moving[0] in s.matter.infos)
    requires MapStep(c, main, s, s', t, slot, size, moving, p, region)
    ensures var k := Logarithm2(size);
            var sq := Headers(p, TotalSize(size), c.table[k]);
            var st := CarvedStock(s.matter.stock, slot, k, sq);
            && NoDup(sq) && |sq| == c.table[k] && (forall a :: a in sq ==> a !in s.matter.infos)
            && PhaseOf(s', t) == Ready(slot)
            && s'.matter.stock == if CarveStage(LaneOf(s.matter.stock.qs, slot, k), sq).got == [] then st
                                  else WithMoved(st, slot, moving, s.matter.infos)
  {
    var k := Logarithm2(size);
    var sq := Headers(p, TotalSize(size), c.table[k]);
    CarveParts(s.matter.infos, s.matter.bump, s'.matter.infos, s'.matter.bump,
               if t == main then c.coreN else slot.core, slot.core, size, c.table[k], p, region, sq);
    hide Touches, Unlinked, CarvedStock, Logarithm2, CarveStage, Headers, TotalSize, LaneOf, CarveEffect, HeaderOk,
      Delivered, PutBack, NoDup;
  }

  /** The steps of one request, or of one growing reallocation of `moving[0]`, by thread `t`, with no step of another
      thread between them: a look at the heap's own lists, one at the common pool if that found nothing, and then a
      carve. */
  ghost predicate RequestSteps(c: Config, main: Tid, ss: seq<State>, t: Tid, slot: Slot, size: nat, moving: seq<Addr>,
                               p: nat, region: nat)
  {
    && |ss| >= 2 && PhaseOf(ss[0], t) == Ready(slot) && 0 < size < TWO_64
    && (if moving == [] then Step(c, main, ss[0], t, Request(size), ss[1])
        else |moving| == 1 && moving[0] in ss[0].matter.infos && ss[0].matter.infos[moving[0]].size < size
             && Step(c, main, ss[0], t, Resize(moving[0], size), ss[1]))
    && if PhaseOf(ss[1], t).Ready? then |ss| == 2
       else
         && |ss| >= 3 && Step(c, main, ss[1], t, Refill, ss[2])
         && if PhaseOf(ss[2], t).Ready? then |ss| == 3
            else |ss| == 4 && Step(c, main, ss[2], t, Map(p, region), ss[3])
  }

  /** What was carved in them. */
  function CarvedIn(c: Config, ss: seq<State>, size: nat, p: nat): seq<Addr>
    requires size < TWO_64
  {
    if |ss| == 4 then Headers(p, TotalSize(size), c.table[Logarithm2(size)]) else []
  }

  lemma FirstStepIs(c: Config, main: Tid, s: State, s': State, t: Tid, slot: Slot, size: nat, moving: seq<Addr>)
    requires PhaseOf(s, t) == Ready(slot) && size < TWO_64
    requires if moving == [] then Step(c, main, s, t, Request(size), s')
             else |moving| == 1 && moving[0] in s.matter.infos && s.matter.infos[moving[0]].size < size
                  && Step(c, main, s, t, Resize(moving[0], size), s')
    ensures moving != [] ==> moving[0] in s.matter.infos
    ensures Look(s, s', t, slot, size, moving, LocalStage(LaneOf(s.matter.stock.qs, slot, Logarithm2(size))),
                 Refilling(slot, size, moving), OwnIds(slot))
  {
    hide Look, LaneOf, LocalStage, Logarithm2, OwnIds, PhaseOf, Claimed, Live;
    if moving != [] { assert moving == [moving[0]]; }
  }

  lemma SecondStepIs(c: Config, main: Tid, s: State, s': State, t: Tid, slot: Slot, size: nat, moving: seq<Addr>)
    requires PhaseOf(s, t) == Refilling(slot, size, moving) && Step(c, main, s, t, Refill, s')
    ensures size < TWO_64 && (moving != [] ==> moving[0] in s.matter.infos)
    ensures var k := Logarithm2(size);
            Look(s, s', t, slot, size, moving, RefillStage(LaneOf(s.matter.stock.qs, slot, k), c.table[k]),
                 Mapping(slot, size, moving), PoolIds(slot))
  {
    hide Look, LaneOf, RefillStage, Logarithm2, PoolIds, PhaseOf;
  }

  lemma LastStepIs(c: Config, main: Tid, s: State, s': State, t: Tid, slot: Slot, size: nat, moving: seq<Addr>, p: nat,
                   region: nat)
    requires PhaseOf(s, t) == Mapping(slot, size, moving) && Step(c, main, s, t, Map(p, region), s')
    ensures size < TWO_64 && (moving != [] ==> moving[0] in s.matter.infos)
    ensures MapStep(c, main, s, s', t, slot, size, moving, p, region)
  {
    hide MapStep, PhaseOf;
  }

  /** The stocks along these steps, and what the last one did. */
  lemma RequestStocks(c: Config, main: Tid, ss: seq<State>, t: Tid, slot: Slot, size: nat, moving: seq<Addr>, p: nat,
                      region: nat)
    requires ConfigOk(c) && RequestSteps(c, main, ss, t, slot, size, moving, p, region)
    ensures moving != [] ==> moving[0] in ss[0].matter.infos
    ensures var k, n, carved := Logarithm2(size), c.table[Logarithm2(size)], CarvedIn(c, ss, size, p);
            var st, infos := ss[0].matter.stock, ss[0].matter.infos;
            var a := LocalStage(LaneOf(st.qs, slot, k));
            var st1 := TakeLane(st, slot, k, a);
            var b := RefillStage(LaneOf(st1.qs, slot, k), n);
            var st2 := TakeLane(st1, slot, k, b);
            var last := if a.got != [] then st1 else if b.got != [] then st2 else CarvedStock(st2, slot, k, carved);
            var found := a.got != [] || b.got != [] || CarveStage(LaneOf(st2.qs, slot, k), carved).got != [];
            && PhaseOf(ss[|ss| - 1], t) == Ready(slot)
            && ss[|ss| - 1].matter.stock == (if found then WithMoved(last, slot, moving, infos) else last)
            && (|ss| == 4 <==> a.got == [] && b.got == [])
            && NoDup(carved) && (forall x :: x in carved ==> x !in infos) && (|ss| == 4 ==> |carved| == n)
  {
    hide *;
    StepsOf(c, main, ss, t, slot, size, moving, p, region);
    var k, n := Logarithm2(size), c.table[Logarithm2(size)];
    RequestPhases(slot, size, moving);
    FirstStepIs(c, main, ss[0], ss[1], t, slot, size, moving);
    var a := LocalStage(LaneOf(ss[0].matter.stock.qs, slot, k));
    LookIs(ss[0], ss[1], t, slot, size, moving, a, Refilling(slot, size, moving), OwnIds(slot));
    CarvedInIs(c, ss, size, p);
    if a.got == [] {
      SecondStepIs(c, main, ss[1], ss[2], t, slot, size, moving);
      var b := RefillStage(LaneOf(ss[1].matter.stock.qs, slot, k), n);
      LookIs(ss[1], ss[2], t, slot, size, moving, b, Mapping(slot, size, moving), PoolIds(slot));
      if b.got == [] {
        LastStepIs(c, main, ss[2], ss[3], t, slot, size, moving, p, region);
        MapIs(c, main, ss[2], ss[3], t, slot, size, moving, p, region);
      }
    }
  }

  lemma RequestPhases(slot: Slot, size: nat, moving: seq<Addr>)
    ensures !Refilling(slot, size, moving).Ready? && !Mapping(slot, size, moving).Ready? && Ready(slot).Ready?
  {}

  lemma CarvedInIs(c: Config, ss: seq<State>, size: nat, p: nat)
    requires size < TWO_64
    ensures CarvedIn(c, ss, size, p) == if |ss| == 4 then Headers(p, TotalSize(size), c.table[Logarithm2(size)]) else []
    ensures |ss| != 4 ==> NoDup(CarvedIn(c, ss, size, p)) && forall x :: x !in CarvedIn(c, ss, size, p)
  {
    hide Headers, TotalSize, Logarithm2;
  }

  lemma StepsOf(c: Config, main: Tid, ss: seq<State>, t: Tid, slot: Slot, size: nat, moving: seq<Addr>, p: nat,
                region: nat)
    requires RequestSteps(c, main, ss, t, slot, size, moving, p, region)
    ensures |ss| >= 2 && PhaseOf(ss[0], t) == Ready(slot) && 0 < size < TWO_64
    ensures if moving == [] then Step(c, main, ss[0], t, Request(size), ss[1])
            else |moving| == 1 && moving[0] in ss[0].matter.infos && ss[0].matter.infos[moving[0]].size < size
                 && Step(c, main, ss[0], t, Resize(moving[0], size), ss[1])
    ensures PhaseOf(ss[1], t).Ready? ==> |ss| == 2
    ensures !PhaseOf(ss[1], t).Ready? ==> |ss| >= 3 && Step(c, main, ss[1], t, Refill, ss[2])
    ensures !PhaseOf(ss[1], t).Ready? && PhaseOf(ss[2], t).Ready? ==> |ss| == 3
    ensures !PhaseOf(ss[1], t).Ready? && !PhaseOf(ss[2], t).Ready? ==>
              |ss| == 4 && Step(c, main, ss[2], t, Map(p, region), ss[3])
  {
    hide Step, PhaseOf;
  }

  /** The steps of a request, or of a growing reallocation, add up to what the methods do: the served stock, or the
      regrown one, with exactly one batch carved when no queue had a chunk. */
  lemma RequestComposes(c: Config, main: Tid, ss: seq<State>, t: Tid, slot: Slot, size: nat, moving: seq<Addr>, p: nat,
                        region: nat)
    requires ConfigOk(c) && RequestSteps(c, main, ss, t, slot, size, moving, p, region) && Inv(c, ss[0])
    ensures moving != [] ==> moving[0] in ss[0].matter.infos
    ensures var k, n, carved := Logarithm2(size), c.table[Logarithm2(size)], CarvedIn(c, ss, size, p);
            var st, infos, s' := ss[0].matter.stock, ss[0].matter.infos, ss[|ss| - 1];
            && PhaseOf(s', t) == Ready(slot) && Carvable(st, slot, k, n, carved)
            && |carved| == (if NeedsCarve(LaneOf(st.qs, slot, k), n) then n else 0)
            && Alike(s'.matter.stock,
                     if moving == [] then Served(st, slot, k, n, carved)
                     else Regrown(st, slot, k, n, carved, moving[0], infos[moving[0]]))
  {
    hide *;
    StepsOf(c, main, ss, t, slot, size, moving, p, region);
    var k, n, carved := Logarithm2(size), c.table[Logarithm2(size)], CarvedIn(c, ss, size, p);
    var st, infos := ss[0].matter.stock, ss[0].matter.infos;
    RequestStocks(c, main, ss, t, slot, size, moving, p, region);
    CarvedInIs(c, ss, size, p);
    InvMatter(c, ss[0]);
    MatterParts(c, ss[0].matter);
    HomedKeys(st.places, infos);
    LaneKept(st, slot, k, n);
    FoldNewCarve(st, slot, k, n, carved, |ss| == 4);
    StepsCompose(st, slot, k, n, carved);
    if moving != [] {
      ResizeComposes(st, slot, k, n, carved, moving[0], infos[moving[0]]);
    }
    WithMovedIs(slot, moving, infos);
  }

  lemma WithMovedIs(slot: Slot, moving: seq<Addr>, infos: Infos)
    requires moving != [] ==> moving[0] in infos
    ensures forall st {:trigger WithMoved(st, slot, moving, infos)} ::
              WithMoved(st, slot, moving, infos)
              == if moving == [] then st
                 else PutBack(st, FreeList(slot, infos[moving[0]].core), Logarithm2(infos[moving[0]].size), moving[0])
  {
    hide PutBack, Logarithm2;
  }

  /** The look at the common pool sees the lane the look at the heap's own lists left. */
  lemma LaneKept(st: Stock, slot: Slot, k: nat, n: nat)
    requires Tracked(st) && k < CLASSES
    ensures var l := LaneOf(st.qs, slot, k);
            var a := LocalStage(l);
            var b := RefillStage(LaneOf(TakeLane(st, slot, k, a).qs, slot, k), n);
            NeedsCarve(l, n) <==> a.got == [] && b.got == []
  {
    var l := LaneOf(st.qs, slot, k);
    LaneTracked(st, slot, k);
    hide Tracked, TakeLane, LaneOf, Rearranged, NoDup, Flat, LocalStage, RefillStage;
    StagesRearrange(l, n);
    StageFacts(st, slot, k, LocalStage(l));
  }

  lemma FoldNewCarve(st: Stock, slot: Slot, k: nat, n: nat, carved: seq<Addr>, mapped: bool)
    requires k < CLASSES && NoDup(carved) && (forall x :: x in carved ==> x !in st.places)
    requires mapped <==> NeedsCarve(LaneOf(st.qs, slot, k), n)
    requires (mapped ==> |carved| == n) && (!mapped ==> forall x :: x !in carved)
    ensures Carvable(st, slot, k, n, carved) && |carved| == if NeedsCarve(LaneOf(st.qs, slot, k), n) then n else 0
  {
    hide NeedsCarve, LaneOf, NoDup;
    assert carved != [] ==> carved[0] in carved;
  }
}
