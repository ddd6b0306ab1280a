/** The allocator's stock: the contents of every queue, and the place of every chunk. The operations
    here are the effects of the heap and pool methods on it, and each keeps the two views in step. */
module Stocks {
  import opened SizeClass
  import opened Chunks
  import opened Lanes

  type QueueTable = map<QueueId, Queues>

  /** The sequences of one queue manager. */
  function Q(qs: QueueTable, id: QueueId): Queues { if id in qs then qs[id] else Empty() }

  datatype Stock = Stock(qs: QueueTable, places: Places)

  /** Every queue lists, once each, exactly the chunks placed in it. */
  ghost predicate Tracked(st: Stock) {
    forall id :: Housed(st.places, id, Q(st.qs, id))
  }

  /** Every chunk is known, and one that is queued is in a queue of its home core and its size class. */
  ghost predicate Homed(places: Places, infos: Infos) {
    && places.Keys == infos.Keys
    && forall a :: a in places && places[a].In? ==>
         infos[a].core == Home(places[a].id) && Logarithm2(infos[a].size) == places[a].cls
  }

  /** No chunk is between places. */
  ghost predicate Settled(st: Stock) { forall a :: a in st.places ==> !st.places[a].Loose? }

  /** A stock in order: each chunk is live, or listed once, where its place says, in a queue of its core and class. */
  ghost predicate Sound(st: Stock, infos: Infos) { Tracked(st) && Homed(st.places, infos) && Settled(st) }

  /** The empty stock is sound. */
  lemma NothingTracked()
    ensures Sound(Stock(map[], map[]), map[])
  {
    var st := Stock(map[], map[]);
    forall id, k | 0 <= k < CLASSES ensures Placed(st.places, In(id, k), Q(st.qs, id)[k]) {}
  }

  // ---------------------------------------------------------------- operations

  /** One class of the queues of a heap and of its core's pool. */
  function LaneOf(qs: QueueTable, slot: Slot, c: nat): Lane
    requires c < CLASSES
  {
    Lane(Q(qs, Mal(slot))[c], Q(qs, FreeList(slot, slot.core))[c], Q(qs, Pool(slot.core))[c])
  }

  function PutClass(qs: QueueTable, id: QueueId, c: nat, s: seq<Addr>): QueueTable
    requires c < CLASSES
  {
    qs[id := Q(qs, id)[c := s]]
  }

  function SetLane(qs: QueueTable, slot: Slot, c: nat, l: Lane): QueueTable
    requires c < CLASSES
  {
    PutClass(PutClass(PutClass(qs, Mal(slot), c, l.mal), FreeList(slot, slot.core), c, l.own), Pool(slot.core), c,
             l.pool)
  }

  function PlaceIn(l: Lane, got: seq<Addr>, slot: Slot, c: nat, a: Addr, p: Place): Place {
    if a in got then Out
    else if a in l.mal then In(Mal(slot), c)
    else if a in l.own then In(FreeList(slot, slot.core), c)
    else if a in l.pool then In(Pool(slot.core), c)
    else p
  }

  function TakePlaces(places: Places, slot: Slot, c: nat, r: Attempt): Places {
    map a | a in places :: PlaceIn(r.lane, r.got, slot, c, a, places[a])
  }

  /** A stage of `Malloc`: the lane becomes `r.lane` and `r.got` is handed out. */
  function TakeLane(st: Stock, slot: Slot, c: nat, r: Attempt): Stock
    requires c < CLASSES
  {
    Stock(SetLane(st.qs, slot, c, r.lane), TakePlaces(st.places, slot, c, r))
  }

  /** A live chunk goes to the end of one class of a queue. */
  function PutBack(st: Stock, id: QueueId, c: nat, x: Addr): Stock
    requires c < CLASSES
  {
    Stock(PutClass(st.qs, id, c, Q(st.qs, id)[c] + [x]), st.places[x := In(id, c)])
  }

  /** Every class of one queue manager goes to the end of the same class of another. */
  function MoveAll(st: Stock, from: QueueId, to: QueueId): Stock {
    Stock(st.qs[to := Joined(Q(st.qs, to), Q(st.qs, from))][from := Empty()], MoveClasses(st.places, from, to, CLASSES))
  }

  /** The remote free lists of a heap, for the cores below `k`, go to the common pools of those cores. */
  function FlushBelow(st: Stock, slot: Slot, k: nat): Stock {
    if k == 0 then st
    else if k - 1 == slot.core then FlushBelow(st, slot, k - 1)
    else MoveAll(FlushBelow(st, slot, k - 1), FreeList(slot, k - 1), Pool(k - 1))
  }

  /** The queue managers that this changes. */
  ghost function FlushIdsOf(slot: Slot, k: nat): set<QueueId> {
    (set i | 0 <= i < k && i != slot.core :: FreeList(slot, i)) + (set i | 0 <= i < k && i != slot.core :: Pool(i))
  }

  /** New chunks, not queued yet. */
  function Arrive(st: Stock, s: seq<Addr>): Stock { Stock(st.qs, st.places + NewPlaces(s)) }

  // ---------------------------------------------------------------- a class is rearranged

  function Flat(l: Lane, got: seq<Addr>): seq<Addr> { l.mal + l.own + l.pool + got }

  /** The same chunks, each once, arranged differently. */
  ghost predicate Rearranged(l: Lane, extra: seq<Addr>, r: Attempt) {
    && NoDup(Flat(r.lane, r.got))
    && forall a :: a in Flat(r.lane, r.got) <==> a in Flat(l, extra)
  }

  lemma NoDupParts(s: seq<Addr>, t: seq<Addr>)
    requires NoDup(s + t)
    ensures NoDup(s) && NoDup(t) && forall a :: a in s ==> a !in t
  {
    var u := s + t;
    forall i, j | 0 <= i < j < |s| ensures s[i] != s[j] { assert u[i] != u[j]; }
    forall i, j | 0 <= i < j < |t| ensures t[i] != t[j] { assert u[|s| + i] != u[|s| + j]; }
    forall i, j | 0 <= i < |s| && 0 <= j < |t| ensures s[i] != t[j] { assert u[i] != u[|s| + j]; }
  }

  lemma FlatParts(l: Lane, got: seq<Addr>)
    requires NoDup(Flat(l, got))
    ensures NoDup(l.mal) && NoDup(l.own) && NoDup(l.pool) && NoDup(got)
    ensures forall a :: a in l.mal ==> a !in l.own && a !in l.pool && a !in got
    ensures forall a :: a in l.own ==> a !in l.pool && a !in got
    ensures forall a :: a in l.pool ==> a !in got
    ensures forall a :: a in Flat(l, got) <==> a in l.mal || a in l.own || a in l.pool || a in got
  {
    NoDupParts(l.mal + l.own + l.pool, got);
    NoDupParts(l.mal + l.own, l.pool);
    NoDupParts(l.mal, l.own);
  }

  /** The lane of a tracked stock holds distinct chunks, all placed where they are listed. */
  lemma LaneTracked(st: Stock, slot: Slot, c: nat)
    requires Tracked(st) && c < CLASSES
    ensures var l := LaneOf(st.qs, slot, c);
            && NoDup(Flat(l, []))
            && forall a :: a in Flat(l, []) <==>
                 a in st.places
                   && st.places[a] in {In(Mal(slot), c), In(FreeList(slot, slot.core), c), In(Pool(slot.core), c)}
  {
    var l := LaneOf(st.qs, slot, c);
    assert Housed(st.places, Mal(slot), Q(st.qs, Mal(slot)));
    assert Housed(st.places, FreeList(slot, slot.core), Q(st.qs, FreeList(slot, slot.core)));
    assert Housed(st.places, Pool(slot.core), Q(st.qs, Pool(slot.core)));
    assert Placed(st.places, In(Mal(slot), c), l.mal);
    assert Placed(st.places, In(FreeList(slot, slot.core), c), l.own);
    assert Placed(st.places, In(Pool(slot.core), c), l.pool);
    NoDupConcat(l.mal, l.own);
    assert forall a :: a in l.mal + l.own ==> a !in l.pool;
    NoDupConcat(l.mal + l.own, l.pool);
    assert Flat(l, []) == l.mal + l.own + l.pool;
  }

  lemma PlaceInMeans(l: Lane, got: seq<Addr>, slot: Slot, c: nat, a: Addr, p: Place)
    requires NoDup(Flat(l, got))
    ensures a in l.mal ==> PlaceIn(l, got, slot, c, a, p) == In(Mal(slot), c)
    ensures a in l.own ==> PlaceIn(l, got, slot, c, a, p) == In(FreeList(slot, slot.core), c)
    ensures a in l.pool ==> PlaceIn(l, got, slot, c, a, p) == In(Pool(slot.core), c)
    ensures a in got ==> PlaceIn(l, got, slot, c, a, p) == Out
    ensures a !in Flat(l, got) ==> PlaceIn(l, got, slot, c, a, p) == p
  {
    FlatParts(l, got);
  }

  /** What the queues read after a lane has been replaced. */
  lemma SetLaneReads(qs: QueueTable, slot: Slot, c: nat, l: Lane, id: QueueId)
    requires c < CLASSES
    ensures Q(SetLane(qs, slot, c, l), id) ==
              if id == Mal(slot) then Q(qs, id)[c := l.mal]
              else if id == FreeList(slot, slot.core) then Q(qs, id)[c := l.own]
              else if id == Pool(slot.core) then Q(qs, id)[c := l.pool]
              else Q(qs, id)
  {}

  lemma FlatExtra(l: Lane, extra: seq<Addr>)
    ensures forall a :: a in Flat(l, extra) <==> a in Flat(l, []) || a in extra
  {
    assert Flat(l, []) == l.mal + l.own + l.pool;
    assert Flat(l, extra) == (l.mal + l.own + l.pool) + extra;
  }

  /** One queue after a stage: the rearranged class, or untouched. */
  lemma TakeLanePlaced(st: Stock, slot: Slot, c: nat, r: Attempt, extra: seq<Addr>, id: QueueId, k: nat)
    requires c < CLASSES && k < CLASSES && NoDup(Flat(r.lane, r.got))
    requires Placed(st.places, In(id, k), Q(st.qs, id)[k])
    requires forall a :: a in Flat(r.lane, r.got) <==>
               a in extra || (a in st.places
                 && st.places[a] in {In(Mal(slot), c), In(FreeList(slot, slot.core), c), In(Pool(slot.core), c)})
    requires forall a :: a in extra ==> a in st.places && !st.places[a].In?
    ensures Placed(TakeLane(st, slot, c, r).places, In(id, k), Q(TakeLane(st, slot, c, r).qs, id)[k])
  {
    var st' := TakeLane(st, slot, c, r);
    var t := Q(st'.qs, id)[k];
    SetLaneReads(st.qs, slot, c, r.lane, id);
    FlatParts(r.lane, r.got);
    hide Flat, SetLane, Q;
    if k == c && id in {Mal(slot), FreeList(slot, slot.core), Pool(slot.core)} {
      forall a ensures a in t <==> a in st'.places && st'.places[a] == In(id, k) {}
    } else {
      assert t == Q(st.qs, id)[k];
      forall a ensures a in t <==> a in st'.places && st'.places[a] == In(id, k) {
        PlaceInMeans(r.lane, r.got, slot, c, a, if a in st.places then st.places[a] else Out);
      }
    }
  }

  /** A stage that only rearranges one class, or hands a chunk out, keeps the stock tracked. `extra` are
      chunks that were in no queue before, as after a carve. */
  lemma TakeLaneTracked(st: Stock, slot: Slot, c: nat, r: Attempt, extra: seq<Addr>)
    requires Tracked(st) && c < CLASSES && Rearranged(LaneOf(st.qs, slot, c), extra, r)
    requires forall a :: a in extra ==> a in st.places && !st.places[a].In?
    ensures Tracked(TakeLane(st, slot, c, r))
  {
    var st' := TakeLane(st, slot, c, r);
    var l := LaneOf(st.qs, slot, c);
    LaneTracked(st, slot, c);
    FlatParts(r.lane, r.got);
    RearrangedSame(l, extra, r);
    hide Rearranged, PlaceIn, SetLane, Flat, LaneOf, NoDup;
    FlatExtra(l, extra);
    forall id, k | 0 <= k < CLASSES
      ensures Placed(st'.places, In(id, k), Q(st'.qs, id)[k])
    {
      assert Housed(st.places, id, Q(st.qs, id));
      assert Placed(st.places, In(id, k), Q(st.qs, id)[k]);
      SetLaneReads(st.qs, slot, c, r.lane, id);
      TakeLanePlaced(st, slot, c, r, extra, id, k);
    }
  }

  lemma RearrangedSame(l: Lane, extra: seq<Addr>, r: Attempt)
    requires Rearranged(l, extra, r)
    ensures NoDup(Flat(r.lane, r.got)) && forall a :: a in Flat(r.lane, r.got) <==> a in Flat(l, extra)
  {}

  lemma TakeLaneHomed(st: Stock, infos: Infos, slot: Slot, c: nat, r: Attempt, extra: seq<Addr>)
    requires Tracked(st) && Homed(st.places, infos) && c < CLASSES && Rearranged(LaneOf(st.qs, slot, c), extra, r)
    requires forall a :: a in extra ==>
               a in st.places && !st.places[a].In? && infos[a].core == slot.core && Logarithm2(infos[a].size) == c
    ensures Homed(TakeLane(st, slot, c, r).places, infos)
  {
    LaneTracked(st, slot, c);
    RearrangedSame(LaneOf(st.qs, slot, c), extra, r);
    FlatExtra(LaneOf(st.qs, slot, c), extra);
    FlatParts(r.lane, r.got);
    hide Flat, Rearranged, NoDup, Tracked, SetLane, LaneOf, Logarithm2;
  }

  // ---------------------------------------------------------------- the stages are rearrangements

  lemma Permuted(s: seq<Addr>, t: seq<Addr>)
    requires NoDup(s) && |s| == |t| && (forall a :: a in s <==> a in t)
    ensures NoDup(t)
  {
    NoDupCard(s);
    if !NoDup(t) {
      var i, j :| 0 <= i < j < |t| && t[i] == t[j];
      var u := t[..j] + t[j + 1..];
      assert forall a :: a in t ==> a in u by {
        forall a | a in t ensures a in u {
          var m :| 0 <= m < |t| && t[m] == a;
          if m < j { assert u[m] == a; } else if m > j { assert u[m - 1] == a; } else { assert u[i] == a; }
        }
      }
      CardAtMost(u);
      assert Elements(s) == Elements(t);
      assert Elements(t) <= Elements(u);
      SubsetCard(Elements(t), Elements(u));
      assert false;
    }
  }

  lemma SubsetCard(a: set<Addr>, b: set<Addr>)
    requires a <= b
    ensures |a| <= |b|
  {
    if a != {} {
      var x :| x in a;
      SubsetCard(a - {x}, b - {x});
    }
  }

  lemma {:induction false} CardAtMost(s: seq<Addr>)
    ensures |Elements(s)| <= |s|
  {
    if s != [] {
      var t := s[..|s| - 1];
      CardAtMost(t);
      assert Elements(s) == Elements(t) + {s[|s| - 1]};
    }
  }

  lemma FlatMultiset(l: Lane, got: seq<Addr>)
    ensures multiset(Flat(l, got)) == Population(l) + multiset(got)
  {}

  /** Conserving the population is rearranging it. */
  lemma ConservedRearranged(l: Lane, extra: seq<Addr>, r: Attempt)
    requires NoDup(Flat(l, extra)) && Population(r.lane) + multiset(r.got) == Population(l) + multiset(extra)
    ensures Rearranged(l, extra, r)
  {
    var s, t := Flat(l, extra), Flat(r.lane, r.got);
    FlatMultiset(l, extra);
    FlatMultiset(r.lane, r.got);
    hide Flat, Population, NoDup;
    assert |s| == |multiset(s)| && |t| == |multiset(t)|;
    forall a ensures a in s <==> a in t {
      assert a in s <==> a in multiset(s);
      assert a in t <==> a in multiset(t);
    }
    Permuted(s, t);
  }

  lemma StagesRearrange(l: Lane, n: nat)
    requires NoDup(Flat(l, []))
    ensures Rearranged(l, [], LocalStage(l)) && Rearranged(l, [], RefillStage(l, n))
  {
    hide Rearranged, Flat, Population, LocalStage, RefillStage, NoDup;
    LocalConserves(l);
    RefillStageConserves(l, n);
    var none: seq<Addr> := [];
    assert multiset(none) == multiset{};
    ConservedRearranged(l, [], LocalStage(l));
    ConservedRearranged(l, [], RefillStage(l, n));
  }

  lemma CarveRearranges(l: Lane, carved: seq<Addr>)
    requires NoDup(Flat(l, [])) && NoDup(carved) && forall a :: a in carved ==> a !in Flat(l, [])
    ensures Rearranged(l, carved, CarveStage(l, carved))
  {
    hide Rearranged, Population, CarveStage, NoDup;
    CarveStageConserves(l, carved);
    assert Flat(l, []) + carved == Flat(l, carved);
    NoDupConcat(Flat(l, []), carved);
    ConservedRearranged(l, carved, CarveStage(l, carved));
  }

  // ---------------------------------------------------------------- the other operations

  lemma PutBackTracked(st: Stock, id: QueueId, c: nat, x: Addr)
    requires Tracked(st) && c < CLASSES && x in st.places && !st.places[x].In?
    ensures Tracked(PutBack(st, id, c, x))
  {
    var st' := PutBack(st, id, c, x);
    forall i, k | 0 <= k < CLASSES
      ensures Placed(st'.places, In(i, k), Q(st'.qs, i)[k])
    {
      assert Housed(st.places, i, Q(st.qs, i));
      assert Placed(st.places, In(i, k), Q(st.qs, i)[k]);
      if i == id && k == c {
        NoDupConcat(Q(st.qs, i)[k], [x]);
      }
    }
  }

  lemma PutBackHomed(st: Stock, infos: Infos, id: QueueId, c: nat, x: Addr)
    requires Homed(st.places, infos) && c < CLASSES && x in infos
    requires infos[x].core == Home(id) && Logarithm2(infos[x].size) == c
    ensures Homed(PutBack(st, id, c, x).places, infos)
  {
    hide PutClass, Logarithm2;
  }

  lemma MoveAllTracked(st: Stock, from: QueueId, to: QueueId)
    requires Tracked(st) && from != to
    ensures Tracked(MoveAll(st, from, to))
  {
    var st' := MoveAll(st, from, to);
    assert Housed(st.places, from, Q(st.qs, from)) && Housed(st.places, to, Q(st.qs, to));
    forall i, k | 0 <= k < CLASSES
      ensures Placed(st'.places, In(i, k), Q(st'.qs, i)[k])
    {
      assert Placed(st.places, In(from, k), Q(st.qs, from)[k]);
      assert Placed(st.places, In(to, k), Q(st.qs, to)[k]);
      assert Housed(st.places, i, Q(st.qs, i));
      assert Placed(st.places, In(i, k), Q(st.qs, i)[k]);
      if i == to {
        assert forall a :: a in Q(st.qs, to)[k] ==> a !in Q(st.qs, from)[k];
        NoDupConcat(Q(st.qs, to)[k], Q(st.qs, from)[k]);
        assert Q(st'.qs, i)[k] == Q(st.qs, to)[k] + Q(st.qs, from)[k];
      }
    }
  }

  lemma MoveAllHomed(st: Stock, infos: Infos, from: QueueId, to: QueueId)
    requires Homed(st.places, infos) && Home(from) == Home(to)
    ensures Homed(MoveAll(st, from, to).places, infos)
  {
    hide Logarithm2;
  }

  /** Every queue after a flush, in closed form: the pool of each other core has the heap's list for that core
      behind its own chunks, class by class, and that list is empty; every other queue is as it was. */
  lemma {:induction false} FlushReads(st: Stock, slot: Slot, k: nat, id: QueueId)
    ensures Q(FlushBelow(st, slot, k).qs, id) ==
              match id
              case Pool(j) => if j < k && j != slot.core then Joined(Q(st.qs, id), Q(st.qs, FreeList(slot, j)))
                else Q(st.qs, id)
              case FreeList(s, j) => if s == slot && j < k && j != slot.core then Empty() else Q(st.qs, id)
              case Mal(_) => Q(st.qs, id)
    decreases k
  {
    hide MoveAll, Joined, Q, Empty;
    if k > 0 && k - 1 != slot.core {
      FlushReads(st, slot, k - 1, id);
      FlushReads(st, slot, k - 1, FreeList(slot, k - 1));
      FlushReads(st, slot, k - 1, Pool(k - 1));
      MoveAllReads(FlushBelow(st, slot, k - 1), FreeList(slot, k - 1), Pool(k - 1), id);
    } else if k > 0 {
      FlushReads(st, slot, k - 1, id);
    }
  }

  lemma MoveAllReads(st: Stock, from: QueueId, to: QueueId, id: QueueId)
    requires from != to
    ensures Q(MoveAll(st, from, to).qs, id) ==
              if id == from then Empty() else if id == to then Joined(Q(st.qs, to), Q(st.qs, from)) else Q(st.qs, id)
  {}

  /** A flush, like any move between lists of the same core, leaves a sound stock. */
  lemma {:induction false} FlushSound(st: Stock, infos: Infos, slot: Slot, k: nat)
    requires Sound(st, infos)
    ensures Sound(FlushBelow(st, slot, k), infos)
    decreases k
  {
    hide MoveAll, Sound;
    if k > 0 {
      FlushSound(st, infos, slot, k - 1);
      if k - 1 != slot.core {
        MoveAllSound(FlushBelow(st, slot, k - 1), infos, FreeList(slot, k - 1), Pool(k - 1));
      }
    }
  }

  lemma MoveAllSound(st: Stock, infos: Infos, from: QueueId, to: QueueId)
    requires Sound(st, infos) && from != to && Home(from) == Home(to)
    ensures Sound(MoveAll(st, from, to), infos)
  {
    MoveAllTracked(st, from, to);
    MoveAllHomed(st, infos, from, to);
    hide Tracked, Homed;
  }

  lemma PutBackSound(st: Stock, infos: Infos, id: QueueId, c: nat, x: Addr)
    requires Sound(st, infos) && c < CLASSES && x in st.places && st.places[x].Out?
    requires infos[x].core == Home(id) && Logarithm2(infos[x].size) == c
    ensures Sound(PutBack(st, id, c, x), infos)
  {
    PutBackTracked(st, id, c, x);
    PutBackHomed(st, infos, id, c, x);
    hide Tracked, Homed, Logarithm2, PutClass;
  }

  lemma ArriveTracked(st: Stock, s: seq<Addr>)
    requires Tracked(st) && forall a :: a in s ==> a !in st.places
    ensures Tracked(Arrive(st, s))
  {
    forall i, k | 0 <= k < CLASSES
      ensures Placed(Arrive(st, s).places, In(i, k), Q(st.qs, i)[k])
    {
      assert Housed(st.places, i, Q(st.qs, i));
      assert Placed(st.places, In(i, k), Q(st.qs, i)[k]);
    }
  }

  // ---------------------------------------------------------------- what a tracked stock means

  /** Position `i` of class `c` of queue manager `id` holds `a`. */
  predicate SitsAt(qs: QueueTable, a: Addr, id: QueueId, c: nat, i: nat) {
    c < CLASSES && i < |Q(qs, id)[c]| && Q(qs, id)[c][i] == a
  }

  lemma SeatIsPlace(st: Stock, a: Addr, id: QueueId, c: nat, i: nat)
    requires Tracked(st) && SitsAt(st.qs, a, id, c, i)
    ensures a in st.places && st.places[a] == In(id, c)
    ensures forall j :: SitsAt(st.qs, a, id, c, j) ==> j == i
  {
    assert Housed(st.places, id, Q(st.qs, id));
    assert Placed(st.places, In(id, c), Q(st.qs, id)[c]);
    assert Q(st.qs, id)[c][i] in Q(st.qs, id)[c];
  }

  /** A queued chunk sits at exactly one position of exactly one queue; any other chunk sits nowhere. */
  lemma ExactlyOnePlace(st: Stock, infos: Infos, a: Addr)
    requires Tracked(st) && Homed(st.places, infos)
    ensures a in st.places && st.places[a].In? ==> exists id, c, i :: SitsAt(st.qs, a, id, c, i)
    ensures !(a in st.places && st.places[a].In?) ==> forall id, c, i :: !SitsAt(st.qs, a, id, c, i)
    ensures forall id, c, i, id', c', i' ::
              SitsAt(st.qs, a, id, c, i) && SitsAt(st.qs, a, id', c', i') ==> id == id' && c == c' && i == i'
  {
    if a in st.places && st.places[a].In? {
      var id, c := st.places[a].id, st.places[a].cls;
      assert Housed(st.places, id, Q(st.qs, id));
      assert Placed(st.places, In(id, c), Q(st.qs, id)[c]);
      var i :| 0 <= i < |Q(st.qs, id)[c]| && Q(st.qs, id)[c][i] == a;
      assert SitsAt(st.qs, a, id, c, i);
    }
    forall id, c, i | SitsAt(st.qs, a, id, c, i)
      ensures a in st.places && st.places[a] == In(id, c) && forall j :: SitsAt(st.qs, a, id, c, j) ==> j == i
    {
      SeatIsPlace(st, a, id, c, i);
    }
  }
}
