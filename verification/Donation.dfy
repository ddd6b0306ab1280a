/** What a heap leaves behind when its thread returns it: for each core, its free list of that core goes
    to an idle heap of that core, if there is one in another slot (src/global_memory_manager.cpp:95-121). */
module Donations {
  import opened SizeClass
  import opened Chunks
  import opened Stocks

  /** The lowest slot from `from` on, other than `skip`, whose heap of core `core` is idle; `poolN` if none. */
  function FindIdle(busy: set<Slot>, core: nat, skip: nat, poolN: nat, from: nat): (i: nat)
    ensures i <= poolN || i == from
    ensures from <= i
    ensures i < poolN ==> i != skip && Slot(core, i) !in busy
    ensures forall j :: from <= j < i && j != skip && j < poolN ==> Slot(core, j) in busy
    decreases poolN - from
  {
    if from >= poolN then from
    else if from != skip && Slot(core, from) !in busy then from
    else FindIdle(busy, core, skip, poolN, from + 1)
  }

  /** The heap that inherits a leaving heap's free list of core `k`, by its slot index; `poolN` if none does. */
  function Heir(busy: set<Slot>, slot: Slot, poolN: nat, k: nat): nat { FindIdle(busy, k, slot.i, poolN, 0) }

  /** The heir is the lowest idle slot of its core other than the leaving heap's index, and there is one exactly
      if some such slot is idle. */
  lemma HeirIsLowest(busy: set<Slot>, slot: Slot, poolN: nat, k: nat)
    ensures var h := Heir(busy, slot, poolN, k);
            && (h < poolN <==> exists i: nat :: i < poolN && i != slot.i && Slot(k, i) !in busy)
            && (h < poolN ==> h != slot.i && Slot(k, h) !in busy
                              && forall i: nat :: i < h && i != slot.i ==> Slot(k, i) in busy)
  {}

  /** The queue managers that handing on the list of core `k` may change. */
  ghost function HandIds(busy: set<Slot>, slot: Slot, poolN: nat, k: nat): set<QueueId> {
    {FreeList(slot, k)} + (set i | 0 <= i < poolN && Slot(k, i) !in busy :: Mal(Slot(k, i)))
  }

  /** And all lists: the leaving heap's free lists, and `malloc_` of idle heaps. */
  ghost function DonateIds(busy: set<Slot>, slot: Slot, poolN: nat, coreN: nat): set<QueueId> {
    (set k | 0 <= k < coreN :: FreeList(slot, k))
    + (set k, i | 0 <= k < coreN && 0 <= i < poolN && Slot(k, i) !in busy :: Mal(Slot(k, i)))
  }

  lemma HandWithin(busy: set<Slot>, slot: Slot, poolN: nat, coreN: nat, k: nat)
    requires k < coreN
    ensures HandIds(busy, slot, poolN, k) <= DonateIds(busy, slot, poolN, coreN)
  {}

  /** The stock after the free lists of the first `k` cores have been handed on. */
  function Donate(st: Stock, busy: set<Slot>, slot: Slot, poolN: nat, k: nat): Stock {
    if k == 0 then st
    else
      var prev := Donate(st, busy, slot, poolN, k - 1);
      var i := Heir(busy, slot, poolN, k - 1);
      if i < poolN then MoveAll(prev, FreeList(slot, k - 1), Mal(Slot(k - 1, i))) else prev
  }

  lemma {:induction false} DonateTracked(st: Stock, infos: Infos, busy: set<Slot>, slot: Slot, poolN: nat, k: nat)
    requires Tracked(st) && Homed(st.places, infos)
    ensures Tracked(Donate(st, busy, slot, poolN, k)) && Homed(Donate(st, busy, slot, poolN, k).places, infos)
    ensures LiveSet(Donate(st, busy, slot, poolN, k).places) == LiveSet(st.places)
    ensures Settled(st) ==> Settled(Donate(st, busy, slot, poolN, k))
    decreases k
  {
    if k > 0 {
      DonateTracked(st, infos, busy, slot, poolN, k - 1);
      var prev := Donate(st, busy, slot, poolN, k - 1);
      var i := Heir(busy, slot, poolN, k - 1);
      if i < poolN {
        var from, to := FreeList(slot, k - 1), Mal(Slot(k - 1, i));
        MoveAllTracked(prev, from, to);
        MoveAllHomed(prev, infos, from, to);
        LiveAfterMove(prev.places, from, to, CLASSES);
      }
    }
  }

  /** Every queue after a donation, in closed form: for each core with an heir, the heir's `malloc_` has the
      leaving heap's free list of that core behind its own chunks, class by class, and that free list is
      empty; every other queue is as it was. */
  lemma {:induction false} DonateReads(st: Stock, busy: set<Slot>, slot: Slot, poolN: nat, k: nat, id: QueueId)
    ensures Q(Donate(st, busy, slot, poolN, k).qs, id) ==
              match id
              case Mal(s) =>
                if s.core < k && s.i < poolN && s.i == Heir(busy, slot, poolN, s.core)
                then Joined(Q(st.qs, id), Q(st.qs, FreeList(slot, s.core))) else Q(st.qs, id)
              case FreeList(s, j) =>
                if s == slot && j < k && Heir(busy, slot, poolN, j) < poolN then Empty() else Q(st.qs, id)
              case Pool(_) => Q(st.qs, id)
    decreases k
  {
    hide MoveAll, Joined, Q, Empty, Heir;
    if k > 0 {
      DonateReads(st, busy, slot, poolN, k - 1, id);
      DonateReads(st, busy, slot, poolN, k - 1, FreeList(slot, k - 1));
      var i := Heir(busy, slot, poolN, k - 1);
      if i < poolN {
        DonateReads(st, busy, slot, poolN, k - 1, Mal(Slot(k - 1, i)));
        MoveAllReads(Donate(st, busy, slot, poolN, k - 1), FreeList(slot, k - 1), Mal(Slot(k - 1, i)), id);
      }
    }
  }
}
