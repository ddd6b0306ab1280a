/** The class-indexed queues of src/memory_linked_list_manager.cpp: head and last pointers per class,
    linked through the next words of the chunk headers. */
module LinkedLists {
  import opened SizeClass
  import opened Chunks
  import opened Bump
  import opened Machines
  import opened MmapManagers
  import opened Carving

  class MemoryLinkedListManager {
    const mem: Machine
    const heads_: array<Addr>
    const lasts_: array<Addr>
    const coreN_: nat

    /** The role of this manager, and the sequences its pointers represent. */
    ghost const id: QueueId
    ghost var q: Queues
    ghost const Repr: set<object>

    ghost predicate Shape()
      reads this
    {
      && Repr == {this, heads_, lasts_}
      && heads_ != lasts_
      && heads_.Length == CLASSES && lasts_.Length == CLASSES
    }

    ghost predicate Valid()
      reads this, heads_, lasts_, mem`words, mem`places
    {
      && Shape()
      && Housed(mem.places, id, q)
      && Represents(mem.words, q, heads_[..], lasts_[..])
    }

    /** An empty manager for a role that no chunk has yet. */
    constructor Init(mem: Machine, ghost id: QueueId, numCores: nat)
      requires forall a :: a in mem.places ==> !mem.places[a].In? || mem.places[a].id != id
      ensures Valid() && fresh(Repr)
      ensures this.mem == mem && this.id == id && q == Empty() && coreN_ == numCores
    {
      this.mem := mem;
      this.id := id;
      coreN_ := numCores;
      heads_ := new Addr[CLASSES];
      lasts_ := new Addr[CLASSES];
      q := Empty();
      Repr := {this, heads_, lasts_};
      new;
      for i := 0 to CLASSES
        modifies heads_, lasts_
        invariant forall c :: 0 <= c < i ==> heads_[c] == 0 && lasts_[c] == 0
      {
        heads_[i] := 0;
        lasts_[i] := 0;
      }
    }

    method append(index: nat, thead: Addr, tlast: Addr, ghost s: seq<Addr>)
      requires Valid() && mem.Ok() && index < CLASSES
      requires Linked(mem.words, s, thead, tlast) && Insertable(mem.places, mem.infos, id, index, s)
      requires s != [] || q[index] == []
      modifies Repr, mem`words, mem`places
      ensures Valid() && mem.Ok()
      ensures q == old(q)[index := old(q)[index] + s]
      ensures mem.places == Relocate(old(mem.places), s, In(id, index))
      ensures WordsFrame(old(mem.words), mem.words, old(mem.places), mem.infos, {id})
    {
      hide MemoryOk, Housed, Represents, Insertable, WordsFrame, Linked;
      AppendStep(mem.words, mem.places, mem.infos, mem.bump.granted, id, q, heads_[..], lasts_[..], index, s, thead,
                 tlast);
      if heads_[index] == 0 {
        heads_[index] := thead;
        lasts_[index] := tlast;
      } else {
        mem.SetField(lasts_[index], OFF_NEXT, thead);
        lasts_[index] := tlast;
      }
      q := q[index := q[index] + s];
      mem.places := Relocate(mem.places, s, In(id, index));
    }

    method pop(index: nat) returns (r: Addr)
      requires Valid() && mem.Ok() && index < CLASSES
      modifies Repr, mem`words, mem`places, mem`errno
      ensures Valid() && mem.Ok()
      ensures old(q)[index] == [] ==>
                && r == 0 && q == old(q) && mem.errno == ENOMEM
                && mem.words == old(mem.words) && mem.places == old(mem.places)
      ensures old(q)[index] != [] ==>
                && r == old(q)[index][0] && q == old(q)[index := old(q)[index][1..]]
                && mem.places == old(mem.places)[r := Out]
                && mem.errno == old(mem.errno)
      ensures Frame(old(mem.words), old(mem.places), mem.infos, mem.words, mem.places, mem.infos, {id})
    {
      hide MemoryOk, Housed, Represents, WordsFrame, Linked, Frame;
      NullHead(mem.words, q, heads_[..], lasts_[..], index);
      if heads_[index] == 0 || lasts_[index] == 0 {
        mem.errno := ENOMEM;
        SameFrame(mem.words, mem.places, mem.infos, {id});
        return 0;
      }
      PopStep(mem.words, mem.places, mem.infos, mem.bump.granted, id, q, heads_[..], lasts_[..], index);
      r := heads_[index];
      var newHead := mem.Get(r, OFF_NEXT);
      mem.SetField(r, OFF_NEXT, 0);
      if newHead == 0 {
        lasts_[index] := 0;
      }
      heads_[index] := newHead;
      q := q[index := q[index][1..]];
      SetPlaceFrame(old(mem.words), mem.words, mem.places, mem.infos, {id}, r, Out);
      mem.places := mem.places[r := Out];
    }

    method push(index: nat, next: Addr)
      requires Valid() && mem.Ok() && index < CLASSES
      requires mem.Live(next) && mem.infos[next].core == Home(id)
      requires Logarithm2(mem.infos[next].size) == index
      modifies Repr, mem`words, mem`places
      ensures Valid() && mem.Ok()
      ensures q == old(q)[index := old(q)[index] + [next]]
      ensures mem.places == old(mem.places)[next := In(id, index)]
      ensures Frame(old(mem.words), old(mem.places), mem.infos, mem.words, mem.places, mem.infos, {id})
    {
      hide MemoryOk, Housed, Represents, WordsFrame, Linked, Frame, Insertable, Logarithm2;
      KeysMatch(mem.words, mem.places, mem.infos, mem.bump.granted);
      SingleInsertable(mem.words, mem.places, mem.infos, mem.bump.granted, id, index, next);
      append(index, next, next, [next]);
      RelocateOne(old(mem.places), next, In(id, index));
      SetPlaceFrame(old(mem.words), mem.words, old(mem.places), mem.infos, {id}, next, In(id, index));
    }

    /** The body of the first chunk of the request's class, or null. */
    method Malloc(size: nat) returns (ptr: Addr)
      requires Valid() && mem.Ok() && size < TWO_64
      modifies Repr, mem`words, mem`places, mem`errno
      ensures Valid() && mem.Ok()
      ensures var index := Logarithm2(size);
              if old(q)[index] == [] then
                && ptr == 0 && q == old(q) && mem.errno == ENOMEM
                && mem.words == old(mem.words) && mem.places == old(mem.places)
              else
                var x := old(q)[index][0];
                && ptr == x + HEADER && q == old(q)[index := old(q)[index][1..]]
                && x in old(mem.places) && old(mem.places)[x] == In(id, index)
                && mem.places == old(mem.places)[x := Out] && mem.errno == old(mem.errno)
                && x in mem.infos && size <= mem.infos[x].size
      ensures Frame(old(mem.words), old(mem.places), mem.infos, mem.words, mem.places, mem.infos, {id})
    {
      hide MemoryOk, Housed, Represents, WordsFrame, Linked, Logarithm2, Frame;
      var index := Logarithm2(size);
      NullHead(mem.words, q, heads_[..], lasts_[..], index);
      if heads_[index] == 0 || lasts_[index] == 0 {
        mem.errno := ENOMEM;
        SameFrame(mem.words, mem.places, mem.infos, {id});
        return 0;
      }
      QueueEnds(mem.words, mem.places, mem.infos, mem.bump.granted, id, q, heads_[..], lasts_[..], index);
      HeadServes(mem.words, mem.places, mem.infos, mem.bump.granted, id, heads_[index], size);
      ptr := mem.Get(heads_[index], OFF_BODY);
      var _ := pop(index);
    }

    /** Returns the chunk whose body is at `ptr` to the class of its size. */
    method Free(ptr: Addr)
      requires Valid() && mem.Ok()
      requires ptr != 0 ==> mem.Live(ptr - HEADER) && mem.infos[ptr - HEADER].core == Home(id)
      modifies Repr, mem`words, mem`places
      ensures ptr == 0 ==> q == old(q) && mem.places == old(mem.places) && mem.words == old(mem.words)
      ensures ptr != 0 ==>
                var x := ptr - HEADER;
                var index := Logarithm2(mem.infos[x].size);
                && q == old(q)[index := old(q)[index] + [x]]
                && mem.places == old(mem.places)[x := In(id, index)]
      ensures Valid() && mem.Ok()
      ensures Frame(old(mem.words), old(mem.places), mem.infos, mem.words, mem.places, mem.infos, {id})
    {
      hide MemoryOk, Housed, Represents, WordsFrame, Linked, Logarithm2, Frame;
      if ptr == 0 {
        SameFrame(mem.words, mem.places, mem.infos, {id});
        return;
      }
      var m := ptr - HEADER;
      HeaderSize(mem.words, mem.places, mem.infos, mem.bump.granted, m);
      var size := mem.Get(m, OFF_SIZE);
      var index := Logarithm2(size);
      push(index, m);
    }

    /** Carves `n` chunks for requests of `size` and appends them to the request's class. */
    method Allocate(mm: MmapManager, core: nat, size: nat, n: nat)
      returns (ghost p: nat, ghost region: nat, ghost s: seq<Addr>)
      requires Valid() && mem.Ok() && mm.Ready() && mm.mem == mem && Repr !! mm.Repr
      requires core == Home(id) && core < mm.coreN_ == coreN_ && mm.extendOffset_ < EXTEND_MAX
      requires size < TWO_64 && n < TWO_32 && (n > 0 ==> size <= TWO_62)
      requires NoWrap(TotalSize(size), n, mm.pageSize_)
      requires n == 0 ==> q[Logarithm2(size)] == []
      modifies Repr, mm.Repr, mm.kernel, mem`words, mem`bump, mem`places, mem`infos
      ensures Valid() && mem.Ok() && mm.Ready()
      ensures q == old(q)[Logarithm2(size) := old(q)[Logarithm2(size)] + s]
      ensures CarveEffect(old(mem.infos), old(mem.bump), mem.infos, mem.bump, mm.SlotOf(core), core, size, n, p, region,
                          s)
      ensures LiveSet(mem.places) == old(LiveSet(mem.places))
      ensures Frame(old(mem.words), old(mem.places), old(mem.infos), mem.words, mem.places, mem.infos, {id})
      ensures mm.extendOffset_ <= old(mm.extendOffset_) + 1
    {
      hide *;
      var index := Logarithm2(size);
      ghost var w0, p0, i0, b0 := mem.words, mem.places, mem.infos, mem.bump;
      UnfoldValid(this);
      var mmapAddr, head, last;
      mmapAddr, head, last, s, region := AllocateMemoryLinkedList(mm, coreN_, core, size, n);
      p := mmapAddr;
      ghost var w1 := mem.words;
      SameKnownFrame(w0, w1, p0, i0, {id});
      GrowKeepsHoused(p0, i0, id, q, s);
      GrowKeepsRepresents(w0, w1, p0, i0, id, q, heads_[..], lasts_[..]);
      FoldValid(this);
      NewInsertable(p0, i0, id, index, core, size, n, s);
      assert (mm as object) !in Repr && (mm.kernel as object) !in Repr;
      assert (mem as object) !in mm.Repr by { mm.MemOutside(); }
      append(index, head, last, s);
      GrowThenAppendFrame(w0, w1, mem.words, p0, i0, {id}, s, ChunkInfo(core, size));
      NewCoversGrow(s, ChunkInfo(core, size));
      GrowFrame(w0, mem.words, p0, i0, {id}, s, NewPlaces(s), NewInfos(s, ChunkInfo(core, size)), In(id, index));
      LiveAfterGrow(p0, i0, s, In(id, index));
      FoldCarve(i0, b0, mem.infos, mem.bump, mm.SlotOf(core), core, size, n, p, region, s);
    }

    /** Exchanges one class with another manager of the same core. */
    method Swap(dst: MemoryLinkedListManager, index: nat)
      requires Valid() && dst.Valid() && mem.Ok() && dst.mem == mem && index < CLASSES
      requires Repr !! dst.Repr && id != dst.id && Home(id) == Home(dst.id)
      modifies Repr, dst.Repr, mem`places
      ensures Valid() && dst.Valid() && mem.Ok()
      ensures q == old(q)[index := old(dst.q)[index]]
      ensures dst.q == old(dst.q)[index := old(q)[index]]
      ensures mem.places == SwapPlaces(old(mem.places), id, dst.id, index)
      ensures Frame(mem.words, old(mem.places), mem.infos, mem.words, mem.places, mem.infos, {id, dst.id})
    {
      SwapHoused(mem.places, id, q, dst.id, dst.q, index);
      SwapMemory(mem.words, mem.places, mem.infos, mem.bump.granted, id, dst.id, index);
      KeysMatch(mem.words, mem.places, mem.infos, mem.bump.granted);
      SwapFrame(mem.words, mem.places, mem.infos, id, dst.id, index);
      hide MemoryOk, Housed, Linked, Frame;
      heads_[index], dst.heads_[index] := dst.heads_[index], heads_[index];
      lasts_[index], dst.lasts_[index] := dst.lasts_[index], lasts_[index];
      q, dst.q := q[index := dst.q[index]], dst.q[index := q[index]];
      mem.places := SwapPlaces(mem.places, id, dst.id, index);
    }

    /** Appends every class of `lm` to the same class here and leaves `lm` empty. */
    method Join(lm: MemoryLinkedListManager)
      requires Valid() && lm.Valid() && mem.Ok() && lm.mem == mem
      requires Repr !! lm.Repr && id != lm.id && Home(id) == Home(lm.id)
      modifies Repr, lm.Repr, mem`words, mem`places
      ensures Valid() && lm.Valid() && mem.Ok()
      ensures q == Joined(old(q), old(lm.q)) && lm.q == Empty()
      ensures mem.places == MoveClasses(old(mem.places), lm.id, id, CLASSES)
      ensures Frame(old(mem.words), old(mem.places), mem.infos, mem.words, mem.places, mem.infos, {id, lm.id})
    {
      hide *;
      ghost var q0, lq0, p0, w0 := q, lm.q, mem.places, mem.words;
      MoveNone(p0, lm.id, id);
      UnfoldValid(this);
      UnfoldValid(lm);
      WordsFrameSame(w0, p0, mem.infos, {id, lm.id});
      JoinStart(q0, lq0);
      for i := 0 to CLASSES
        invariant Valid() && lm.Valid() && mem.Ok()
        invariant q == JoinedBelow(q0, lq0, i) && lm.q == EmptiedBelow(lq0, i)
        invariant mem.places == MoveClasses(p0, lm.id, id, i)
        invariant WordsFrame(w0, mem.words, p0, mem.infos, {id, lm.id})
      {
        UnfoldValid(this);
        UnfoldValid(lm);
        NullHead(mem.words, lm.q, lm.heads_[..], lm.lasts_[..], i);
        MoveClassesStep(p0, lm.id, id, lm.q, i);
        JoinNext(q0, lq0, i);
        if lm.heads_[i] != 0 {
          ghost var p1, w1 := mem.places, mem.words;
          MovedMovable(p0, lm.id, id, i);
          ClassInsertable(w1, p1, mem.infos, mem.bump.granted, lm.id, lm.q, id, i);
          RepresentsAt(w1, lm.q, lm.heads_[..], lm.lasts_[..], i);
          append(i, lm.heads_[i], lm.lasts_[i], lm.q[i]);
          WordsTouched(w1, mem.words, p1, mem.infos, {id});
          BystanderRepresents(w1, mem.words, p1, mem.infos, {id}, {}, lm.id, lm.q, lm.heads_[..], lm.lasts_[..]);
          LoseClass(p1, lm.id, lm.q, id, i);
          EmptyClass(mem.words, lm.q, lm.heads_[..], lm.lasts_[..], i);
          lm.heads_[i] := 0;
          lm.lasts_[i] := 0;
          lm.q := lm.q[i := []];
          FoldValid(lm);
          WordsFrameCompose(w0, p0, w1, p1, mem.words, mem.infos, {id, lm.id}, {id});
        } else {
          MoveEmptyClass(mem.places, lm.q[i], In(id, i));
        }
      }
      MoveFrame(w0, mem.words, p0, mem.infos, lm.id, id, CLASSES);
    }
  }

  /** Number of nodes from `head` to the last one. */
  method GetLength(mem: Machine, head: Addr, ghost last: Addr, ghost s: seq<Addr>) returns (cnt: nat)
    requires s != [] && Linked(mem.words, s, head, last)
    ensures cnt == |s|
  {
    if mem.Get(head, OFF_NEXT) == 0 {
      LastNode(mem.words, s, head, last, 0);
      return 1;
    }
    cnt := 1;
    var ptr := head;
    LastNode(mem.words, s, head, last, 0);
    while mem.Get(ptr, OFF_NEXT) != 0
      invariant 1 <= cnt <= |s| && ptr == s[cnt - 1]
      invariant mem.Get(ptr, OFF_NEXT) == 0 <==> cnt == |s|
      decreases |s| - cnt
    {
      LastNode(mem.words, s, head, last, cnt);
      ptr := mem.Get(ptr, OFF_NEXT);
      cnt := cnt + 1;
    }
  }

  lemma LastNode(w: Words, s: seq<Addr>, head: Addr, last: Addr, i: nat)
    requires i < |s| && Linked(w, s, head, last)
    ensures Next(w, s[i]) == 0 <==> i == |s| - 1
  {
    if i < |s| - 1 { assert s[i + 1] in s; }
  }

  /** Number of chunks in all classes of a manager, in the 32-bit counter of the source. */
  method GetAllFreeLength(m: MemoryLinkedListManager) returns (cnt: nat)
    requires m.Valid()
    ensures cnt == |PlacedBelow(m.mem.places, m.id, CLASSES)| % 0x1_0000_0000
  {
    cnt := 0;
    for i := 0 to CLASSES
      invariant cnt == CountBelow(m.q, i) % TWO_32
    {
      NullHead(m.mem.words, m.q, m.heads_[..], m.lasts_[..], i);
      if m.heads_[i] != 0 {
        RepresentsAt(m.mem.words, m.q, m.heads_[..], m.lasts_[..], i);
        var n := GetLength(m.mem, m.heads_[i], m.lasts_[i], m.q[i]);
        cnt := (cnt + n) % TWO_32;
      }
    }
    CountPlaced(m.mem.places, m.id, m.q, CLASSES);
  }

  /** A manager outside the frame of what happened since `w`, `p` and `i` is still valid. */
  lemma BystanderValid(m: MemoryLinkedListManager, w: Words, p: Places, i: Infos, ids: set<QueueId>)
    requires m.Shape() && p.Keys == i.Keys && m.id !in ids
    requires Represents(w, m.q, m.heads_[..], m.lasts_[..]) && Housed(p, m.id, m.q)
    requires Frame(w, p, i, m.mem.words, m.mem.places, m.mem.infos, ids)
    ensures m.Valid()
  {
    hide Housed, Represents, Frame, WideFrame;
    FrameIsWide(w, p, i, m.mem.words, m.mem.places, m.mem.infos, ids, ids);
    WideBystanderValid(m, w, p, i, ids, {});
  }

  /** Also when bodies were written. */
  lemma WideBystanderValid(m: MemoryLinkedListManager, w: Words, p: Places, i: Infos, ids: set<QueueId>,
                           written: set<Addr>)
    requires m.Shape() && p.Keys == i.Keys && m.id !in ids
    requires Represents(w, m.q, m.heads_[..], m.lasts_[..]) && Housed(p, m.id, m.q)
    requires WideFrame(w, p, i, m.mem.words, m.mem.places, m.mem.infos, ids, written)
    ensures m.Valid()
  {
    hide Housed, Represents, Touches, PlacesFrame, InfosFrame;
    FrameKeepsHoused(p, m.mem.places, ids, m.id, m.q);
    BystanderRepresents(w, m.mem.words, p, i, ids, written, m.id, m.q, m.heads_[..], m.lasts_[..]);
  }

  /** A manager stays valid when a body is written. */
  lemma BodyWriteValid(m: MemoryLinkedListManager, w: Words, x: Addr)
    requires m.Shape() && m.mem.places.Keys == m.mem.infos.Keys && BodyWritten(w, m.mem.words, m.mem.infos, x)
    requires Represents(w, m.q, m.heads_[..], m.lasts_[..]) && Housed(m.mem.places, m.id, m.q)
    ensures m.Valid()
  {
    hide Housed, Represents, BodyWritten;
    BodyWriteRepresents(w, m.mem.words, m.mem.places, m.mem.infos, x, m.id, m.q, m.heads_[..], m.lasts_[..]);
  }

  lemma FoldValid(m: MemoryLinkedListManager)
    requires m.Repr == {m, m.heads_, m.lasts_} && m.heads_ != m.lasts_
    requires m.heads_.Length == CLASSES && m.lasts_.Length == CLASSES
    requires Represents(m.mem.words, m.q, m.heads_[..], m.lasts_[..]) && Housed(m.mem.places, m.id, m.q)
    ensures m.Valid()
  {}

  lemma UnfoldValid(m: MemoryLinkedListManager)
    requires m.Valid() && m.mem.Ok()
    ensures (m.mem as object) !in m.Repr
    ensures MemoryOk(m.mem.words, m.mem.places, m.mem.infos, m.mem.bump.granted)
    ensures m.Repr == {m, m.heads_, m.lasts_} && m.heads_ != m.lasts_ && m.Shape()
    ensures m.heads_.Length == CLASSES && m.lasts_.Length == CLASSES && m.mem.places.Keys == m.mem.infos.Keys
    ensures Represents(m.mem.words, m.q, m.heads_[..], m.lasts_[..]) && Housed(m.mem.places, m.id, m.q)
  {}
}
