/** The per-core common pools of src/common_memory_pool.cpp. Each method body is the region under
    one core's mutex, so it is one step of the protocol. */
module CommonPools {
  import opened SizeClass
  import opened Bump
  import opened Chunks
  import opened Machines
  import opened LinkedLists
  import opened Lanes
  import opened SizeTables

  /** A chunk in class `c` of a queue manager may be pushed to another manager of the same core. */
  lemma PoppedChunk(w: Words, places: Places, infos: Infos, grants: seq<Grant>, id: QueueId, q: Queues, c: nat)
    requires MemoryOk(w, places, infos, grants) && Housed(places, id, q) && c < CLASSES && q[c] != []
    ensures places.Keys == infos.Keys && q[c][0] in infos && q[c][0] > 0
    ensures places[q[c][0]] == In(id, c)
    ensures infos[q[c][0]].core == Home(id) && Logarithm2(infos[q[c][0]].size) == c
  {
    hide Separated, Covered, HeaderOk;
    assert Placed(places, In(id, c), q[c]);
    assert q[c][0] in q[c];
  }

  class CommonMemoryPool {
    const mem: Machine
    const coreN_: nat
    const msm_: MemorySizeManager
    const poolsPerCore_: seq<MemoryLinkedListManager>

    ghost predicate Shape()
    {
      && |poolsPerCore_| == coreN_
      && (forall k :: 0 <= k < coreN_ ==> poolsPerCore_[k].mem == mem && poolsPerCore_[k].id == Pool(k))
    }

    constructor Init(mem: Machine, numCores: nat, msm: MemorySizeManager, pools: seq<MemoryLinkedListManager>)
      requires |pools| == numCores
      requires forall k :: 0 <= k < numCores ==> pools[k].mem == mem && pools[k].id == Pool(k)
      ensures Shape() && this.mem == mem && coreN_ == numCores && msm_ == msm && poolsPerCore_ == pools
    {
      this.mem, coreN_, msm_, poolsPerCore_ := mem, numCores, msm, pools;
    }

    /** Moves the first chunk of one class of a pool to the end of the same class of `mllm`. */
    method MoveOne(pool: MemoryLinkedListManager, mllm: MemoryLinkedListManager, index: nat) returns (moved: bool)
      requires index < CLASSES && mem.Ok()
      requires mllm.mem == mem && mllm.Valid() && pool.mem == mem && pool.Valid()
      requires Home(mllm.id) == Home(pool.id) && mllm.id != pool.id && pool.Repr !! mllm.Repr
      modifies mllm.Repr, pool.Repr, mem`words, mem`places, mem`errno
      ensures mem.Ok() && mllm.Valid() && pool.Valid()
      ensures moved == (old(pool.q)[index] != [])
      ensures !moved ==> pool.q == old(pool.q) && mllm.q == old(mllm.q)
      ensures moved ==>
                && pool.q == old(pool.q)[index := old(pool.q)[index][1..]]
                && mllm.q == old(mllm.q)[index := old(mllm.q)[index] + [old(pool.q)[index][0]]]
      ensures LiveSet(mem.places) == old(LiveSet(mem.places))
      ensures Frame(old(mem.words), old(mem.places), mem.infos, mem.words, mem.places, mem.infos, {mllm.id, pool.id})
    {
      hide MemoryOk, Housed, Represents, Frame, Logarithm2, LiveSet;
      ghost var w0, p0, i0 := mem.words, mem.places, mem.infos;
      UnfoldValid(pool);
      UnfoldValid(mllm);
      if pool.q[index] != [] {
        PoppedChunk(w0, p0, i0, mem.bump.granted, pool.id, pool.q, index);
      }
      var newHead := pool.pop(index);
      BystanderValid(mllm, w0, p0, i0, {pool.id});
      FrameWider(w0, p0, i0, mem.words, mem.places, mem.infos, {pool.id}, {mllm.id, pool.id});
      if newHead == 0 {
        return false;
      }
      ghost var w1, p1 := mem.words, mem.places;
      UnfoldValid(pool);
      mllm.push(index, newHead);
      BystanderValid(pool, w1, p1, i0, {mllm.id});
      FrameWider(w1, p1, i0, mem.words, mem.places, mem.infos, {mllm.id}, {mllm.id, pool.id});
      FrameTransitive(w0, p0, i0, w1, p1, i0, mem.words, mem.places, i0, {mllm.id, pool.id});
      LiveAfterSet(p0, newHead, Out);
      LiveAfterSet(p1, newHead, In(mllm.id, index));
      PoppedNotLive(p0, pool.id, index, newHead);
      moved := true;
    }

    /** Moves up to `n` chunks of one class of a pool to the end of the same class of `mllm`. */
    method MoveBatch(pool: MemoryLinkedListManager, mllm: MemoryLinkedListManager, index: nat, n: nat)
      requires index < CLASSES && mem.Ok()
      requires mllm.mem == mem && mllm.Valid() && pool.mem == mem && pool.Valid()
      requires Home(mllm.id) == Home(pool.id) && mllm.id != pool.id && pool.Repr !! mllm.Repr
      modifies mllm.Repr, pool.Repr, mem`words, mem`places, mem`errno
      ensures mem.Ok() && mllm.Valid() && pool.Valid()
      ensures var r := Refill(Lane(old(mllm.q)[index], [], old(pool.q)[index]), n);
              mllm.q == old(mllm.q)[index := r.mal] && pool.q == old(pool.q)[index := r.pool]
      ensures mllm.q[index] + pool.q[index] == old(mllm.q)[index] + old(pool.q)[index]
      ensures |pool.q[index]| == if |old(pool.q)[index]| <= n then 0 else |old(pool.q)[index]| - n
      ensures LiveSet(mem.places) == old(LiveSet(mem.places))
      ensures Frame(old(mem.words), old(mem.places), mem.infos, mem.words, mem.places, mem.infos, {mllm.id, pool.id})
    {
      hide MemoryOk, Housed, Represents, Frame, LiveSet;
      ghost var w0, p0, i0, ids := mem.words, mem.places, mem.infos, {mllm.id, pool.id};
      ghost var m0, c0 := mllm.q, pool.q;
      SameFrame(w0, p0, i0, ids);
      KeysMatch(w0, p0, i0, mem.bump.granted);
      NoneMoved(m0, c0, index);
      var i := 0;
      while i < n
        invariant mem.Ok() && mllm.Valid() && pool.Valid()
        invariant i <= n && i <= |c0[index]|
        invariant mllm.q == m0[index := m0[index] + c0[index][..i]] && pool.q == c0[index := c0[index][i..]]
        invariant LiveSet(mem.places) == old(LiveSet(mem.places))
        invariant Frame(w0, p0, i0, mem.words, mem.places, mem.infos, ids)
      {
        ghost var w1, p1 := mem.words, mem.places;
        MoreMoved(m0, c0, index, i);
        var moved := MoveOne(pool, mllm, index);
        FrameTransitive(w0, p0, i0, w1, p1, i0, mem.words, mem.places, i0, ids);
        if !moved {
          break;
        }
        i := i + 1;
      }
    }

    /** Moves up to one batch of the request's class from core `core`'s pool to `mllm`, then serves from `mllm`. */
    method Malloc(mllm: MemoryLinkedListManager, core: nat, size: nat) returns (ptr: Addr)
      requires Shape() && core < coreN_ && size < TWO_64 && mem.Ok()
      requires mllm.mem == mem && mllm.Valid() && Home(mllm.id) == core && mllm.id != Pool(core)
      requires poolsPerCore_[core].Valid() && poolsPerCore_[core].Repr !! mllm.Repr
      modifies mllm.Repr, poolsPerCore_[core].Repr, mem`words, mem`places, mem`errno
      ensures mem.Ok() && mllm.Valid() && poolsPerCore_[core].Valid()
      ensures size == 0 ==> ptr == 0 && mllm.q == old(mllm.q) && poolsPerCore_[core].q == old(poolsPerCore_[core].q)
      ensures size > 0 ==>
                var pool := poolsPerCore_[core];
                var c := Logarithm2(size);
                var r := RefillStage(Lane(old(mllm.q)[c], [], old(pool.q)[c]), msm_.GetMemorySize(c));
                && mllm.q == old(mllm.q)[c := r.lane.mal] && pool.q == old(pool.q)[c := r.lane.pool]
                && mem.Served(ptr, r.got, size)
                && LiveSet(mem.places) == old(LiveSet(mem.places)) + Elements(r.got)
                && (forall x :: x in r.got ==> x !in old(LiveSet(mem.places)))
      ensures size > 0 ==>
                BatchMoved(old(mllm.q)[Logarithm2(size)], old(poolsPerCore_[core].q)[Logarithm2(size)],
                           msm_.GetMemorySize(Logarithm2(size)), ptr, mllm.q[Logarithm2(size)],
                           poolsPerCore_[core].q[Logarithm2(size)])
      ensures ptr == 0 ==> size == 0 || mem.errno == ENOMEM
      ensures Frame(old(mem.words), old(mem.places), mem.infos, mem.words, mem.places, mem.infos, {mllm.id, Pool(core)})
    {
      if size == 0 {
        SameFrame(mem.words, mem.places, mem.infos, {mllm.id, Pool(core)});
        return 0;
      }
      hide MemoryOk, Housed, Represents, Frame, Logarithm2, RefillStage, Refill, TakeHead, Machine.Served, LiveSet;
      var index := Logarithm2(size);
      var n := msm_.GetMemorySize(index);
      var pool := poolsPerCore_[core];
      ghost var w0, p0, i0, ids := mem.words, mem.places, mem.infos, {mllm.id, Pool(core)};
      ghost var l := Lane(mllm.q[index], [], pool.q[index]);
      UnfoldValid(pool);
      UnfoldValid(mllm);
      MoveBatch(pool, mllm, index, n);
      ghost var w1, p1, m1 := mem.words, mem.places, mllm.q;
      ptr := Serve(mllm, pool, size);
      RefillStageMeans(l, n, old(mllm.q), index);
      ServedHead(mem, ptr, RefillStage(l, n).got, size);
      BatchMeans(l, n, ptr);
      FrameTransitive(w0, p0, i0, w1, p1, i0, mem.words, mem.places, i0, ids);
    }

    /** Gives every chunk of `mllm` to core `core`'s pool. */
    method Free(mllm: MemoryLinkedListManager, core: nat)
      requires Shape() && core < coreN_ && mem.Ok()
      requires mllm.mem == mem && mllm.Valid() && Home(mllm.id) == core && mllm.id != Pool(core)
      requires poolsPerCore_[core].Valid() && poolsPerCore_[core].Repr !! mllm.Repr
      modifies mllm.Repr, poolsPerCore_[core].Repr, mem`words, mem`places
      ensures mem.Ok() && mllm.Valid() && poolsPerCore_[core].Valid()
      ensures poolsPerCore_[core].q == Joined(old(poolsPerCore_[core].q), old(mllm.q)) && mllm.q == Empty()
      ensures mem.places == MoveClasses(old(mem.places), mllm.id, Pool(core), CLASSES)
      ensures LiveSet(mem.places) == old(LiveSet(mem.places))
      ensures Frame(old(mem.words), old(mem.places), mem.infos, mem.words, mem.places, mem.infos, {mllm.id, Pool(core)})
    {
      hide MemoryOk, Housed, Represents, Frame, LiveSet, Joined;
      LiveAfterMove(mem.places, mllm.id, Pool(core), CLASSES);
      assert {mllm.id, Pool(core)} == {Pool(core), mllm.id};
      poolsPerCore_[core].Join(mllm);
    }

    /** Serves a request from `mllm`, beside a pool. */
    method Serve(mllm: MemoryLinkedListManager, pool: MemoryLinkedListManager, size: nat) returns (ptr: Addr)
      requires 0 < size < TWO_64 && mem.Ok()
      requires mllm.mem == mem && mllm.Valid() && pool.mem == mem && pool.Valid()
      requires mllm.id != pool.id && pool.Repr !! mllm.Repr
      modifies mllm.Repr, mem`words, mem`places, mem`errno
      ensures mem.Ok() && mllm.Valid() && pool.Valid() && pool.q == old(pool.q)
      ensures var c := Logarithm2(size);
              var r := TakeHead(Lane(old(mllm.q)[c], [], old(pool.q)[c]));
              && mllm.q == old(mllm.q)[c := r.lane.mal]
              && mem.Served(ptr, r.got, size) && LiveSet(mem.places) == old(LiveSet(mem.places)) + Elements(r.got)
              && (forall x :: x in r.got ==> x !in old(LiveSet(mem.places)))
      ensures ptr == 0 ==> mem.errno == ENOMEM
      ensures Frame(old(mem.words), old(mem.places), mem.infos, mem.words, mem.places, mem.infos, {mllm.id, pool.id})
    {
      hide MemoryOk, Housed, Represents, Frame, Logarithm2, LiveSet;
      ghost var w1, p1, i1 := mem.words, mem.places, mem.infos;
      UnfoldValid(pool);
      UnfoldValid(mllm);
      SetTwice(mllm.q, Logarithm2(size), [], []);
      ptr := mllm.Malloc(size);
      if ptr != 0 {
        LiveAfterSet(p1, ptr - HEADER, Out);
        QueuedNotLive(p1, ptr - HEADER);
      }
      BystanderValid(pool, w1, p1, i1, {mllm.id});
      FrameWider(w1, p1, i1, mem.words, mem.places, mem.infos, {mllm.id}, {mllm.id, pool.id});
    }
  }

  /** A batch of `n` chunks of `pool`, or all of them if there are fewer, has gone behind `mal`, and the head of that
      list has been handed out as `ptr`. */
  predicate BatchMoved(mal: seq<Addr>, pool: seq<Addr>, n: nat, ptr: Addr, mal': seq<Addr>, pool': seq<Addr>) {
    && |pool'| == (if |pool| <= n then 0 else |pool| - n)
    && if ptr == 0 then mal == [] && mal' == [] && pool' == pool
       else ptr >= HEADER && mal + pool == [ptr - HEADER] + mal' + pool'
  }

  lemma BatchMeans(l: Lane, n: nat, ptr: Addr)
    requires l.own == [] && (ptr == 0 <==> RefillStage(l, n).got == [])
    requires ptr != 0 ==> ptr >= HEADER && RefillStage(l, n).got[0] == ptr - HEADER
    ensures BatchMoved(l.mal, l.pool, n, ptr, RefillStage(l, n).lane.mal, RefillStage(l, n).lane.pool)
  {
    var l' := Refill(l, n);
    var k := Min(n, |l.pool|);
    assert l.pool == l.pool[..k] + l.pool[k..];
    if l'.mal != [] {
      assert l'.mal == [l'.mal[0]] + l'.mal[1..];
      assert l.mal + l.pool == l'.mal + l'.pool;
    } else {
      assert l'.mal == [];
    }
  }

  lemma ServedHead(mem: Machine, ptr: Addr, got: seq<Addr>, size: nat)
    requires mem.Served(ptr, got, size)
    ensures ptr == 0 <==> got == []
    ensures ptr != 0 ==> ptr >= HEADER && got[0] == ptr - HEADER
  {}

  lemma PoppedNotLive(places: Places, id: QueueId, c: nat, a: Addr)
    requires a in places && places[a] == In(id, c)
    ensures LiveSet(places) + {a} - {a} == LiveSet(places)
  {}

  lemma NoneMoved(m: Queues, c: Queues, index: nat)
    requires index < CLASSES
    ensures m[index := m[index] + c[index][..0]] == m && c[index := c[index][0..]] == c
  {
    assert m[index] + c[index][..0] == m[index];
    assert c[index][0..] == c[index];
  }

  lemma MoreMoved(m: Queues, c: Queues, index: nat, i: nat)
    requires index < CLASSES && i <= |c[index]|
    ensures i < |c[index]| ==>
              && c[index][i..] != [] && c[index][i..][0] == c[index][i] && c[index][i..][1..] == c[index][i + 1..]
              && m[index] + c[index][..i] + [c[index][i]] == m[index] + c[index][..i + 1]
    ensures i == |c[index]| ==> c[index][i..] == []
  {}

  lemma RefillStageMeans(l: Lane, n: nat, q: Queues, index: nat)
    requires index < CLASSES
    ensures var l', r := Refill(l, n), RefillStage(l, n);
            && r == TakeHead(l') && r.lane.pool == l'.pool
            && TakeHead(Lane(l'.mal, [], l'.pool)).lane.mal == r.lane.mal
            && TakeHead(Lane(l'.mal, [], l'.pool)).got == r.got
            && q[index := l'.mal][index := r.lane.mal] == q[index := r.lane.mal]
  {}
}
