/** Memory, chunk headers, and who holds each chunk.

    Memory maps an address to the value stored there: a whole 64-bit field at the address where a header field
    starts, and a byte at any address of a body. What nothing wrote is zero, as in anonymous mappings. A chunk is
    named by the address of its header (src/memory_linked_list.hpp). */
module Chunks {
  import opened SizeClass
  import opened Bump

  type Words = map<int, nat>

  type Addr = nat

  // ---------------------------------------------------------------- header layout

  const SIGNATURE := 0xDEADC0DE

  /** `sizeof(MemoryLinkedList)`: six 8-byte fields. */
  const HEADER := 48

  const OFF_SIGNATURE := 0
  const OFF_CORE := 8
  const OFF_CORE_N := 16
  const OFF_SIZE := 24
  const OFF_NEXT := 32
  const OFF_BODY := 40

  function Read(w: Words, a: int): nat { if a in w then w[a] else 0 }

  /** Cell `i` of the memory that starts at `base`. */
  function Cell(w: Words, base: int, i: nat): nat { Read(w, base + i) }

  /** The word at offset `off` of chunk `x`. */
  function Field(w: Words, x: int, off: int): nat { Read(w, x + off) }

  function Next(w: Words, x: int): nat { Field(w, x, OFF_NEXT) }

  // ---------------------------------------------------------------- queue names and places

  /** Slot `i` of core `core` in the heap table. */
  datatype Slot = Slot(core: nat, i: nat)

  /** A queue manager by its role: a heap's `malloc_`, its `free_[core]`, or the common pool of a core. */
  datatype QueueId = Mal(slot: Slot) | FreeList(slot: Slot, core: nat) | Pool(core: nat)

  /** Where a chunk is: handed out, carved but not yet queued, or in one class of one queue manager. */
  datatype Place = Out | Loose | In(id: QueueId, cls: nat)

  /** A body size that a size class can have. */
  type BodyBytes = n: nat | 8 <= n <= TWO_62 witness 8

  /** What a header records for ever. */
  datatype Info = Info(core: nat, size: BodyBytes)

  type Places = map<Addr, Place>

  type Infos = map<Addr, Info>

  /** The contents of one queue manager, class by class. */
  type Queues = q: seq<seq<Addr>> | |q| == CLASSES witness seq(CLASSES, _ => [])

  /** No chunk in any class. */
  function Empty(): Queues { seq(CLASSES, _ => []) }

  /** Class by class, the chunks of `a` and then those of `b`, for the classes below `upto`. */
  function JoinedBelow(a: Queues, b: Queues, upto: nat): Queues {
    seq(CLASSES, c requires CLASSES > c >= 0 => if c < upto then a[c] + b[c] else a[c])
  }

  function Joined(a: Queues, b: Queues): Queues { JoinedBelow(a, b, CLASSES) }

  function EmptiedBelow(a: Queues, upto: nat): Queues {
    seq(CLASSES, c requires CLASSES > c >= 0 => if c < upto then [] else a[c])
  }

  /** Number of chunks in the classes below `upto`. */
  function CountBelow(q: Queues, upto: nat): nat
    requires upto <= CLASSES
  {
    if upto == 0 then 0 else CountBelow(q, upto - 1) + |q[upto - 1]|
  }

  /** The core every chunk of a queue belongs to. */
  function Home(id: QueueId): nat {
    match id
    case Mal(s) => s.core
    case FreeList(_, k) => k
    case Pool(k) => k
  }

  // ---------------------------------------------------------------- sequences of chunks

  ghost predicate NoDup(s: seq<Addr>) {
    forall i, j :: 0 <= i < j < |s| ==> s[i] != s[j]
  }

  /** `s` lists, once each, exactly the chunks at place `p`. */
  ghost predicate Placed(places: Places, p: Place, s: seq<Addr>) {
    && NoDup(s)
    && (forall a :: a in s <==> a in places && places[a] == p)
  }

  /** A queue manager's sequences list exactly the chunks placed in it. */
  ghost predicate Housed(places: Places, id: QueueId, q: Queues) {
    forall c :: 0 <= c < CLASSES ==> Placed(places, In(id, c), q[c])
  }

  /** `head` to `last` along the next words visits exactly `s`, and stops there. */
  ghost predicate Linked(w: Words, s: seq<Addr>, head: Addr, last: Addr) {
    if s == [] then head == 0 && last == 0
    else
      && head == s[0] && last == s[|s| - 1]
      && (forall i :: 0 <= i < |s| - 1 ==> Next(w, s[i]) == s[i + 1])
      && Next(w, last) == 0
      && 0 !in s
  }

  /** `places` after the chunks of `s` have moved to `p`. */
  function Relocate(places: Places, s: seq<Addr>, p: Place): Places {
    map a | a in places :: if a in s then p else places[a]
  }

  /** The chunks of a carve, all alike. */
  function NewInfos(s: seq<Addr>, info: Info): (infos: Infos)
    ensures forall a :: a in infos <==> a in s
    ensures forall a :: a in s ==> infos[a] == info
  {
    if s == [] then map[] else NewInfos(s[..|s| - 1], info)[s[|s| - 1] := info]
  }

  function NewPlaces(s: seq<Addr>): (places: Places)
    ensures forall a :: a in places <==> a in s
    ensures forall a :: a in s ==> places[a] == Loose
  {
    if s == [] then map[] else NewPlaces(s[..|s| - 1])[s[|s| - 1] := Loose]
  }

  /** The chunks that are handed out. */
  function LiveSet(places: Places): set<Addr> { set a | a in places && places[a].Out? }

  function Elements(s: seq<Addr>): set<Addr> { set a | a in s }

  lemma LiveAfterSet(places: Places, a: Addr, p: Place)
    ensures LiveSet(places[a := p]) == if p.Out? then LiveSet(places) + {a} else LiveSet(places) - {a}
  {}

  lemma {:induction false} NoDupCard(s: seq<Addr>)
    requires NoDup(s)
    ensures |Elements(s)| == |s|
  {
    if s != [] {
      var t := s[..|s| - 1];
      NoDupCard(t);
      assert s[|s| - 1] !in t;
      assert Elements(s) == Elements(t) + {s[|s| - 1]};
    }
  }

  /** The chunks placed in the first `upto` classes of a queue manager. */
  function PlacedBelow(places: Places, id: QueueId, upto: nat): set<Addr> {
    set a | a in places && places[a].In? && places[a].id == id && places[a].cls < upto
  }

  /** The lengths of its sequences add up to the number of chunks placed in a queue manager. */
  lemma {:induction false} CountPlaced(places: Places, id: QueueId, q: Queues, upto: nat)
    requires Housed(places, id, q) && upto <= CLASSES
    ensures CountBelow(q, upto) == |PlacedBelow(places, id, upto)|
    decreases upto
  {
    if upto == 0 {
      assert PlacedBelow(places, id, 0) == {};
    } else {
      var c := upto - 1;
      CountPlaced(places, id, q, c);
      assert Placed(places, In(id, c), q[c]);
      NoDupCard(q[c]);
      assert PlacedBelow(places, id, upto) == PlacedBelow(places, id, c) + Elements(q[c]);
      assert PlacedBelow(places, id, c) !! Elements(q[c]);
    }
  }

  lemma QueuedNotLive(places: Places, a: Addr)
    requires a in places && places[a].In?
    ensures a !in LiveSet(places)
  {}

  lemma LiveAfterSwap(places: Places, a: QueueId, b: QueueId, index: nat)
    ensures LiveSet(SwapPlaces(places, a, b, index)) == LiveSet(places)
  {}

  lemma LiveAfterMove(places: Places, from: QueueId, to: QueueId, upto: nat)
    ensures LiveSet(MoveClasses(places, from, to, upto)) == LiveSet(places)
  {}

  lemma RelocateOne(places: Places, a: Addr, p: Place)
    requires a in places
    ensures Relocate(places, [a], p) == places[a := p]
  {}

  // ---------------------------------------------------------------- layout

  predicate Apart(infos: Infos, a: Addr, b: Addr) {
    a in infos && b in infos ==>
      a + HEADER + infos[a].size <= b || b + HEADER + infos[b].size <= a
  }

  /** Headers with their bodies never overlap. */
  ghost predicate Separated(infos: Infos) {
    forall a: Addr, b: Addr {:trigger Apart(infos, a, b)} :: a in infos && b in infos && a != b ==> Apart(infos, a, b)
  }

  /** The header of `a` says what was recorded when it was carved. */
  predicate HeaderOk(w: Words, a: Addr, info: Info) {
    && Field(w, a, OFF_SIGNATURE) == SIGNATURE
    && Field(w, a, OFF_CORE) == info.core
    && Field(w, a, OFF_SIZE) == info.size
    && Field(w, a, OFF_BODY) == a + HEADER
  }

  predicate InfoOk(a: Addr, info: Info) {
    a > 0 && a % 16 == 0 && info.size == Pow2(Logarithm2(info.size))
  }

  /** Every known chunk lies inside one range that was handed out for it. */
  ghost predicate Covered(infos: Infos, grants: seq<Grant>) {
    forall a :: a in infos ==>
      exists g :: 0 <= g < |grants| && Inside(Range(a, HEADER + infos[a].size), grants[g].range)
  }

  /** The memory invariant: known chunks are well formed, apart and covered; headers are intact;
      a chunk sits only in queues of its own core and class; a chunk that is out is unlinked. */
  ghost predicate MemoryOk(w: Words, places: Places, infos: Infos, grants: seq<Grant>) {
    && places.Keys == infos.Keys
    && Separated(infos)
    && Covered(infos, grants)
    && (forall a :: a in infos ==> InfoOk(a, infos[a]) && HeaderOk(w, a, infos[a]))
    && PlacesOk(w, places, infos)
  }

  ghost predicate PlacesOk(w: Words, places: Places, infos: Infos) {
    forall a :: a in places && a in infos ==>
      match places[a]
      case Out => Next(w, a) == 0
      case Loose => true
      case In(id, c) => infos[a].core == Home(id) && Logarithm2(infos[a].size) == c
  }

  // ---------------------------------------------------------------- frames

  /** A chunk whose next word queue operations on `ids` may write. */
  predicate Movable(places: Places, ids: set<QueueId>, x: Addr) {
    x in places && (!places[x].In? || places[x].id in ids)
  }

  /** No word of a known chunk changed, except next words of movable chunks. */
  ghost predicate WordsFrame(w: Words, w': Words, places: Places, infos: Infos, ids: set<QueueId>) {
    forall x, off {:trigger Field(w', x, off)} ::
      x in infos && 0 <= off < HEADER + infos[x].size && !(off == OFF_NEXT && Movable(places, ids, x)) ==>
        Field(w', x, off) == Field(w, x, off)
  }

  /** No word of a known chunk changed. */
  ghost predicate SameKnown(w: Words, w': Words, infos: Infos) {
    forall x, off {:trigger Field(w', x, off)} ::
      x in infos && 0 <= off < HEADER + infos[x].size ==> Field(w', x, off) == Field(w, x, off)
  }

  /** Known chunks stay known and only movable ones move, within `ids` or out. */
  ghost predicate PlacesFrame(places: Places, places': Places, ids: set<QueueId>) {
    && (forall x :: x in places ==> x in places')
    && (forall x :: x in places && !Movable(places, ids, x) ==> places'[x] == places[x])
    && (forall x :: x in places' && !(x in places && !Movable(places, ids, x)) ==> Movable(places', ids, x))
  }

  ghost predicate InfosFrame(infos: Infos, infos': Infos) {
    forall x :: x in infos ==> x in infos' && infos'[x] == infos[x]
  }

  /** The effect of an operation confined to the queue managers `ids` and to chunks that are out or new. */
  ghost predicate Frame(w: Words, places: Places, infos: Infos,
                        w': Words, places': Places, infos': Infos, ids: set<QueueId>) {
    && WordsFrame(w, w', places, infos, ids)
    && PlacesFrame(places, places', ids)
    && InfosFrame(infos, infos')
  }

  /** The words an operation may change among known chunks: next words of movable chunks of `ids`, and the
      bodies of `written`. */
  ghost predicate Touches(w: Words, w': Words, places: Places, infos: Infos, ids: set<QueueId>, written: set<Addr>) {
    forall x, off {:trigger Field(w', x, off)} ::
      x in infos && 0 <= off < HEADER + infos[x].size
      && !(off == OFF_NEXT && Movable(places, ids, x)) && !(x in written && off >= HEADER) ==>
        Field(w', x, off) == Field(w, x, off)
  }

  /** Like a frame, but the bodies of `written` may change, too. */
  ghost predicate WideFrame(w: Words, places: Places, infos: Infos,
                            w': Words, places': Places, infos': Infos, ids: set<QueueId>, written: set<Addr>) {
    && Touches(w, w', places, infos, ids, written)
    && PlacesFrame(places, places', ids)
    && InfosFrame(infos, infos')
  }

  lemma WordsTouched(w: Words, w': Words, places: Places, infos: Infos, ids: set<QueueId>)
    requires WordsFrame(w, w', places, infos, ids)
    ensures Touches(w, w', places, infos, ids, {})
  {}

  lemma FrameIsWide(w: Words, p: Places, i: Infos, w': Words, p': Places, i': Infos,
                    ids: set<QueueId>, more: set<QueueId>)
    requires p.Keys == i.Keys && Frame(w, p, i, w', p', i', ids) && ids <= more
    ensures WideFrame(w, p, i, w', p', i', more, {})
  {
    hide WordsFrame, PlacesFrame, InfosFrame, Touches;
    FrameWider(w, p, i, w', p', i', ids, more);
    WordsTouched(w, w', p, i, more);
  }

  lemma WideTransitive(w0: Words, p0: Places, i0: Infos, w1: Words, p1: Places, i1: Infos,
                       w2: Words, p2: Places, i2: Infos, ids: set<QueueId>, more: set<QueueId>, written: set<Addr>)
    requires p0.Keys == i0.Keys
    requires Frame(w0, p0, i0, w1, p1, i1, ids) && WideFrame(w1, p1, i1, w2, p2, i2, more, written)
    ensures WideFrame(w0, p0, i0, w2, p2, i2, ids + more, written)
  {
    var all := ids + more;
    forall x, off | x in i0 && 0 <= off < HEADER + i0[x].size && !(off == OFF_NEXT && Movable(p0, all, x))
                    && !(x in written && off >= HEADER)
      ensures Field(w2, x, off) == Field(w0, x, off)
    {
      assert Movable(p0, ids, x) ==> Movable(p0, all, x);
      assert Field(w1, x, off) == Field(w0, x, off);
      assert Movable(p1, more, x) ==> Movable(p0, all, x);
    }
  }

  lemma WordsFrameSame(w: Words, places: Places, infos: Infos, ids: set<QueueId>)
    ensures WordsFrame(w, w, places, infos, ids)
  {}

  lemma SameFrame(w: Words, p: Places, i: Infos, ids: set<QueueId>)
    ensures Frame(w, p, i, w, p, i, ids)
  {}

  lemma KeysMatch(w: Words, places: Places, infos: Infos, grants: seq<Grant>)
    requires MemoryOk(w, places, infos, grants)
    ensures places.Keys == infos.Keys
  {}

  lemma FrameTransitive(w0: Words, p0: Places, i0: Infos, w1: Words, p1: Places, i1: Infos,
                        w2: Words, p2: Places, i2: Infos, ids: set<QueueId>)
    requires p0.Keys == i0.Keys
    requires Frame(w0, p0, i0, w1, p1, i1, ids) && Frame(w1, p1, i1, w2, p2, i2, ids)
    ensures Frame(w0, p0, i0, w2, p2, i2, ids)
  {
    forall x, off | x in i0 && 0 <= off < HEADER + i0[x].size && !(off == OFF_NEXT && Movable(p0, ids, x))
      ensures Field(w2, x, off) == Field(w0, x, off)
    {
      assert Field(w1, x, off) == Field(w0, x, off);
      assert Movable(p1, ids, x) ==> Movable(p0, ids, x);
    }
  }

  lemma FrameWider(w: Words, p: Places, i: Infos, w': Words, p': Places, i': Infos,
                   ids: set<QueueId>, more: set<QueueId>)
    requires p.Keys == i.Keys && Frame(w, p, i, w', p', i', ids) && ids <= more
    ensures Frame(w, p, i, w', p', i', more)
  {
    forall x, off | x in i && 0 <= off < HEADER + i[x].size && !(off == OFF_NEXT && Movable(p, more, x))
      ensures Field(w', x, off) == Field(w, x, off)
    {
      assert !Movable(p, ids, x) || off != OFF_NEXT;
    }
  }

  // Moves within `ids` are confined to `ids`.

  lemma SetPlaceFrame(w: Words, w': Words, p: Places, i: Infos, ids: set<QueueId>, x: Addr, to: Place)
    requires p.Keys == i.Keys && WordsFrame(w, w', p, i, ids) && Movable(p, ids, x)
    requires to.In? ==> to.id in ids
    ensures Frame(w, p, i, w', p[x := to], i, ids)
  {
    hide WordsFrame;
  }

  lemma SwapFrame(w: Words, p: Places, i: Infos, a: QueueId, b: QueueId, index: nat)
    requires p.Keys == i.Keys
    ensures Frame(w, p, i, w, SwapPlaces(p, a, b, index), i, {a, b})
  {}

  lemma MoveFrame(w: Words, w': Words, p: Places, i: Infos, from: QueueId, to: QueueId, upto: nat)
    requires p.Keys == i.Keys && WordsFrame(w, w', p, i, {to, from})
    ensures Frame(w, p, i, w', MoveClasses(p, from, to, upto), i, {to, from})
  {
    hide WordsFrame;
  }

  /** New chunks that end up in `ids` are a confined change. */
  lemma GrowFrame(w: Words, w': Words, p: Places, i: Infos, ids: set<QueueId>, s: seq<Addr>, extra: Places, more: Infos,
                  to: Place)
    requires p.Keys == i.Keys && WordsFrame(w, w', p, i, ids)
    requires extra.Keys == more.Keys && (forall a :: a in s <==> a in extra) && (forall a :: a in extra ==> a !in p)
    requires to.In? ==> to.id in ids
    ensures Frame(w, p, i, w', Relocate(p + extra, s, to), i + more, ids)
  {
    hide WordsFrame;
  }

  /** A queue manager outside the frame keeps its sequences. */
  lemma FrameKeepsHoused(p: Places, p': Places, ids: set<QueueId>, id: QueueId, q: Queues)
    requires PlacesFrame(p, p', ids) && id !in ids && Housed(p, id, q)
    ensures Housed(p', id, q)
  {
    forall c | 0 <= c < CLASSES
      ensures Placed(p', In(id, c), q[c])
    {
      assert Placed(p, In(id, c), q[c]);
      forall a ensures a in q[c] <==> a in p' && p'[a] == In(id, c) {
        if a in p && p[a] == In(id, c) { assert !Movable(p, ids, a); }
        if a in p' && p'[a] == In(id, c) { assert !Movable(p', ids, a); }
      }
    }
  }

  /** The words of a body, addressed by byte offset. */
  ghost predicate SameBody(w: Words, w': Words, x: Addr, size: nat) {
    forall off :: HEADER <= off < HEADER + size ==> Field(w', x, off) == Field(w, x, off)
  }

  /** No confined operation changes a word of any known body. */
  lemma FrameKeepsBodies(w: Words, p: Places, i: Infos, w': Words, p': Places, i': Infos,
                         ids: set<QueueId>, x: Addr)
    requires Frame(w, p, i, w', p', i', ids) && x in i
    ensures SameBody(w, w', x, i[x].size)
  {}

  // ---------------------------------------------------------------- one next word

  /** Among the words of known chunks, only the next word of `x` differs, and it is `v`. */
  ghost predicate NextSet(w: Words, w': Words, infos: Infos, x: Addr, v: nat) {
    forall y, o {:trigger Field(w', y, o)} :: y in infos && 0 <= o < HEADER + infos[y].size ==>
      Field(w', y, o) == if y == x && o == OFF_NEXT then v else Field(w, y, o)
  }

  lemma WriteNext(w: Words, infos: Infos, x: Addr, v: nat)
    requires Separated(infos) && x in infos
    ensures NextSet(w, w[x + OFF_NEXT := v], infos, x, v)
  {
    forall y, o | y in infos && 0 <= o < HEADER + infos[y].size
      ensures Field(w[x + OFF_NEXT := v], y, o) == if y == x && o == OFF_NEXT then v else Field(w, y, o)
    {
      assert y != x ==> Apart(infos, x, y);
    }
  }

  lemma NextSetKeepsHeaders(w: Words, w': Words, infos: Infos, x: Addr, v: nat)
    requires NextSet(w, w', infos, x, v)
    requires forall a :: a in infos ==> HeaderOk(w, a, infos[a])
    ensures forall a :: a in infos ==> HeaderOk(w', a, infos[a])
  {
    forall a | a in infos ensures HeaderOk(w', a, infos[a]) {
      assert HeaderOk(w, a, infos[a]);
    }
  }

  // ---------------------------------------------------------------- queue operations on values

  /** Head and last pointers that represent the sequences of a queue manager. */
  ghost predicate Represents(w: Words, q: Queues, heads: seq<Addr>, lasts: seq<Addr>) {
    && |heads| == |lasts| == CLASSES
    && forall c :: 0 <= c < CLASSES ==> Linked(w, q[c], heads[c], lasts[c])
  }

  /** What may be put into class `index` of queue manager `id`. */
  ghost predicate Insertable(places: Places, infos: Infos, id: QueueId, index: nat, s: seq<Addr>) {
    && NoDup(s)
    && forall a :: a in s ==>
         && a in places && a in infos
         && (!places[a].In? || places[a].id != id)
         && infos[a].core == Home(id) && Logarithm2(infos[a].size) == index
  }

  lemma NoDupConcat(s: seq<Addr>, t: seq<Addr>)
    requires NoDup(s) && NoDup(t) && forall a :: a in s ==> a !in t
    ensures NoDup(s + t)
  {
    forall i, j | 0 <= i < j < |s + t| ensures (s + t)[i] != (s + t)[j] {
      if i < |s| <= j { assert s[i] in s && t[j - |s|] in t; }
    }
  }

  /** Moving `s` behind the contents of one class keeps the listing of that queue manager. */
  lemma AppendHoused(places: Places, infos: Infos, id: QueueId, q: Queues, index: nat, s: seq<Addr>)
    requires index < CLASSES && Housed(places, id, q) && Insertable(places, infos, id, index, s)
    ensures Housed(Relocate(places, s, In(id, index)), id, q[index := q[index] + s])
    ensures NoDup(q[index] + s)
  {
    var places' := Relocate(places, s, In(id, index));
    var q' := q[index := q[index] + s];
    assert Placed(places, In(id, index), q[index]);
    assert forall a :: a in q[index] ==> a !in s;
    NoDupConcat(q[index], s);
    forall c | 0 <= c < CLASSES
      ensures Placed(places', In(id, c), q'[c])
    {
      assert Placed(places, In(id, c), q[c]);
      if c == index {
        forall a ensures a in q'[c] <==> a in places' && places'[a] == In(id, c) {
          assert a in q'[c] <==> a in q[c] || a in s;
        }
      } else {
        assert q'[c] == q[c];
        forall a ensures a in q[c] <==> a in places' && places'[a] == In(id, c) {}
      }
    }
  }

  /** Two linked runs joined at the last node of the first. */
  lemma AppendLinked(w: Words, w': Words, s: seq<Addr>, t: seq<Addr>,
                     head: Addr, last: Addr, head': Addr, last': Addr)
    requires s != [] && t != [] && NoDup(s + t)
    requires Linked(w, s, head, last) && Linked(w, t, head', last')
    requires forall a :: a in s + t ==> Next(w', a) == if a == last then head' else Next(w, a)
    ensures Linked(w', s + t, head, last')
  {
    var u := s + t;
    assert s[|s| - 1] == u[|s| - 1] == last;
    forall i | 0 <= i < |u| - 1 ensures Next(w', u[i]) == u[i + 1] {
      assert u[i] in u;
      if i >= |s| { assert u[i] == t[i - |s|] && u[i + 1] == t[i - |s| + 1]; }
    }
    assert u[|u| - 1] == last' && last' in u;
  }

  /** A sequence none of whose nodes is `x` stays linked when the next word of `x` is written. */
  lemma OthersLinked(w: Words, w': Words, infos: Infos, x: Addr, v: nat, s: seq<Addr>, head: Addr, last: Addr)
    requires NextSet(w, w', infos, x, v) && Linked(w, s, head, last)
    requires x !in s && forall a :: a in s ==> a in infos
    ensures Linked(w', s, head, last)
  {
    forall a | a in s ensures Next(w', a) == Next(w, a) {}
  }

  lemma AppendMemory(w: Words, w': Words, places: Places, infos: Infos, grants: seq<Grant>,
                     id: QueueId, index: nat, s: seq<Addr>, x: Addr, v: nat)
    requires MemoryOk(w, places, infos, grants) && Insertable(places, infos, id, index, s)
    requires NextSet(w, w', infos, x, v) && x in places && places[x].In?
    ensures MemoryOk(w', Relocate(places, s, In(id, index)), infos, grants)
  {
    hide Separated, Covered, InfoOk, NoDup, HeaderOk;
    NextSetKeepsHeaders(w, w', infos, x, v);
    var places' := Relocate(places, s, In(id, index));
    forall a | a in infos && a in places'
      ensures places'[a].Out? ==> Next(w', a) == 0
    {
      assert places'[a].Out? ==> places[a].Out? && a != x;
    }
  }

  lemma AppendToEmpty(w: Words, places: Places, infos: Infos, grants: seq<Grant>, id: QueueId, index: nat, s: seq<Addr>)
    requires MemoryOk(w, places, infos, grants) && Insertable(places, infos, id, index, s)
    ensures MemoryOk(w, Relocate(places, s, In(id, index)), infos, grants)
  {
    hide Separated, Covered, InfoOk, NoDup, HeaderOk;
  }

  lemma ChunksKnown(places: Places, infos: Infos, id: QueueId, q: Queues, c: nat)
    requires Housed(places, id, q) && c < CLASSES && places.Keys == infos.Keys
    ensures NoDup(q[c]) && forall a :: a in q[c] ==> a in infos && a in places && places[a] == In(id, c)
  {
    assert Placed(places, In(id, c), q[c]);
  }

  lemma NotInOther(places: Places, id: QueueId, q: Queues, index: nat, c: nat, x: Addr)
    requires Housed(places, id, q) && index < CLASSES && c < CLASSES && c != index
    requires x in places && places[x] == In(id, index)
    ensures x !in q[c]
  {
    assert Placed(places, In(id, c), q[c]);
  }

  lemma NextAt(w: Words, w': Words, infos: Infos, x: Addr, v: nat, s: seq<Addr>)
    requires NextSet(w, w', infos, x, v) && forall a :: a in s ==> a in infos
    ensures forall a :: a in s ==> Next(w', a) == if a == x then v else Next(w, a)
  {}

  /** The new links and contents when `s` is appended to a nonempty class. */
  lemma AppendRepresents(w: Words, w': Words, places: Places, infos: Infos, grants: seq<Grant>, id: QueueId, q: Queues,
                         heads: seq<Addr>, lasts: seq<Addr>, index: nat, s: seq<Addr>, thead: Addr, tlast: Addr)
    requires MemoryOk(w, places, infos, grants) && Housed(places, id, q) && Represents(w, q, heads, lasts)
    requires places.Keys == infos.Keys
    requires index < CLASSES && Insertable(places, infos, id, index, s) && Linked(w, s, thead, tlast)
    requires s != [] && q[index] != []
    requires NextSet(w, w', infos, lasts[index], thead)
    ensures Represents(w', q[index := q[index] + s], heads, lasts[index := tlast])
  {
    hide MemoryOk, Housed, NoDup, NextSet, Linked;
    var last := lasts[index];
    AppendHoused(places, infos, id, q, index, s);
    QueueEnds(w, places, infos, grants, id, q, heads, lasts, index);
    forall c | 0 <= c < CLASSES
      ensures Linked(w', q[index := q[index] + s][c], heads[c], lasts[index := tlast][c])
    {
      ChunksKnown(places, infos, id, q, c);
      if c == index {
        assert forall a :: a in q[c] + s ==> a in infos;
        NextAt(w, w', infos, last, thead, q[c] + s);
        AppendLinked(w, w', q[c], s, heads[c], last, thead, tlast);
      } else {
        NotInOther(places, id, q, index, c, last);
        OthersLinked(w, w', infos, last, thead, q[c], heads[c], lasts[c]);
      }
    }
  }

  /** Taking the first chunk of one class out keeps the listing. */
  lemma PopHoused(places: Places, id: QueueId, q: Queues, index: nat)
    requires index < CLASSES && Housed(places, id, q) && q[index] != []
    ensures q[index][0] in places && places[q[index][0]] == In(id, index)
    ensures Housed(places[q[index][0] := Out], id, q[index := q[index][1..]])
  {
    var a := q[index][0];
    assert Placed(places, In(id, index), q[index]);
    assert a in q[index];
    var q' := q[index := q[index][1..]];
    forall c | 0 <= c < CLASSES
      ensures Placed(places[a := Out], In(id, c), q'[c])
    {
      assert Placed(places, In(id, c), q[c]);
      if c == index {
        forall b ensures b in q'[c] <==> b in places && b != a && places[b] == In(id, c) {
          assert q[c] == [a] + q'[c];
        }
      } else {
        assert q'[c] == q[c];
      }
    }
  }

  lemma PopLinked(w: Words, w': Words, infos: Infos, s: seq<Addr>, head: Addr, last: Addr)
    requires s != [] && NoDup(s) && Linked(w, s, head, last) && (forall a :: a in s ==> a in infos)
    requires NextSet(w, w', infos, head, 0)
    ensures Linked(w', s[1..], Next(w, head), if Next(w, head) == 0 then 0 else last)
    ensures Next(w, head) == 0 <==> |s| == 1
  {
    if |s| > 1 {
      assert Next(w, s[0]) == s[1] && s[1] in s;
      var t := s[1..];
      forall i | 0 <= i < |t| - 1 ensures Next(w, t[i]) == t[i + 1] {
        assert Next(w, s[i + 1]) == s[i + 2];
      }
      assert Linked(w, t, s[1], last);
      OthersLinked(w, w', infos, head, 0, t, s[1], last);
    }
  }

  lemma PopRepresents(w: Words, w': Words, places: Places, infos: Infos, grants: seq<Grant>, id: QueueId, q: Queues,
                      heads: seq<Addr>, lasts: seq<Addr>, index: nat)
    requires MemoryOk(w, places, infos, grants) && Housed(places, id, q) && Represents(w, q, heads, lasts)
    requires places.Keys == infos.Keys
    requires index < CLASSES && q[index] != []
    requires NextSet(w, w', infos, heads[index], 0)
    ensures var h := Next(w, heads[index]);
            Represents(w', q[index := q[index][1..]], heads[index := h], if h == 0 then lasts[index := 0] else lasts)
  {
    hide MemoryOk, Housed, NoDup, NextSet, Linked;
    var head := heads[index];
    QueueEnds(w, places, infos, grants, id, q, heads, lasts, index);
    ChunksKnown(places, infos, id, q, index);
    PopLinked(w, w', infos, q[index], head, lasts[index]);
    forall c | 0 <= c < CLASSES && c != index
      ensures Linked(w', q[c], heads[c], lasts[c])
    {
      ChunksKnown(places, infos, id, q, c);
      NotInOther(places, id, q, index, c, head);
      OthersLinked(w, w', infos, head, 0, q[c], heads[c], lasts[c]);
    }
  }

  lemma PopMemory(w: Words, w': Words, places: Places, infos: Infos, grants: seq<Grant>, x: Addr)
    requires MemoryOk(w, places, infos, grants) && x in infos
    requires NextSet(w, w', infos, x, 0)
    ensures MemoryOk(w', places[x := Out], infos, grants)
  {
    hide Separated, Covered, InfoOk, HeaderOk;
    NextSetKeepsHeaders(w, w', infos, x, 0);
    forall a | a in infos && places[x := Out][a].Out?
      ensures Next(w', a) == 0
    {}
  }

  /** Writing the next word of a movable chunk is confined. */
  lemma NextSetFrame(w: Words, w': Words, places: Places, infos: Infos, ids: set<QueueId>, x: Addr, v: nat)
    requires NextSet(w, w', infos, x, v) && Movable(places, ids, x)
    ensures WordsFrame(w, w', places, infos, ids)
  {}

  /** The ends of a nonempty class: what the pointers hold, and whose chunks they are. */
  lemma QueueEnds(w: Words, places: Places, infos: Infos, grants: seq<Grant>, id: QueueId, q: Queues,
                  heads: seq<Addr>, lasts: seq<Addr>, index: nat)
    requires MemoryOk(w, places, infos, grants) && Housed(places, id, q) && Represents(w, q, heads, lasts)
    requires index < CLASSES && q[index] != []
    ensures heads[index] == q[index][0] != 0 && lasts[index] == q[index][|q[index]| - 1] != 0
    ensures heads[index] in infos && heads[index] in places && places[heads[index]] == In(id, index)
    ensures lasts[index] in infos && lasts[index] in places && places[lasts[index]] == In(id, index)
    ensures places.Keys == infos.Keys
  {
    assert places.Keys == infos.Keys;
    hide MemoryOk, Housed;
    assert Linked(w, q[index], heads[index], lasts[index]);
    assert heads[index] in q[index] && lasts[index] in q[index];
    HousedChunk(w, places, infos, grants, id, q, index, heads[index]);
    HousedChunk(w, places, infos, grants, id, q, index, lasts[index]);
  }

  /** `append`, on values: what it writes, and all that holds afterwards. */
  lemma AppendStep(w: Words, places: Places, infos: Infos, grants: seq<Grant>, id: QueueId, q: Queues,
                   heads: seq<Addr>, lasts: seq<Addr>, index: nat, s: seq<Addr>, thead: Addr, tlast: Addr)
    requires MemoryOk(w, places, infos, grants) && Housed(places, id, q) && Represents(w, q, heads, lasts)
    requires index < CLASSES && Insertable(places, infos, id, index, s) && Linked(w, s, thead, tlast)
    requires s != [] || q[index] == []
    ensures heads[index] == 0 <==> q[index] == []
    ensures var empty := q[index] == [];
            var w' := if empty then w else w[lasts[index] + OFF_NEXT := thead];
            var q' := q[index := q[index] + s];
            && MemoryOk(w', Relocate(places, s, In(id, index)), infos, grants)
            && Housed(Relocate(places, s, In(id, index)), id, q')
            && Represents(w', q', if empty then heads[index := thead] else heads, lasts[index := tlast])
            && WordsFrame(w, w', places, infos, {id})
  {
    hide *;
    AppendHoused(places, infos, id, q, index, s);
    NullHead(w, q, heads, lasts, index);
    if q[index] == [] {
      assert q[index] + s == s;
      AppendToEmpty(w, places, infos, grants, id, index, s);
      EmptyRepresents(w, q, heads, lasts, index, s, thead, tlast);
      WordsFrameSame(w, places, infos, {id});
    } else {
      var last := lasts[index];
      var w' := w[last + OFF_NEXT := thead];
      QueueEnds(w, places, infos, grants, id, q, heads, lasts, index);
      WriteNextOk(w, places, infos, grants, last, thead);
      AppendRepresents(w, w', places, infos, grants, id, q, heads, lasts, index, s, thead, tlast);
      AppendMemory(w, w', places, infos, grants, id, index, s, last, thead);
      InMovable(places, id, index, last);
      NextSetFrame(w, w', places, infos, {id}, last, thead);
    }
  }

  lemma EmptyRepresents(w: Words, q: Queues, heads: seq<Addr>, lasts: seq<Addr>, index: nat,
                        s: seq<Addr>, thead: Addr, tlast: Addr)
    requires Represents(w, q, heads, lasts) && index < CLASSES && Linked(w, s, thead, tlast)
    ensures Represents(w, q[index := s], heads[index := thead], lasts[index := tlast])
  {
    hide Linked;
  }

  lemma InMovable(places: Places, id: QueueId, index: nat, x: Addr)
    requires x in places && places[x] == In(id, index)
    ensures Movable(places, {id}, x)
  {}

  lemma WriteNextOk(w: Words, places: Places, infos: Infos, grants: seq<Grant>, x: Addr, v: nat)
    requires MemoryOk(w, places, infos, grants) && x in infos
    ensures NextSet(w, w[x + OFF_NEXT := v], infos, x, v)
  {
    WriteNext(w, infos, x, v);
  }

  /** `pop` of a nonempty class, on values. */
  lemma PopStep(w: Words, places: Places, infos: Infos, grants: seq<Grant>, id: QueueId, q: Queues,
                heads: seq<Addr>, lasts: seq<Addr>, index: nat)
    requires MemoryOk(w, places, infos, grants) && Housed(places, id, q) && Represents(w, q, heads, lasts)
    requires index < CLASSES && q[index] != []
    ensures var r := q[index][0];
            var h := Next(w, r);
            var w' := w[r + OFF_NEXT := 0];
            var q' := q[index := q[index][1..]];
            && heads[index] == r != 0 && lasts[index] != 0 && r in infos
            && places.Keys == infos.Keys && places[r] == In(id, index) && Movable(places, {id}, r)
            && MemoryOk(w', places[r := Out], infos, grants)
            && Housed(places[r := Out], id, q')
            && Represents(w', q', heads[index := h], if h == 0 then lasts[index := 0] else lasts)
            && WordsFrame(w, w', places, infos, {id})
  {
    hide *;
    var r := q[index][0];
    QueueEnds(w, places, infos, grants, id, q, heads, lasts, index);
    PopHoused(places, id, q, index);
    WriteNextOk(w, places, infos, grants, r, 0);
    var w' := w[r + OFF_NEXT := 0];
    PopRepresents(w, w', places, infos, grants, id, q, heads, lasts, index);
    PopMemory(w, w', places, infos, grants, r);
    InMovable(places, id, index, r);
    NextSetFrame(w, w', places, infos, {id}, r, 0);
  }

  /** A null head pointer means an empty class. */
  lemma NullHead(w: Words, q: Queues, heads: seq<Addr>, lasts: seq<Addr>, index: nat)
    requires Represents(w, q, heads, lasts) && index < CLASSES
    ensures |heads| == |lasts| == CLASSES
    ensures heads[index] == 0 <==> q[index] == []
    ensures lasts[index] == 0 <==> q[index] == []
  {
    assert Linked(w, q[index], heads[index], lasts[index]);
    assert q[index] != [] ==> heads[index] in q[index] && lasts[index] in q[index];
  }

  lemma SingleInsertable(w: Words, places: Places, infos: Infos, grants: seq<Grant>, id: QueueId, index: nat, x: Addr)
    requires MemoryOk(w, places, infos, grants) && x in infos && x in places && places[x].Out?
    requires infos[x].core == Home(id) && Logarithm2(infos[x].size) == index
    ensures Insertable(places, infos, id, index, [x]) && Linked(w, [x], x, x)
  {}

  lemma HeaderSize(w: Words, places: Places, infos: Infos, grants: seq<Grant>, x: Addr)
    requires MemoryOk(w, places, infos, grants) && x in infos
    ensures Field(w, x, OFF_SIZE) == infos[x].size && Field(w, x, OFF_CORE) == infos[x].core
    ensures 8 <= infos[x].size <= TWO_62 && x in places && x > 0
  {}

  /** The chunk at the head of a request's class has its body behind its header and room for the request. */
  lemma HeadServes(w: Words, places: Places, infos: Infos, grants: seq<Grant>, id: QueueId, x: Addr, size: nat)
    requires MemoryOk(w, places, infos, grants) && x in infos && size < TWO_64
    requires x in places && places[x] == In(id, Logarithm2(size))
    ensures Field(w, x, OFF_BODY) == x + HEADER && size <= infos[x].size
  {
    SizeOfClass(infos[x].size);
    ClassHasRoom(size);
  }

  lemma ClassHasRoom(size: nat)
    requires size < TWO_64
    ensures Logarithm2(size) <= 62 ==> size <= Pow2(Logarithm2(size))
  {
    hide Pow2;
    if size < TWO_63 {
      BodyBelowTop(size);
      BodyFits(size);
    }
  }

  lemma SetTwice(q: Queues, c: nat, a: seq<Addr>, b: seq<Addr>)
    requires c < CLASSES
    ensures q[c := a][c := b] == q[c := b]
    ensures q[c := q[c]] == q
  {}

  // ---------------------------------------------------------------- moving between two queue managers

  /** `places` after classes below `upto` of `from` have moved to the same classes of `to`. */
  function MoveClasses(places: Places, from: QueueId, to: QueueId, upto: nat): Places {
    map a | a in places ::
      if places[a].In? && places[a].id == from && places[a].cls < upto then In(to, places[a].cls) else places[a]
  }

  /** `places` after one class of two queue managers has been exchanged. */
  function SwapPlaces(places: Places, a: QueueId, b: QueueId, index: nat): Places {
    map x | x in places ::
      if places[x] == In(a, index) then In(b, index)
      else if places[x] == In(b, index) then In(a, index)
      else places[x]
  }

  /** A queue manager that another one writes beside keeps its links. */
  lemma BystanderRepresents(w: Words, w': Words, places: Places, infos: Infos, ids: set<QueueId>, written: set<Addr>,
                            id: QueueId, q: Queues, heads: seq<Addr>, lasts: seq<Addr>)
    requires Touches(w, w', places, infos, ids, written) && id !in ids && places.Keys == infos.Keys
    requires Housed(places, id, q) && Represents(w, q, heads, lasts)
    ensures Represents(w', q, heads, lasts)
  {
    hide NoDup, Touches, Housed;
    forall c | 0 <= c < CLASSES
      ensures Linked(w', q[c], heads[c], lasts[c])
    {
      ChunksKnown(places, infos, id, q, c);
      SameNexts(w, w', places, infos, ids, written, id, c, q[c]);
    }
  }

  lemma SameNexts(w: Words, w': Words, places: Places, infos: Infos, ids: set<QueueId>, written: set<Addr>,
                  id: QueueId, c: nat, s: seq<Addr>)
    requires Touches(w, w', places, infos, ids, written) && id !in ids
    requires forall a :: a in s ==> a in infos && a in places && places[a] == In(id, c)
    ensures forall a :: a in s ==> Next(w', a) == Next(w, a)
  {
    forall a | a in s ensures Next(w', a) == Next(w, a) {
      assert !Movable(places, ids, a);
    }
  }

  /** A class that has been appended elsewhere is listed there and no longer here. */
  lemma LoseClass(places: Places, from: QueueId, q: Queues, to: QueueId, i: nat)
    requires Housed(places, from, q) && from != to && i < CLASSES
    ensures Housed(Relocate(places, q[i], In(to, i)), from, q[i := []])
  {
    var places' := Relocate(places, q[i], In(to, i));
    assert Placed(places, In(from, i), q[i]);
    forall c | 0 <= c < CLASSES
      ensures Placed(places', In(from, c), q[i := []][c])
    {
      assert Placed(places, In(from, c), q[c]);
    }
  }

  lemma ClassInsertable(w: Words, places: Places, infos: Infos, grants: seq<Grant>, from: QueueId, q: Queues,
                        to: QueueId, i: nat)
    requires MemoryOk(w, places, infos, grants) && Housed(places, from, q) && from != to && Home(from) == Home(to)
    requires i < CLASSES
    ensures Insertable(places, infos, to, i, q[i])
  {
    hide Separated, Covered, InfoOk, HeaderOk;
    assert Placed(places, In(from, i), q[i]);
  }

  lemma MoveClassesStep(places: Places, from: QueueId, to: QueueId, q: Queues, i: nat)
    requires from != to && i < CLASSES
    requires Housed(MoveClasses(places, from, to, i), from, q)
    ensures Relocate(MoveClasses(places, from, to, i), q[i], In(to, i)) == MoveClasses(places, from, to, i + 1)
  {
    var p := MoveClasses(places, from, to, i);
    assert Placed(p, In(from, i), q[i]);
    forall a | a in places
      ensures Relocate(p, q[i], In(to, i))[a] == MoveClasses(places, from, to, i + 1)[a]
    {
      assert a in q[i] <==> p[a] == In(from, i);
    }
  }

  lemma JoinStart(a: Queues, b: Queues)
    ensures JoinedBelow(a, b, 0) == a && JoinedBelow(a, b, CLASSES) == Joined(a, b)
    ensures EmptiedBelow(b, 0) == b && EmptiedBelow(b, CLASSES) == Empty()
  {}

  lemma JoinNext(a: Queues, b: Queues, i: nat)
    requires i < CLASSES
    ensures var q := JoinedBelow(a, b, i);
            var r := EmptiedBelow(b, i);
            && JoinedBelow(a, b, i + 1) == q[i := q[i] + r[i]]
            && EmptiedBelow(b, i + 1) == r[i := []]
            && (r[i] == [] ==> JoinedBelow(a, b, i + 1) == q && EmptiedBelow(b, i + 1) == r)
  {
    var q, r := JoinedBelow(a, b, i), EmptiedBelow(b, i);
    assert JoinedBelow(a, b, i + 1) == q[i := q[i] + r[i]];
    assert r[i] == [] ==> q[i] + r[i] == q[i];
  }

  lemma RepresentsAt(w: Words, q: Queues, heads: seq<Addr>, lasts: seq<Addr>, i: nat)
    requires Represents(w, q, heads, lasts) && i < CLASSES
    ensures |heads| == |lasts| == CLASSES && Linked(w, q[i], heads[i], lasts[i])
  {}

  lemma EmptyClass(w: Words, q: Queues, heads: seq<Addr>, lasts: seq<Addr>, i: nat)
    requires Represents(w, q, heads, lasts) && i < CLASSES
    ensures Represents(w, q[i := []], heads[i := 0], lasts[i := 0])
  {}

  /** Two confined writes in a row, the second confined to chunks movable in the first state. */
  lemma WordsFrameCompose(w0: Words, p0: Places, w1: Words, p1: Places, w2: Words, infos: Infos,
                          ids: set<QueueId>, ids1: set<QueueId>)
    requires WordsFrame(w0, w1, p0, infos, ids) && WordsFrame(w1, w2, p1, infos, ids1)
    requires forall x :: x in infos && Movable(p1, ids1, x) ==> Movable(p0, ids, x)
    ensures WordsFrame(w0, w2, p0, infos, ids)
  {
    forall x, off | x in infos && 0 <= off < HEADER + infos[x].size && !(off == OFF_NEXT && Movable(p0, ids, x))
      ensures Field(w2, x, off) == Field(w0, x, off)
    {
      assert Field(w2, x, off) == Field(w1, x, off);
    }
  }

  lemma MovedMovable(places: Places, from: QueueId, to: QueueId, i: nat)
    ensures forall x :: Movable(MoveClasses(places, from, to, i), {to}, x) ==> Movable(places, {to, from}, x)
  {}

  /** A class that is already empty moves by itself. */
  lemma MoveEmptyClass(places: Places, s: seq<Addr>, p: Place)
    requires s == []
    ensures Relocate(places, s, p) == places
  {}

  lemma MoveNone(places: Places, from: QueueId, to: QueueId)
    ensures MoveClasses(places, from, to, 0) == places
  {}

  lemma SwapHoused(places: Places, a: QueueId, qa: Queues, b: QueueId, qb: Queues, index: nat)
    requires Housed(places, a, qa) && Housed(places, b, qb) && a != b && index < CLASSES
    ensures Housed(SwapPlaces(places, a, b, index), a, qa[index := qb[index]])
    ensures Housed(SwapPlaces(places, a, b, index), b, qb[index := qa[index]])
  {
    var p := SwapPlaces(places, a, b, index);
    forall c | 0 <= c < CLASSES
      ensures Placed(p, In(a, c), qa[index := qb[index]][c])
      ensures Placed(p, In(b, c), qb[index := qa[index]][c])
    {
      assert Placed(places, In(a, c), qa[c]);
      assert Placed(places, In(b, c), qb[c]);
    }
  }

  lemma SwapMemory(w: Words, places: Places, infos: Infos, grants: seq<Grant>, a: QueueId, b: QueueId, index: nat)
    requires MemoryOk(w, places, infos, grants) && Home(a) == Home(b)
    ensures MemoryOk(w, SwapPlaces(places, a, b, index), infos, grants)
  {
    hide Separated, Covered, InfoOk, HeaderOk;
  }

  // ---------------------------------------------------------------- chunks of a queue

  /** Chunks of one class of a queue manager, as the memory invariant describes them. */
  lemma HousedChunk(w: Words, places: Places, infos: Infos, grants: seq<Grant>, id: QueueId, q: Queues, c: nat, a: Addr)
    requires MemoryOk(w, places, infos, grants) && Housed(places, id, q) && c < CLASSES && a in q[c]
    ensures a in infos && a in places && places[a] == In(id, c)
    ensures infos[a].core == Home(id) && infos[a].size == Pow2(c) && 3 <= c <= 62
  {
    assert Placed(places, In(id, c), q[c]);
    SizeOfClass(infos[a].size);
  }

  lemma SizeOfClass(size: nat)
    requires 8 <= size <= TWO_62
    ensures 3 <= Logarithm2(size) <= 62
  {
    RoundUpBounds(size);
    LogarithmMeaning(size);
  }

  /** A live chunk has gone to the end of its class of a queue manager. */
  ghost predicate Queued(q: Queues, q': Queues, places: Places, places': Places, id: QueueId, x: Addr, info: Info) {
    var c := Logarithm2(info.size);
    && q' == q[c := q[c] + [x]]
    && places' == places[x := In(id, c)]
    && LiveSet(places') == LiveSet(places) - {x}
  }

  // ---------------------------------------------------------------- writes to bodies

  /** The first `size` bytes of the body of `y` in `w'` are those of the body of `x` in `w`. */
  ghost predicate SameContents(w: Words, x: Addr, w': Words, y: Addr, size: nat) {
    forall off :: HEADER <= off < HEADER + size ==> Field(w', y, off) == Field(w, x, off)
  }

  lemma SameBodySameContents(w: Words, w': Words, x: Addr, size: nat)
    requires SameBody(w, w', x, size)
    ensures SameContents(w, x, w', x, size)
  {}

  lemma SameContentsTransitive(w0: Words, x: Addr, w1: Words, y: Addr, w2: Words, z: Addr, size: nat)
    requires SameContents(w0, x, w1, y, size) && SameContents(w1, y, w2, z, size)
    ensures SameContents(w0, x, w2, z, size)
  {
    forall off | HEADER <= off < HEADER + size ensures Field(w2, z, off) == Field(w0, x, off) {
      assert Field(w1, y, off) == Field(w0, x, off);
    }
  }

  /** Among the words of known chunks, only words of the body of `x` differ. */
  ghost predicate BodyWritten(w: Words, w': Words, infos: Infos, x: Addr) {
    forall y, o {:trigger Field(w', y, o)} ::
      y in infos && 0 <= o < HEADER + infos[y].size && !(y == x && o >= HEADER) ==> Field(w', y, o) == Field(w, y, o)
  }

  /** Writing inside one body reaches no header and no other body. */
  lemma WriteInsideBody(w: Words, w': Words, infos: Infos, x: Addr)
    requires Separated(infos) && x in infos
    requires forall a {:trigger Read(w', a)} :: !(x + HEADER <= a < x + HEADER + infos[x].size) ==>
              Read(w', a) == Read(w, a)
    ensures BodyWritten(w, w', infos, x)
  {
    forall y, o | y in infos && 0 <= o < HEADER + infos[y].size && !(y == x && o >= HEADER)
      ensures Field(w', y, o) == Field(w, y, o)
    {
      assert y != x ==> Apart(infos, x, y);
    }
  }

  lemma BodyWriteMemory(w: Words, w': Words, places: Places, infos: Infos, grants: seq<Grant>, x: Addr)
    requires MemoryOk(w, places, infos, grants) && BodyWritten(w, w', infos, x)
    ensures MemoryOk(w', places, infos, grants)
  {
    hide Separated, Covered, InfoOk;
    forall a | a in infos
      ensures HeaderOk(w', a, infos[a]) && Next(w', a) == Next(w, a)
    {
      assert HeaderOk(w, a, infos[a]);
    }
  }

  lemma BodyWriteRepresents(w: Words, w': Words, places: Places, infos: Infos, x: Addr,
                            id: QueueId, q: Queues, heads: seq<Addr>, lasts: seq<Addr>)
    requires BodyWritten(w, w', infos, x) && places.Keys == infos.Keys
    requires Housed(places, id, q) && Represents(w, q, heads, lasts)
    ensures Represents(w', q, heads, lasts)
  {
    hide NoDup, Housed;
    forall c | 0 <= c < CLASSES
      ensures Linked(w', q[c], heads[c], lasts[c])
    {
      ChunksKnown(places, infos, id, q, c);
      forall a | a in q[c] ensures Next(w', a) == Next(w, a) {}
    }
  }

  /** Every body of `live` has the contents it had. */
  ghost predicate BodiesKept(w: Words, w': Words, infos: Infos, live: set<Addr>) {
    forall x :: x in live && x in infos ==> SameBody(w, w', x, infos[x].size)
  }

  lemma FrameKeepsLive(w: Words, p: Places, i: Infos, w': Words, p': Places, i': Infos, ids: set<QueueId>,
                       live: set<Addr>)
    requires Frame(w, p, i, w', p', i', ids)
    ensures BodiesKept(w, w', i, live)
  {
    forall x | x in live && x in i ensures SameBody(w, w', x, i[x].size) {
      FrameKeepsBodies(w, p, i, w', p', i', ids, x);
    }
  }

  lemma BodyWriteKeepsOthers(w: Words, w': Words, i: Infos, x: Addr, live: set<Addr>)
    requires BodyWritten(w, w', i, x) && x !in live
    ensures BodiesKept(w, w', i, live)
  {
    forall y | y in live && y in i ensures SameBody(w, w', y, i[y].size) {}
  }

  lemma BodiesKeptTransitive(w0: Words, w1: Words, w2: Words, i0: Infos, i1: Infos, live: set<Addr>)
    requires BodiesKept(w0, w1, i0, live) && BodiesKept(w1, w2, i1, live) && InfosFrame(i0, i1)
    ensures BodiesKept(w0, w2, i0, live)
  {
    forall x | x in live && x in i0 ensures SameBody(w0, w2, x, i0[x].size) {
      assert SameBody(w0, w1, x, i0[x].size) && SameBody(w1, w2, x, i0[x].size);
      forall off | HEADER <= off < HEADER + i0[x].size ensures Field(w2, x, off) == Field(w0, x, off) {
        assert Field(w1, x, off) == Field(w0, x, off);
      }
    }
  }
}
