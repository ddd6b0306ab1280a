/** Carving one handed-out range into linked chunks (src/memory_linked_list.cpp). */
module Carving {
  import opened SizeClass
  import opened Bump
  import opened Chunks
  import opened Machines
  import opened MmapManagers
  import opened SizeTables

  // ---------------------------------------------------------------- layout arithmetic

  /** Bytes of one chunk: its header and its body, rounded up to 16. */
  function TotalSize(size: nat): nat {
    Align(BodySize(size) + Align(HEADER, 16), 16)
  }

  /** The multiple of `n` at or below `u`. */
  function RoundDown(u: nat, n: nat): nat
    requires n > 0
  {
    u / n * n
  }

  /** `ALIGN(v, n)` in 64-bit arithmetic. */
  function WrapAlign(v: nat, n: nat): nat
    requires n > 0
  {
    RoundDown((v % TWO_64 + n - 1) % TWO_64, n)
  }

  /** Bytes requested for `n` chunks of `total` bytes. */
  function MmapSize(total: nat, n: nat, page: nat): nat
    requires page > 0
  {
    WrapAlign(total * n, page)
  }

  /** The sums behind `MmapSize` stay below 2^64. */
  predicate NoWrap(total: nat, n: nat, page: nat) {
    total * n + page - 1 < TWO_64
  }

  /** Address of chunk `k`. */
  function At(p: nat, total: nat, k: nat): Addr { p + k * total }

  /** The headers of the first `n` chunks of a range. */
  function Headers(p: nat, total: nat, n: nat): seq<Addr> { seq(n, k requires n > k >= 0 => At(p, total, k)) }

  lemma AtNext(p: nat, total: nat, k: nat)
    ensures At(p, total, 0) == p && At(p, total, k + 1) == At(p, total, k) + total
  {}

  lemma AtFrom(p: nat, total: nat, k: nat)
    ensures At(p, total, k) >= p
  {}

  lemma AtOrder(p: nat, total: nat, j: nat, k: nat)
    requires j < k
    ensures At(p, total, j) + total <= At(p, total, k)
  {
    MulMonotone(j + 1, k, total);
  }

  lemma MulMonotone(a: nat, b: nat, n: nat)
    requires a <= b
    ensures a * n <= b * n
  {}

  lemma TotalSizeIs(size: nat)
    requires size < TWO_64
    ensures TotalSize(size) == BodySize(size) + HEADER + (if BodySize(size) == 8 then 8 else 0)
    ensures TotalSize(size) % 16 == 0 && TotalSize(size) <= TWO_63 + 64
  {
    hide *;
    BodyBounds(size);
    BodyIsMultiple(size);
    TotalOf(size, BodySize(size));
  }

  lemma TotalOf(size: nat, b: nat)
    requires size < TWO_64 && b == BodySize(size) <= TWO_63 && (b == 8 || b % 16 == 0)
    ensures TotalSize(size) == b + HEADER + (if b == 8 then 8 else 0)
    ensures TotalSize(size) % 16 == 0 && TotalSize(size) <= TWO_63 + 64
  {
    hide BodySize;
  }

  /** A body is 8 bytes or a multiple of 16. */
  lemma BodyIsMultiple(size: nat)
    requires size < TWO_64
    ensures BodySize(size) == 8 || BodySize(size) % 16 == 0
  {
    hide CeilLog2;
    if 1 <= size <= TWO_63 {
      var k := CeilLog2(size);
      RoundUpBounds(size);
      if k >= 4 { Pow2Multiple(k); } else { Pow2Small(k); }
    }
  }

  lemma Pow2Small(k: nat)
    requires k <= 3
    ensures Pow2(k) <= 8
  {
    Pow2Constants();
    Pow2Monotone(k, 3);
  }

  lemma {:induction false} Pow2Multiple(k: nat)
    requires k >= 4
    ensures Pow2(k) % 16 == 0
  {
    if k > 4 {
      Pow2Multiple(k - 1);
      TwiceMultiple(Pow2(k - 1));
    } else {
      assert Pow2(4) == 16;
    }
  }

  lemma TwiceMultiple(p: nat)
    ensures p % 16 == 0 ==> 2 * p % 16 == 0
  {}

  lemma WrapAlignIs(v: nat, n: nat)
    requires n > 0
    ensures v + n - 1 < TWO_64 ==> WrapAlign(v, n) == Align(v, n)
    ensures v + n - 1 >= TWO_64 && n < TWO_64 ==> WrapAlign(v, n) < v
  {
    hide RoundDown;
    WrapCases(v, n);
    DivBound((v % TWO_64 + n - 1) % TWO_64, n);
    AlignIs(v, n);
  }

  lemma AlignIs(v: nat, n: nat)
    requires n > 0
    ensures Align(v, n) == RoundDown(v + n - 1, n)
  {}

  lemma DivBound(u: nat, n: nat)
    requires n > 0
    ensures RoundDown(u, n) <= u
  {}

  lemma WrapCases(v: nat, n: nat)
    requires n > 0
    ensures var u := (v % TWO_64 + n - 1) % TWO_64;
            && (v + n - 1 < TWO_64 ==> u == v + n - 1)
            && (v + n - 1 >= TWO_64 && n < TWO_64 ==> u < v)
  {
    if v < TWO_64 {
      assert v % TWO_64 == v;
      if v + n - 1 >= TWO_64 && n < TWO_64 { assert (v + n - 1) % TWO_64 == v + n - 1 - TWO_64; }
    }
  }

  /** The chunks lie inside the requested bytes exactly when the 64-bit sums do not wrap. */
  lemma ChunksFitIffNoWrap(total: nat, n: nat, page: nat)
    requires 0 < page < TWO_64
    ensures total * n <= MmapSize(total, n, page) <==> total * n + page - 1 < 0x1_0000_0000_0000_0000
    ensures total * n + page - 1 < 0x1_0000_0000_0000_0000 ==>
              MmapSize(total, n, page) % page == 0 && MmapSize(total, n, page) < total * n + page
  {
    var v := total * n;
    hide WrapAlign, Align;
    WrapAlignIs(v, page);
    if NoWrap(total, n, page) { AlignBounds(v, page); }
  }

  // ---------------------------------------------------------------- header writes

  /** The words after one header has been written at `m`, last of its run. */
  function WithHeader(w: Words, m: Addr, numCores: nat, core: nat, body: nat): Words {
    w[m + OFF_SIGNATURE := SIGNATURE][m + OFF_CORE_N := numCores][m + OFF_CORE := core]
     [m + OFF_SIZE := body][m + OFF_NEXT := 0][m + OFF_BODY := m + Align(HEADER, 16)]
  }

  /** The words of the first `i` chunks of a carved range: whole headers, linked in order. */
  ghost predicate Carved(w: Words, p: nat, total: nat, info: Info, i: nat) {
    forall k :: 0 <= k < i ==> ChunkOk(w, p, total, info, i, k)
  }

  /** Chunk `k` of `i` has its header and is linked to the next one. */
  predicate ChunkOk(w: Words, p: nat, total: nat, info: Info, i: nat, k: nat) {
    && HeaderOk(w, At(p, total, k), info)
    && Next(w, At(p, total, k)) == if k + 1 == i then 0 else At(p, total, k + 1)
  }

  /** The six fields of a header, by their offsets. */
  predicate HeaderAt(w: Words, a: Addr, core: nat, numCores: nat, body: nat, next: nat) {
    && Read(w, a) == 0xDEADC0DE && Read(w, a + 8) == core && Read(w, a + 16) == numCores
    && Read(w, a + 24) == body && Read(w, a + 32) == next && Read(w, a + 40) == a + 48
  }

  /** The first `i` headers of a range tell the number of cores. */
  ghost predicate CoresTold(w: Words, p: nat, total: nat, numCores: nat, i: nat) {
    forall k :: 0 <= k < i ==> Read(w, At(p, total, k) + 16) == numCores
  }

  lemma CoresStep(w: Words, w1: Words, w2: Words, p: nat, total: nat, numCores: nat, i: nat)
    requires CoresTold(w, p, total, numCores, i) && total >= 48 && Read(w1, At(p, total, i) + 16) == numCores
    requires SameOutside(w, w1, At(p, total, i), At(p, total, i) + 48)
    requires w2 == if i == 0 then w1 else w1[At(p, total, i - 1) + 32 := At(p, total, i)]
    ensures CoresTold(w2, p, total, numCores, i + 1)
  {
    forall k | 0 <= k < i + 1 ensures Read(w2, At(p, total, k) + 16) == numCores {
      if k < i {
        AtOrder(p, total, k, i);
        assert Read(w1, At(p, total, k) + 16) == Read(w, At(p, total, k) + 16);
      }
      if 0 < i && k < i - 1 { AtOrder(p, total, k, i - 1); }
      if 0 < i && i - 1 < k { AtOrder(p, total, i - 1, k); }
    }
  }

  /** The `n` headers of a range: one every `total` bytes from `p`, all alike, each with the address of the next one. */
  ghost predicate HeadersAt(w: Words, p: nat, total: nat, core: nat, numCores: nat, body: nat, n: nat) {
    forall k: nat {:trigger At(p, total, k)} :: k < n ==>
      && At(p, total, k) == p + k * total
      && HeaderAt(w, p + k * total, core, numCores, body, if k + 1 == n then 0 else p + (k + 1) * total)
  }

  lemma CarvedHeaders(w: Words, p: nat, total: nat, info: Info, numCores: nat, n: nat)
    requires Carved(w, p, total, info, n) && CoresTold(w, p, total, numCores, n)
    ensures HeadersAt(w, p, total, info.core, numCores, info.size, n)
  {
    forall k: nat {:trigger At(p, total, k)} | k < n
      ensures HeaderAt(w, At(p, total, k), info.core, numCores, info.size, if k + 1 == n then 0
                       else At(p, total, k + 1))
    {
      assert ChunkOk(w, p, total, info, n, k);
    }
  }

  /** Words outside `[lo, hi)` are unchanged. */
  ghost predicate SameOutside(w: Words, w': Words, lo: nat, hi: nat) {
    forall a {:trigger Read(w', a)} :: a < lo || hi <= a ==> Read(w', a) == Read(w, a)
  }

  lemma WithHeaderEffect(w: Words, m: Addr, numCores: nat, core: nat, body: BodyBytes)
    ensures HeaderOk(WithHeader(w, m, numCores, core, body), m, Info(core, body))
    ensures Next(WithHeader(w, m, numCores, core, body), m) == 0
    ensures SameOutside(w, WithHeader(w, m, numCores, core, body), m, m + HEADER)
    ensures Read(WithHeader(w, m, numCores, core, body), m + 16) == numCores && HEADER == 48 && OFF_NEXT == 32
  {}

  /** One more chunk: its header is written and the previous one is linked to it. */
  lemma CarveStep(w: Words, w1: Words, w2: Words, p: nat, total: nat, info: Info, i: nat)
    requires Carved(w, p, total, info, i) && total >= HEADER
    requires HeaderOk(w1, At(p, total, i), info) && Next(w1, At(p, total, i)) == 0
    requires SameOutside(w, w1, At(p, total, i), At(p, total, i) + HEADER)
    requires w2 == if i == 0 then w1 else w1[At(p, total, i - 1) + OFF_NEXT := At(p, total, i)]
    ensures Carved(w2, p, total, info, i + 1)
  {
    var m := At(p, total, i);
    var n := i + 1;
    forall k | 0 <= k < n
      ensures ChunkOk(w2, p, total, info, n, k)
    {
      var x := At(p, total, k);
      if k < i {
        assert ChunkOk(w, p, total, info, i, k);
        AtOrder(p, total, k, i);
        assert HeaderOk(w1, x, info) && Next(w1, x) == Next(w, x);
        if k < i - 1 { AtOrder(p, total, k, i - 1); }
      } else if i > 0 {
        AtOrder(p, total, i - 1, i);
      }
    }
  }

  lemma CarveStepOutside(w0: Words, w: Words, w1: Words, w2: Words, p: nat, total: nat, i: nat)
    requires total >= HEADER && SameOutside(w0, w, p, At(p, total, i))
    requires SameOutside(w, w1, At(p, total, i), At(p, total, i) + HEADER)
    requires w2 == if i == 0 then w1 else w1[At(p, total, i - 1) + OFF_NEXT := At(p, total, i)]
    ensures SameOutside(w0, w2, p, At(p, total, i + 1))
  {
    AtNext(p, total, i);
    if i > 0 {
      AtNext(p, total, i - 1);
    }
    forall a | a < p || At(p, total, i + 1) <= a
      ensures Read(w2, a) == Read(w0, a)
    {
      assert Read(w1, a) == Read(w, a);
    }
  }

  lemma HeadersLength(p: nat, total: nat, n: nat)
    ensures |Headers(p, total, n)| == n
  {}

  lemma HeadersPositive(p: nat, total: nat, n: nat)
    requires p > 0
    ensures 0 !in Headers(p, total, n)
  {}

  lemma CarvedLinked(w: Words, p: nat, total: nat, info: Info, n: nat)
    requires Carved(w, p, total, info, n) && total >= HEADER && (n > 0 ==> p > 0)
    ensures NoDup(Headers(p, total, n))
    ensures Linked(w, Headers(p, total, n), if n == 0 then 0 else p, if n == 0 then 0 else At(p, total, n - 1))
  {
    var s := Headers(p, total, n);
    forall i, j | 0 <= i < j < |s| ensures s[i] != s[j] {
      AtOrder(p, total, i, j);
    }
    if n > 0 {
      AtNext(p, total, 0);
      assert s[0] == p && s[|s| - 1] == At(p, total, n - 1);
      assert ChunkOk(w, p, total, info, n, n - 1);
      forall i | 0 <= i < |s| - 1 ensures Next(w, s[i]) == s[i + 1] {
        assert ChunkOk(w, p, total, info, n, i);
      }
      HeadersPositive(p, total, n);
    }
  }

  // ---------------------------------------------------------------- the memory invariant afterwards

  /** A range apart from every earlier grant. */
  ghost predicate NewRange(grants: seq<Grant>, r: Range) {
    forall g :: 0 <= g < |grants| ==> Disjoint(grants[g].range, r)
  }

  /** A chunk carved from a range apart from all earlier grants is apart from all known chunks. */
  lemma NewApartFromOld(infos: Infos, grants: seq<Grant>, r: Range, a: Addr, b: Addr, size: nat)
    requires Covered(infos, grants) && NewRange(grants, r) && a in infos
    requires Inside(Range(b, HEADER + size), r)
    ensures a + HEADER + infos[a].size <= b || b + HEADER + size <= a
  {
    var g :| 0 <= g < |grants| && Inside(Range(a, HEADER + infos[a].size), grants[g].range);
    assert Disjoint(grants[g].range, r);
  }

  lemma KnownWordsKept(w: Words, w': Words, infos: Infos, grants: seq<Grant>, r: Range, lo: nat, hi: nat)
    requires Covered(infos, grants) && NewRange(grants, r) && r.base <= lo && hi <= r.base + r.size
    requires SameOutside(w, w', lo, hi)
    ensures SameKnown(w, w', infos)
  {
    forall x, off | x in infos && 0 <= off < HEADER + infos[x].size
      ensures Field(w', x, off) == Field(w, x, off)
    {
      var g :| 0 <= g < |grants| && Inside(Range(x, HEADER + infos[x].size), grants[g].range);
      assert Disjoint(grants[g].range, r);
    }
  }

  lemma NewInside(r: Range, total: nat, n: nat, size: nat, b: Addr)
    requires b in Headers(r.base, total, n) && total >= HEADER + size && n * total <= r.size
    ensures Inside(Range(b, HEADER + size), r)
  {
    var k :| 0 <= k < n && b == At(r.base, total, k);
    AtNext(r.base, total, k);
    MulMonotone(k + 1, n, total);
  }

  lemma NewSeparated(infos: Infos, grants: seq<Grant>, r: Range, total: nat, n: nat, info: Info)
    requires Separated(infos) && Covered(infos, grants) && NewRange(grants, r)
    requires total >= HEADER + info.size && n * total <= r.size
    ensures Separated(infos + NewInfos(Headers(r.base, total, n), info))
    ensures Covered(NewInfos(Headers(r.base, total, n), info), [Grant(0, r)])
    ensures forall a :: a in infos ==> a !in Headers(r.base, total, n)
  {
    hide Covered, NewRange, Inside, Headers;
    var s := Headers(r.base, total, n);
    forall b | b in s
      ensures Inside(Range(b, HEADER + info.size), r)
    {
      NewInside(r, total, n, info.size, b);
    }
    forall a, b | a in infos && b in s
      ensures a != b && (a + HEADER + infos[a].size <= b || b + HEADER + info.size <= a)
    {
      NewApartFromOld(infos, grants, r, a, b, info.size);
    }
    forall a, b | a in s && b in s && a != b
      ensures a + HEADER + info.size <= b || b + HEADER + info.size <= a
    {
      NewApartFromNew(r.base, total, n, info.size, a, b);
    }
    UnionSeparated(infos, s, info);
    NewCovered(s, info, r);
  }

  lemma UnionSeparated(infos: Infos, s: seq<Addr>, info: Info)
    requires Separated(infos)
    requires forall a, b :: a in infos && b in s ==>
               a != b && (a + HEADER + infos[a].size <= b || b + HEADER + info.size <= a)
    requires forall a, b :: a in s && b in s && a != b ==> a + HEADER + info.size <= b || b + HEADER + info.size <= a
    ensures Separated(infos + NewInfos(s, info))
  {
    var all := infos + NewInfos(s, info);
    forall a: Addr, b: Addr | a in all && b in all && a != b
      ensures Apart(all, a, b)
    {
      if a in infos && b in infos { assert Apart(infos, a, b); }
    }
  }

  lemma NewCovered(s: seq<Addr>, info: Info, r: Range)
    requires forall b :: b in s ==> Inside(Range(b, HEADER + info.size), r)
    ensures Covered(NewInfos(s, info), [Grant(0, r)])
  {
    hide Inside;
    var gs := [Grant(0, r)];
    forall a | a in NewInfos(s, info)
      ensures exists g :: 0 <= g < |gs| && Inside(Range(a, HEADER + NewInfos(s, info)[a].size), gs[g].range)
    {
      assert Inside(Range(a, HEADER + info.size), gs[0].range);
    }
  }

  lemma NewApartFromNew(p: nat, total: nat, n: nat, size: nat, a: Addr, b: Addr)
    requires a in Headers(p, total, n) && b in Headers(p, total, n) && a != b && total >= HEADER + size
    ensures a + HEADER + size <= b || b + HEADER + size <= a
  {
    var j :| 0 <= j < n && a == At(p, total, j);
    var k :| 0 <= k < n && b == At(p, total, k);
    if j < k { AtOrder(p, total, j, k); } else { AtOrder(p, total, k, j); }
  }

  lemma CoveredMore(a: Infos, b: Infos, gs: seq<Grant>, g: Grant)
    requires Covered(a, gs) && Covered(b, [Grant(0, g.range)])
    ensures Covered(a + b, gs + [g])
  {
    var all := a + b;
    forall x | x in all
      ensures exists i :: 0 <= i < |gs + [g]| && Inside(Range(x, HEADER + all[x].size), (gs + [g])[i].range)
    {
      if x in b {
        assert Inside(Range(x, HEADER + b[x].size), [Grant(0, g.range)][0].range);
        assert (gs + [g])[|gs|] == g;
      } else {
        var i :| 0 <= i < |gs| && Inside(Range(x, HEADER + a[x].size), gs[i].range);
        assert (gs + [g])[i] == gs[i];
      }
    }
  }

  lemma NewHeadersOk(w: Words, p: nat, total: nat, info: Info, n: nat)
    requires Carved(w, p, total, info, n) && p > 0 && p % 16 == 0 && total % 16 == 0
    requires info.size == Pow2(Logarithm2(info.size))
    ensures forall a :: a in Headers(p, total, n) ==> InfoOk(a, info) && HeaderOk(w, a, info)
  {
    hide Pow2, Logarithm2, HeaderOk;
    forall a | a in Headers(p, total, n)
      ensures InfoOk(a, info) && HeaderOk(w, a, info)
    {
      var k :| 0 <= k < n && a == At(p, total, k);
      assert ChunkOk(w, p, total, info, n, k);
      AtAligned(p, total, k);
    }
  }

  lemma {:induction false} AtAligned(p: nat, total: nat, k: nat)
    requires p % 16 == 0 && total % 16 == 0
    ensures At(p, total, k) % 16 == 0
    decreases k
  {
    AtNext(p, total, k);
    if k > 0 {
      AtNext(p, total, k - 1);
      AtAligned(p, total, k - 1);
    }
  }

  /** The memory invariant after a carve: old chunks untouched, new ones whole and loose. */
  lemma CarveMemory(w0: Words, w: Words, places: Places, infos: Infos, grants: seq<Grant>, g: Grant,
                    total: nat, n: nat, info: Info)
    requires MemoryOk(w0, places, infos, grants) && NewRange(grants, g.range) && SameKnown(w0, w, infos)
    requires total >= HEADER + info.size && n * total <= g.range.size && total % 16 == 0
    requires n > 0 ==> g.range.base > 0 && g.range.base % 16 == 0 && info.size == Pow2(Logarithm2(info.size))
    requires Carved(w, g.range.base, total, info, n)
    ensures var s := Headers(g.range.base, total, n);
            && MemoryOk(w, places + NewPlaces(s), infos + NewInfos(s, info), grants + [g])
            && forall a :: a in s ==> a !in infos
  {
    hide *;
    var s := Headers(g.range.base, total, n);
    assert Separated(infos) && Covered(infos, grants)
           && places.Keys == infos.Keys by { MemoryParts(w0, places, infos, grants); }
    NewSeparated(infos, grants, g.range, total, n, info);
    CoveredMore(infos, NewInfos(s, info), grants, g);
    KnownStayWhole(w0, w, places, infos, grants);
    if n > 0 { NewHeadersOk(w, g.range.base, total, info, n); } else { NoHeaders(g.range.base, total); }
    CombineMemory(w, places, infos, grants + [g], s, info);
  }

  lemma NoHeaders(p: nat, total: nat)
    ensures Headers(p, total, 0) == []
  {}

  lemma MemoryParts(w: Words, places: Places, infos: Infos, grants: seq<Grant>)
    requires MemoryOk(w, places, infos, grants)
    ensures Separated(infos) && Covered(infos, grants) && places.Keys == infos.Keys
  {}

  lemma KnownStayWhole(w0: Words, w: Words, places: Places, infos: Infos, grants: seq<Grant>)
    requires MemoryOk(w0, places, infos, grants) && SameKnown(w0, w, infos)
    ensures PlacesOk(w, places, infos)
    ensures forall a :: a in infos ==> InfoOk(a, infos[a]) && HeaderOk(w, a, infos[a])
  {
    hide Separated, Covered, InfoOk, Logarithm2, Pow2;
    forall a | a in infos
      ensures InfoOk(a, infos[a]) && HeaderOk(w, a, infos[a]) && Next(w, a) == Next(w0, a)
    {
      assert HeaderOk(w0, a, infos[a]);
    }
  }

  lemma CombineMemory(w: Words, places: Places, infos: Infos, grants: seq<Grant>, s: seq<Addr>, info: Info)
    requires places.Keys == infos.Keys && PlacesOk(w, places, infos)
    requires forall a :: a in infos ==> InfoOk(a, infos[a]) && HeaderOk(w, a, infos[a])
    requires forall a :: a in s ==> InfoOk(a, info) && HeaderOk(w, a, info)
    requires Separated(infos + NewInfos(s, info)) && Covered(infos + NewInfos(s, info), grants)
    requires forall a :: a in infos ==> a !in s
    ensures MemoryOk(w, places + NewPlaces(s), infos + NewInfos(s, info), grants)
  {
    var places', infos' := places + NewPlaces(s), infos + NewInfos(s, info);
    NewKeys(s, info);
    hide Separated, Covered, InfoOk, HeaderOk, Logarithm2, NewPlaces, NewInfos;
    assert places'.Keys == infos'.Keys;
    forall a | a in infos' ensures InfoOk(a, infos'[a]) && HeaderOk(w, a, infos'[a]) {
      assert a in s || a in infos;
    }
    assert PlacesOk(w, places', infos');
  }

  lemma NewKeys(s: seq<Addr>, info: Info)
    ensures NewPlaces(s).Keys == NewInfos(s, info).Keys == Elements(s)
    ensures forall a :: a in s ==> NewPlaces(s)[a] == Loose && NewInfos(s, info)[a] == info
  {}

  // ---------------------------------------------------------------- the range a carve asks for

  /** A first touch clears no word of a known chunk. */
  lemma FirstUseKeepsKnown(b: Bump, slot: nat, w: Words, w': Words, infos: Infos)
    requires BumpInv(b) && Covered(infos, b.granted) && FirstUse(b, slot, w, w')
    ensures SameKnown(w, w', infos)
  {
    if !b.arenas[slot].touched {
      var r := b.arenas[slot].All();
      assert b.arenas[slot].Rest() == r;
      forall x, off | x in infos && 0 <= off < HEADER + infos[x].size
        ensures Field(w', x, off) == Field(w, x, off)
      {
        var g :| 0 <= g < |b.granted| && Inside(Range(x, HEADER + infos[x].size), b.granted[g].range);
        assert Disjoint(b.granted[g].range, r);
      }
    }
  }

  lemma DivisorOfDivisor(v: nat, page: nat)
    requires page > 0 && v % page == 0 && page % 16 == 0
    ensures v % 16 == 0
  {
    var q := page / 16;
    var k := v / page;
    assert v == k * page && page == q * 16;
    assert v == k * q * 16;
    MultipleMod(k * q, 16);
  }

  /** The range of a page-multiple request: aligned, nonzero, and apart from all earlier grants. */
  lemma GrantFacts(b: Bump, slot: nat, size: nat, region: nat)
    requires BumpInv(b) && OffsetsPaged(b) && slot < |b.arenas| && size % b.page == 0 && b.page % 16 == 0
    requires !Fits(b, slot, size) ==> FreshRegion(b, Range(region, ExtensionSize(b.page, size)))
    ensures var b' := Request(b, slot, size, region);
            && BumpInv(b') && OffsetsPaged(b') && |b'.granted| == |b.granted| + 1
            && b'.granted == b.granted + [b'.granted[|b.granted|]]
            && b'.page == b.page && |b'.arenas| == |b.arenas|
            && (forall i :: 0 <= i < |b'.arenas| && !b'.arenas[i].touched ==> b'.arenas[i] == b.arenas[i])
            && NewRange(b.granted, b'.granted[|b.granted|].range)
            && (size > 0 ==> b'.granted[|b.granted|].range.base > 0 && b'.granted[|b.granted|].range.base % 16 == 0)
  {
    var b' := Request(b, slot, size, region);
    RequestKeepsInv(b, slot, size, region);
    RequestKeepsPaging(b, slot, size, region);
    RequestAppends(b, slot, size, region);
    if size > 0 { DivisorOfDivisor(b'.granted[|b.granted|].range.base, b.page); }
    forall g | 0 <= g < |b.granted|
      ensures Disjoint(b.granted[g].range, b'.granted[|b.granted|].range)
    {
      assert b'.granted[g] == b.granted[g];
    }
  }

  lemma RequestAppends(b: Bump, slot: nat, size: nat, region: nat)
    requires BumpInv(b) && slot < |b.arenas|
    requires !Fits(b, slot, size) ==> region > 0
    ensures var b' := Request(b, slot, size, region);
            && |b'.granted| == |b.granted| + 1
            && b'.granted == b.granted + [b'.granted[|b.granted|]]
            && b'.page == b.page && |b'.arenas| == |b.arenas|
            && b'.arenas[slot].touched
            && (forall i :: 0 <= i < |b'.arenas| && i != slot ==> b'.arenas[i] == b.arenas[i])
            && (size > 0 ==> b'.granted[|b.granted|].range.base > 0)
  {}

  lemma ExtensionBound(page: nat, size: nat)
    requires 0 < page < TWO_32 && size % page == 0 && size < TWO_64
    ensures ExtensionSize(page, size) < TWO_64
  {
    var m := Max(MIN_EXTENSION, size);
    AlignBounds(m, page);
    if m == size {
      NextMultiple(Align(m, page), size, page);
    }
  }

  // ---------------------------------------------------------------- the carving loop

  /** The header contents of a carve's chunks. */
  function ChunkInfo(core: nat, size: nat): Info
    requires size < TWO_64
  {
    BodyBounds(size);
    Info(core, if BodySize(size) <= TWO_62 then BodySize(size) else 8)
  }

  /** Writes one header in place and links the previous one to it. */
  method WriteHeader(mem: Machine, m: Addr, pre: Addr, numCores: nat, core: nat, bodySize: nat)
    requires core < numCores
    modifies mem`words
    ensures var w := WithHeader(old(mem.words), m, numCores, core, bodySize);
            mem.words == if pre == 0 then w else w[pre + OFF_NEXT := m]
  {
    // Init
    mem.SetField(m, OFF_SIGNATURE, SIGNATURE);
    mem.SetField(m, OFF_CORE_N, numCores);
    mem.SetField(m, OFF_CORE, TWO_64 - 1);
    mem.SetField(m, OFF_SIZE, 0);
    mem.SetField(m, OFF_NEXT, 0);
    mem.SetField(m, OFF_BODY, 0);
    // SetCore, SetSize, SetBodyAddr
    mem.SetField(m, OFF_CORE, core);
    mem.SetField(m, OFF_SIZE, bodySize);
    mem.SetField(m, OFF_BODY, m + Align(HEADER, 16));
    WithHeaderOrder(old(mem.words), m, numCores, core, bodySize);
    if pre != 0 {
      mem.SetField(pre, OFF_NEXT, m);
    }
  }

  /** The order of the writes to one header does not matter. */
  lemma WithHeaderOrder(w: Words, m: Addr, numCores: nat, core: nat, body: nat)
    ensures w[m + OFF_SIGNATURE := SIGNATURE][m + OFF_CORE_N := numCores][m + OFF_CORE := TWO_64 - 1]
             [m + OFF_SIZE := 0][m + OFF_NEXT := 0][m + OFF_BODY := 0]
             [m + OFF_CORE := core][m + OFF_SIZE := body][m + OFF_BODY := m + Align(HEADER, 16)]
            == WithHeader(w, m, numCores, core, body)
  {}

  /** Carves `n` chunks for requests of `size` out of the range that starts at `p`. */
  method CarveRange(mem: Machine, p: nat, numCores: nat, core: nat, bodySize: nat, totalSize: nat, n: nat,
                    ghost info: Info)
    returns (head: Addr, last: Addr)
    requires core < numCores && n < TWO_32 && totalSize >= HEADER + bodySize && (n > 0 ==> p > 0)
    requires n > 0 ==> info.core == core && info.size == bodySize
    modifies mem`words
    ensures Carved(mem.words, p, totalSize, info, n)
    ensures n > 0 ==> HeadersAt(mem.words, p, totalSize, core, numCores, bodySize, n)
    ensures SameOutside(old(mem.words), mem.words, p, At(p, totalSize, n))
    ensures Linked(mem.words, Headers(p, totalSize, n), head, last)
  {
    hide HeaderOk, Carved, SameOutside, Linked, WithHeader, CoresTold, HeaderAt, HeadersAt, At, Headers;
    var buffer := p;
    head := 0;
    var pre := 0;
    var i := 0;
    AtNext(p, totalSize, 0);
    AtFrom(p, totalSize, 0);
    CarvedNone(mem.words, p, totalSize, info);
    while i < n
      invariant i <= n && buffer == At(p, totalSize, i)
      invariant head == (if i == 0 then 0 else p) && pre == if i == 0 then 0 else At(p, totalSize, i - 1)
      invariant Carved(mem.words, p, totalSize, info, i) && CoresTold(mem.words, p, totalSize, numCores, i)
      invariant SameOutside(old(mem.words), mem.words, p, At(p, totalSize, i))
    {
      ghost var w := mem.words;
      ghost var w1 := WithHeader(w, buffer, numCores, core, bodySize);
      WithHeaderEffect(w, buffer, numCores, core, info.size);
      var m := buffer;
      if i > 0 { AtFrom(p, totalSize, i - 1); }
      WriteHeader(mem, m, pre, numCores, core, bodySize);
      CarveStep(w, w1, mem.words, p, totalSize, info, i);
      CoresStep(w, w1, mem.words, p, totalSize, numCores, i);
      CarveStepOutside(old(mem.words), w, w1, mem.words, p, totalSize, i);
      if head == 0 {
        head := m;
      }
      AtNext(p, totalSize, i);
      buffer := buffer + totalSize;
      pre := m;
      i := (i + 1) % TWO_32;
    }
    last := pre;
    CarvedLinked(mem.words, p, totalSize, info, n);
    CarvedHeaders(mem.words, p, totalSize, info, numCores, n);
  }

  lemma CarvedNone(w: Words, p: nat, total: nat, info: Info)
    ensures Carved(w, p, total, info, 0) && At(p, total, 0) == p && SameOutside(w, w, p, p)
            && forall c: nat :: CoresTold(w, p, total, c, 0)
  {}

  /** One request with extension allowed: its outcome, and that its range is new. */
  ghost predicate RangeEffect(b: Bump, b': Bump, slot: nat, mmapSize: nat, p: nat, region: nat) {
    && slot < |b.arenas| && b.page > 0
    && b' == Request(b, slot, mmapSize, region)
    && (!Fits(b, slot, mmapSize) ==> FreshRegion(b, Range(region, ExtensionSize(b.page, mmapSize))))
    && b'.granted == b.granted + [Grant(slot, Range(p, mmapSize))]
    && NewRange(b.granted, Range(p, mmapSize))
  }

  lemma RangeEffectGrant(b: Bump, b': Bump, slot: nat, mmapSize: nat, p: nat, region: nat)
    requires RangeEffect(b, b', slot, mmapSize, p, region)
    ensures b'.granted == b.granted + [Grant(slot, Range(p, mmapSize))] && NewRange(b.granted, Range(p, mmapSize))
  {}

  /** The range a carve asks for, when extension is enabled. */
  method RequestRange(mm: MmapManager, core: nat, mmapSize: nat) returns (p: nat, ghost region: nat)
    requires mm.Ready() && mm.mem.Ok() && core < mm.coreN_ && mm.extendOffset_ < EXTEND_MAX
    requires mmapSize < TWO_64 && mmapSize % mm.pageSize_ == 0
    modifies mm.Repr, mm.kernel, mm.mem`bump, mm.mem`words
    ensures mm.Ready()
    ensures var b, slot := old(mm.mem.bump), mm.SlotOf(core);
            && slot < |b.arenas| && b.page == mm.pageSize_ > 0
            && RangeEffect(b, mm.mem.bump, slot, mmapSize, p, region)
    ensures mmapSize > 0 ==> p > 0 && p % 16 == 0
    ensures SameKnown(old(mm.mem.words), mm.mem.words, mm.mem.infos)
    ensures mm.extendOffset_ <= old(mm.extendOffset_) + 1
  {
    hide BumpInv, OffsetsPaged, FreshRegion, Request, FirstUse, SameKnown, MemoryOk, Ledger, Solvent, Shows,
      ExtensionSize, NewRange;
    ghost var b, slot := mm.mem.bump, mm.SlotOf(core);
    ExtensionBound(mm.pageSize_, mmapSize);
    p, region := mm.Malloc(core, mmapSize);
    GrantFacts(b, slot, mmapSize, region);
    MemoryParts(old(mm.mem.words), mm.mem.places, mm.mem.infos, b.granted);
    FirstUseKeepsKnown(b, slot, old(mm.mem.words), mm.mem.words, mm.mem.infos);
  }

  /** Maps and carves `n` chunks for requests of `size`; with `n` zero it maps and carves nothing. */
  method AllocateMemoryLinkedList(mm: MmapManager, numCores: nat, core: nat, size0: nat, n: nat)
    returns (mmapAddr: nat, head: Addr, last: Addr, ghost s: seq<Addr>, ghost region: nat)
    requires mm.Ready() && mm.mem.Ok() && core < mm.coreN_ == numCores && mm.extendOffset_ < EXTEND_MAX
    requires size0 < TWO_64 && n < TWO_32 && (n > 0 ==> size0 <= TWO_62)
    requires NoWrap(TotalSize(size0), n, mm.pageSize_)
    modifies mm.Repr, mm.kernel, mm.mem`words, mm.mem`bump, mm.mem`places, mm.mem`infos
    ensures mm.Ready() && mm.mem.Ok()
    ensures var b, slot, total := old(mm.mem.bump), mm.SlotOf(core), TotalSize(size0);
            slot < |b.arenas| && b.page == mm.pageSize_ > 0 && |s| == n &&
            var mmapSize := MmapSize(total, n, b.page);
            && RangeEffect(b, mm.mem.bump, slot, mmapSize, mmapAddr, region)
            && s == Headers(mmapAddr, total, n) && total * n <= mmapSize
    ensures Linked(mm.mem.words, s, head, last) && NoDup(s)
    ensures mm.mem.infos == old(mm.mem.infos) + NewInfos(s, ChunkInfo(core, size0))
    ensures mm.mem.places == old(mm.mem.places) + NewPlaces(s)
    ensures forall a :: a in s ==> a !in old(mm.mem.infos)
    ensures SameKnown(old(mm.mem.words), mm.mem.words, old(mm.mem.infos))
    ensures mm.extendOffset_ <= old(mm.extendOffset_) + 1
  {
    hide BumpInv, OffsetsPaged, SameKnown, MemoryOk, Ledger, Solvent, Shows, RangeEffect, NewRange, MmapSize,
      NoWrap, TotalSize, Carved, Linked, NoDup, Logarithm2, SameOutside, BodySize, Align, Headers, ChunkInfo, Touchable;
    var mem := mm.mem;
    var size := RoundupPowerOf2(size0);
    if size < 8 {
      size := 8;
    }
    BodySizeIs(size0);
    TotalSizeUnfolds(size0);
    var totalSize := Align(size + Align(HEADER, 16), 16);
    var pageSize := mm.pageSize_;
    var mmapSize := MmapSize(totalSize, n, pageSize);
    CarveSizes(core, size0, n, pageSize);
    ghost var b0, w0, info := mem.bump, mem.words, ChunkInfo(core, size0);
    mmapAddr, region := RequestRange(mm, core, mmapSize);
    ghost var w1 := mem.words;
    head, last := CarveRange(mem, mmapAddr, numCores, core, size, totalSize, n, info);
    s := Headers(mmapAddr, totalSize, n);
    CarveDone(w0, w1, mem.words, mem.places, mem.infos, b0, mem.bump, mm.SlotOf(core), mmapSize, mmapAddr, region,
              totalSize, n, info);
    mem.places := mem.places + NewPlaces(s);
    mem.infos := mem.infos + NewInfos(s, info);
  }

  /** The sizes one carve computes. */
  lemma CarveSizes(core: nat, size: nat, n: nat, page: nat)
    requires size < TWO_64 && 0 < page < TWO_64 && NoWrap(TotalSize(size), n, page) && (n > 0 ==> size <= TWO_62)
    ensures var total, mmapSize, info := TotalSize(size), MmapSize(TotalSize(size), n, page), ChunkInfo(core, size);
            && mmapSize < TWO_64 && mmapSize % page == 0 && total * n <= mmapSize
            && (n > 0 ==> mmapSize > 0)
            && total >= HEADER + BodySize(size) && total % 16 == 0
            && info.core == core && info.size <= BodySize(size)
            && (n > 0 ==> info.size == BodySize(size) == Pow2(Logarithm2(info.size)))
  {
    hide Logarithm2, Pow2, BodySize, ChunkInfo, NoWrap, MmapSize;
    MmapSizeFacts(TotalSize(size), n, page);
    TotalSizeIs(size);
    ChunkInfoFacts(core, size);
    PositiveSize(TotalSize(size), n, MmapSize(TotalSize(size), n, page));
  }

  /** Everything that holds once the loop has carved its range. */
  lemma CarveDone(w0: Words, w1: Words, w: Words, places: Places, infos: Infos, b: Bump, b': Bump,
                  slot: nat, mmapSize: nat, p: nat, region: nat, total: nat, n: nat, info: Info)
    requires MemoryOk(w0, places, infos, b.granted) && RangeEffect(b, b', slot, mmapSize, p, region)
    requires SameKnown(w0, w1, infos) && SameOutside(w1, w, p, At(p, total, n)) && Carved(w, p, total, info, n)
    requires total >= HEADER + info.size && total * n <= mmapSize && total % 16 == 0
    requires n > 0 ==> p > 0 && p % 16 == 0 && info.size == Pow2(Logarithm2(info.size))
    ensures var s := Headers(p, total, n);
            && MemoryOk(w, places + NewPlaces(s), infos + NewInfos(s, info), b'.granted)
            && NoDup(s) && |s| == n && SameKnown(w0, w, infos)
            && forall a :: a in s ==> a !in infos
  {
    hide *;
    var g := Grant(slot, Range(p, mmapSize));
    RangeEffectGrant(b, b', slot, mmapSize, p, region);
    HeadersLength(p, total, n);
    CarveWords(w0, w1, w, places, infos, b.granted, g, total, n);
    CarvedLinkedRun(w, p, total, info, n);
    CarveMemory(w0, w, places, infos, b.granted, g, total, n, info);
  }

  lemma BodySizeIs(size: nat)
    ensures BodySize(size) == if RoundUp(size) < 8 then 8 else RoundUp(size)
  {}

  lemma TotalSizeUnfolds(size: nat)
    ensures TotalSize(size) == Align(BodySize(size) + Align(HEADER, 16), 16)
  {}

  lemma MmapSizeFacts(total: nat, n: nat, page: nat)
    requires 0 < page < TWO_64 && NoWrap(total, n, page)
    ensures MmapSize(total, n, page) < TWO_64 && MmapSize(total, n, page) % page == 0
    ensures total * n <= MmapSize(total, n, page)
  {
    hide WrapAlign;
    ChunksFitIffNoWrap(total, n, page);
    var u := (total * n % TWO_64 + page - 1) % TWO_64;
    DivBound(u, page);
    WrapAlignUnfolds(total * n, page);
    MultipleMod(u / page, page);
  }

  lemma WrapAlignUnfolds(v: nat, n: nat)
    requires n > 0
    ensures var u := (v % TWO_64 + n - 1) % TWO_64; u >= 0 && WrapAlign(v, n) == RoundDown(u, n) == u / n * n
  {}

  lemma PositiveSize(total: nat, n: nat, mmapSize: nat)
    requires total > 0 && total * n <= mmapSize
    ensures n > 0 ==> mmapSize > 0
  {}

  /** The info of a carve's chunks is of its class. */
  lemma ChunkInfoFacts(core: nat, size: nat)
    requires size < TWO_64
    ensures ChunkInfo(core, size).core == core
    ensures size <= TWO_62 ==>
              var info := ChunkInfo(core, size);
              && info.size == BodySize(size) == Pow2(Logarithm2(info.size)) && Logarithm2(info.size) == Logarithm2(size)
    ensures ChunkInfo(core, size).size <= BodySize(size)
  {
    hide Logarithm2, Pow2, CeilLog2;
    BodyBounds(size);
    if size <= TWO_62 {
      BodyBelowTop(size);
      ClassRoundTrip(size);
      BodyAtMost62(size);
    }
  }

  lemma BodyAtMost62(size: nat)
    requires size <= TWO_62
    ensures BodySize(size) <= TWO_62
  {
    hide Pow2, CeilLog2;
    Pow2Constants();
    if size >= 1 {
      RoundUpBounds(size);
      Pow2Monotone(CeilLog2(size), 62);
    }
  }

  lemma CarveWords(w0: Words, w1: Words, w: Words, places: Places, infos: Infos, grants: seq<Grant>, g: Grant,
                   total: nat, n: nat)
    requires MemoryOk(w0, places, infos, grants) && NewRange(grants, g.range) && SameKnown(w0, w1, infos)
    requires total * n <= g.range.size && SameOutside(w1, w, g.range.base, At(g.range.base, total, n))
    ensures SameKnown(w0, w, infos)
  {
    hide NewRange, SameOutside;
    KnownWordsKept(w1, w, infos, grants, g.range, g.range.base, At(g.range.base, total, n));
  }

  lemma CarvedLinkedRun(w: Words, p: nat, total: nat, info: Info, n: nat)
    requires Carved(w, p, total, info, n) && total >= HEADER && (n > 0 ==> p > 0)
    ensures NoDup(Headers(p, total, n))
  {
    CarvedLinked(w, p, total, info, n);
  }

  // ---------------------------------------------------------------- a carve whose chunks are queued

  /** One carve: one request, and `n` new chunks at consecutive addresses in its range. */
  ghost predicate CarveEffect(infos: Infos, b: Bump, infos': Infos, b': Bump,
                              slot: nat, core: nat, size: nat, n: nat, p: nat, region: nat, s: seq<Addr>)
    requires size < TWO_64
  {
    && slot < |b.arenas| && b.page > 0
    && RangeEffect(b, b', slot, MmapSize(TotalSize(size), n, b.page), p, region)
    && TotalSize(size) * n <= MmapSize(TotalSize(size), n, b.page)
    && s == Headers(p, TotalSize(size), n) && NoDup(s) && |s| == n
    && (forall a :: a in s ==> a !in infos)
    && infos' == infos + NewInfos(s, ChunkInfo(core, size))
  }

  lemma SameKnownFrame(w: Words, w': Words, places: Places, infos: Infos, ids: set<QueueId>)
    requires SameKnown(w, w', infos)
    ensures WordsFrame(w, w', places, infos, ids)
  {}

  lemma GrowKeepsHoused(places: Places, infos: Infos, id: QueueId, q: Queues, s: seq<Addr>)
    requires Housed(places, id, q) && places.Keys == infos.Keys && forall a :: a in s ==> a !in infos
    ensures Housed(places + NewPlaces(s), id, q)
  {
    forall c | 0 <= c < CLASSES
      ensures Placed(places + NewPlaces(s), In(id, c), q[c])
    {
      assert Placed(places, In(id, c), q[c]);
    }
  }

  lemma GrowKeepsRepresents(w: Words, w': Words, places: Places, infos: Infos, id: QueueId, q: Queues,
                            heads: seq<Addr>, lasts: seq<Addr>)
    requires SameKnown(w, w', infos) && places.Keys == infos.Keys
    requires Housed(places, id, q) && Represents(w, q, heads, lasts)
    ensures Represents(w', q, heads, lasts)
  {
    hide SameKnown, WordsFrame, Housed, Represents, Touches;
    SameKnownFrame(w, w', places, infos, {});
    WordsTouched(w, w', places, infos, {});
    BystanderRepresents(w, w', places, infos, {}, {}, id, q, heads, lasts);
  }

  lemma NewInsertable(places: Places, infos: Infos, id: QueueId, index: nat, core: nat, size: nat, n: nat, s: seq<Addr>)
    requires size < TWO_64 && index == Logarithm2(size) && core == Home(id) && (n > 0 ==> size <= TWO_62)
    requires NoDup(s) && |s| == n
    ensures Insertable(places + NewPlaces(s), infos + NewInfos(s, ChunkInfo(core, size)), id, index, s)
  {
    hide Logarithm2, NoDup, ChunkInfo;
    ChunkInfoFacts(core, size);
  }

  lemma GrowThenAppendFrame(w0: Words, w1: Words, w2: Words, places: Places, infos: Infos, ids: set<QueueId>,
                            s: seq<Addr>, info: Info)
    requires places.Keys == infos.Keys && SameKnown(w0, w1, infos) && forall a :: a in s ==> a !in infos
    requires WordsFrame(w1, w2, places + NewPlaces(s), infos + NewInfos(s, info), ids)
    ensures WordsFrame(w0, w2, places, infos, ids)
  {
    forall x, off | x in infos && 0 <= off < HEADER + infos[x].size && !(off == OFF_NEXT && Movable(places, ids, x))
      ensures Field(w2, x, off) == Field(w0, x, off)
    {
      assert Field(w2, x, off) == Field(w1, x, off);
    }
  }

  lemma NewCoversGrow(s: seq<Addr>, info: Info)
    ensures NewPlaces(s).Keys == NewInfos(s, info).Keys
    ensures forall a :: a in s <==> a in NewPlaces(s)
  {}

  lemma FoldCarve(infos: Infos, b: Bump, infos': Infos, b': Bump,
                  slot: nat, core: nat, size: nat, n: nat, p: nat, region: nat, s: seq<Addr>)
    requires size < TWO_64 && slot < |b.arenas| && b.page > 0
    requires RangeEffect(b, b', slot, MmapSize(TotalSize(size), n, b.page), p, region)
    requires TotalSize(size) * n <= MmapSize(TotalSize(size), n, b.page)
    requires s == Headers(p, TotalSize(size), n) && NoDup(s) && |s| == n && (forall a :: a in s ==> a !in infos)
    requires infos' == infos + NewInfos(s, ChunkInfo(core, size))
    ensures CarveEffect(infos, b, infos', b', slot, core, size, n, p, region, s)
  {
    hide NoDup, RangeEffect, MmapSize, TotalSize;
  }

  lemma LiveAfterGrow(places: Places, infos: Infos, s: seq<Addr>, to: Place)
    requires to.In? && places.Keys == infos.Keys && forall a :: a in s ==> a !in infos
    ensures LiveSet(Relocate(places + NewPlaces(s), s, to)) == LiveSet(places)
  {}

  // ---------------------------------------------------------------- batch tables

  /** A batch table whose carves never wrap: classes above 62 are disabled, and counters stay small. */
  ghost predicate TableOk(t: Table, page: nat) {
    && 0 < page < TWO_32
    && forall c :: 0 <= c < CLASSES ==>
         t[c] < TWO_32 && (t[c] > 0 ==> c <= 62 && NoWrap(TotalSize(Pow2(c)), t[c], page))
  }

  /** What a carve for `size` needs of the table. */
  lemma TableServes(t: Table, page: nat, size: nat)
    requires TableOk(t, page) && size < TWO_64
    ensures var n := t[Logarithm2(size)];
            0 < page < TWO_32 && n < TWO_32 && (n > 0 ==> size <= TWO_62) && NoWrap(TotalSize(size), n, page)
  {
    hide Pow2, Logarithm2, TotalSize;
    var c := Logarithm2(size);
    if t[c] > 0 {
      ClassSizes(size);
    }
  }

  lemma ClassSizes(size: nat)
    requires size < TWO_64 && Logarithm2(size) <= 62
    ensures size <= TWO_62 && TotalSize(Pow2(Logarithm2(size))) == TotalSize(size)
  {
    hide Pow2, CeilLog2, Logarithm2;
    if size >= TWO_63 { TopClass(size); }
    LogarithmMeaning(size);
    if size >= 1 { RoundUpBounds(size); }
    BodyBelowTop(size);
    ClassOfPower(Logarithm2(size));
    BodyBelowTop(Pow2(Logarithm2(size)));
  }

  /** The default table carves at most 2^28 bytes below class 17 and one chunk from there on. */
  lemma DefaultTableOk(page: nat)
    requires 0 < page < TWO_32
    ensures TableOk(DEFAULT, page)
  {
    forall c | 0 <= c < CLASSES
      ensures DEFAULT[c] < TWO_32 && (DEFAULT[c] > 0 ==> c <= 62 && NoWrap(TotalSize(Pow2(c)), DEFAULT[c], page))
    {
      DefaultEntries();
      if DEFAULT[c] > 0 { DefaultClassOk(c, page); }
    }
  }

  lemma DefaultClassOk(c: nat, page: nat)
    requires 0 < page < TWO_32 && 3 <= c <= 34
    ensures NoWrap(TotalSize(Pow2(c)), DEFAULT[c], page)
  {
    hide Pow2, CeilLog2, Logarithm2, TotalSize;
    DefaultEntries();
    TwoTo34();
    Pow2Monotone(c, 34);
    ClassOfPower(c);
    BodyBelowTop(Pow2(c));
    TotalSizeIs(Pow2(c));
    MulMonotone(TotalSize(Pow2(c)), 0x4_0000_0038, DEFAULT[c]);
  }
}
