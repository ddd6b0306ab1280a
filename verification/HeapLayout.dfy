/** The index arithmetic of the heap table: which queue manager has which role, and which slots a
    rotating scan visits (src/global_memory_manager.cpp:36-77). */
module HeapLayouts {
  import opened SizeClass
  import opened Bump
  import opened Chunks

  // ---------------------------------------------------------------- division

  lemma DivModUnique(q: nat, r: nat, d: nat)
    requires r < d
    ensures (q * d + r) / d == q && (q * d + r) % d == r
  {
    var x := q * d + r;
    var k := q - x / d;
    assert x == x / d * d + x % d;
    assert k * d == x % d - r by { assert k * d == q * d - x / d * d; }
    MultipleIsLarge(k, d);
  }

  lemma BlockBound(q: nat, r: nat, d: nat, n: nat)
    requires r < d && q < n
    ensures q * d + r < n * d
  {
    Products(q + 1, n, d);
  }

  lemma Products(a: nat, b: nat, d: nat)
    requires a <= b
    ensures a * d <= b * d && (a + 1) * d == a * d + d
  {}

  lemma QuotientBound(x: nat, d: nat, n: nat)
    requires d > 0 && x < n * d
    ensures x / d < n && x % d < d && x / d * d + x % d == x
  {
    if x / d >= n { Products(n, x / d, d); }
  }

  // ---------------------------------------------------------------- slots

  /** Position of a slot in `poolFlags_` and `managerPools_`. */
  function Index(poolN: nat, core: nat, i: nat): nat { core * poolN + i }

  function SlotAt(poolN: nat, b: nat): Slot
    requires poolN > 0
  {
    Slot(b / poolN, b % poolN)
  }

  /** Slots and positions correspond one to one. */
  lemma SlotPosition(coreN: nat, poolN: nat, core: nat, i: nat)
    requires core < coreN && i < poolN
    ensures Index(poolN, core, i) < coreN * poolN && SlotAt(poolN, Index(poolN, core, i)) == Slot(core, i)
  {
    BlockBound(core, i, poolN, coreN);
    DivModUnique(core, i, poolN);
  }

  lemma PositionSlot(coreN: nat, poolN: nat, b: nat)
    requires poolN > 0 && b < coreN * poolN
    ensures var s := SlotAt(poolN, b); s.core < coreN && s.i < poolN && Index(poolN, s.core, s.i) == b
  {
    QuotientBound(b, poolN, coreN);
  }

  // ---------------------------------------------------------------- roles

  /** The role of queue manager `n`: blocks of `coreN + 1`, one per heap, `malloc_` first. */
  function RoleAt(coreN: nat, poolN: nat, n: nat): QueueId
    requires poolN > 0
  {
    var slot := SlotAt(poolN, n / (coreN + 1));
    if n % (coreN + 1) == 0 then Mal(slot) else FreeList(slot, n % (coreN + 1) - 1)
  }

  predicate IsRole(coreN: nat, poolN: nat, id: QueueId) {
    !id.Pool? && id.slot.core < coreN && id.slot.i < poolN && (id.FreeList? ==> id.core < coreN)
  }

  /** Where the queue manager of a role is. */
  function RolePosition(coreN: nat, poolN: nat, id: QueueId): nat
    requires !id.Pool?
  {
    Index(poolN, id.slot.core, id.slot.i) * (coreN + 1) + (if id.Mal? then 0 else id.core + 1)
  }

  /** `Init` gives each of the coreN * (coreN + 1) * poolN queue managers one role of one heap, and every role
      of every heap to one queue manager. */
  lemma RolesBijective(coreN: nat, poolN: nat)
    requires poolN > 0
    ensures forall n: nat :: n < coreN * poolN * (coreN + 1) ==>
              IsRole(coreN, poolN, RoleAt(coreN, poolN, n)) && RolePosition(coreN, poolN, RoleAt(coreN, poolN, n)) == n
    ensures forall id :: IsRole(coreN, poolN, id) ==>
              RolePosition(coreN, poolN, id) < coreN * poolN * (coreN + 1)
              && RoleAt(coreN, poolN, RolePosition(coreN, poolN, id)) == id
  {
    forall n: nat | n < coreN * poolN * (coreN + 1)
      ensures IsRole(coreN, poolN, RoleAt(coreN, poolN, n)) && RolePosition(coreN, poolN, RoleAt(coreN, poolN, n)) == n
    {
      PositionRole(coreN, poolN, n);
    }
    forall id | IsRole(coreN, poolN, id)
      ensures RolePosition(coreN, poolN, id) < coreN * poolN * (coreN + 1)
      ensures RoleAt(coreN, poolN, RolePosition(coreN, poolN, id)) == id
    {
      RoleOfPosition(coreN, poolN, id);
    }
  }

  lemma PositionRole(coreN: nat, poolN: nat, n: nat)
    requires poolN > 0 && n < coreN * poolN * (coreN + 1)
    ensures IsRole(coreN, poolN, RoleAt(coreN, poolN, n)) && RolePosition(coreN, poolN, RoleAt(coreN, poolN, n)) == n
  {
    QuotientBound(n, coreN + 1, coreN * poolN);
    PositionSlot(coreN, poolN, n / (coreN + 1));
  }

  lemma RoleOfPosition(coreN: nat, poolN: nat, id: QueueId)
    requires poolN > 0 && IsRole(coreN, poolN, id)
    ensures RolePosition(coreN, poolN, id) < coreN * poolN * (coreN + 1)
    ensures RoleAt(coreN, poolN, RolePosition(coreN, poolN, id)) == id
  {
    var b, j := Index(poolN, id.slot.core, id.slot.i), if id.Mal? then 0 else id.core + 1;
    SlotPosition(coreN, poolN, id.slot.core, id.slot.i);
    BlockBound(b, j, coreN + 1, coreN * poolN);
    DivModUnique(b, j, coreN + 1);
  }

  /** The block of heap `b`: `malloc_`, then a free list per core. */
  lemma BlockRoles(coreN: nat, poolN: nat, b: nat, j: nat)
    requires poolN > 0 && b < coreN * poolN && j <= coreN
    ensures b * (coreN + 1) + j < coreN * poolN * (coreN + 1)
    ensures RoleAt(coreN, poolN, b * (coreN + 1) + j)
            == if j == 0 then Mal(SlotAt(poolN, b)) else FreeList(SlotAt(poolN, b), j - 1)
  {
    BlockBound(b, j, coreN + 1, coreN * poolN);
    DivModUnique(b, j, coreN + 1);
  }

  // ---------------------------------------------------------------- rotating scans

  /** The index a rotating scan looks at in round `i`. */
  function Turn(start: nat, i: nat, n: nat): nat
    requires n > 0
  {
    (start + i) % n
  }

  /** `n` rounds from `start` visit every one of `n` indices, each once, in rising order with a wrap to 0 after the
      last. */
  lemma RotationVisitsOnce(start: nat, n: nat, j: nat)
    requires j < n && start < n
    ensures Turn(start, 0, n) == start
    ensures Turn(start, j + 1, n) == if Turn(start, j, n) == n - 1 then 0 else Turn(start, j, n) + 1
    ensures exists i: nat :: i < n && Turn(start, i, n) == j
    ensures forall i: nat, k: nat :: i < n && k < n && Turn(start, i, n) == Turn(start, k, n) ==> i == k
  {
    forall i: nat | i < n ensures Turn(start, i, n) == if start + i < n then start + i else start + i - n {
      if start + i < n {
        DivModUnique(0, start + i, n);
      } else {
        DivModUnique(1, start + i - n, n);
      }
    }
    DivModUnique(1, start, n);
    assert Turn(start, if j >= start then j - start else j + n - start, n) == j;
  }
}
