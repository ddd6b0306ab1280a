/** One size class as `LocalMemoryManager::Malloc` sees it, and the four places it looks for a chunk. */
module Lanes {
  import opened Chunks

  /** One class of a heap's `malloc_`, of its `free_` list for its own core, and of its core's common pool. */
  datatype Lane = Lane(mal: seq<Addr>, own: seq<Addr>, pool: seq<Addr>)

  /** A lane after an attempt, and the chunk obtained, if any. */
  datatype Attempt = Attempt(lane: Lane, got: seq<Addr>)

  function Min(a: nat, b: nat): nat { if a <= b then a else b }

  /** The head of `malloc_`, if there is one. */
  function TakeHead(l: Lane): Attempt {
    if l.mal == [] then Attempt(l, []) else Attempt(l.(mal := l.mal[1..]), [l.mal[0]])
  }

  /** `malloc_`, or after an exchange the heap's own free list. */
  function LocalStage(l: Lane): Attempt {
    if l.mal != [] then TakeHead(l) else TakeHead(Lane(l.own, l.mal, l.pool))
  }

  /** Up to `n` chunks moved from the common pool. */
  function Refill(l: Lane, n: nat): Lane {
    var k := Min(n, |l.pool|);
    Lane(l.mal + l.pool[..k], l.own, l.pool[k..])
  }

  function RefillStage(l: Lane, n: nat): Attempt { TakeHead(Refill(l, n)) }

  function CarveStage(l: Lane, carved: seq<Addr>): Attempt { TakeHead(l.(mal := l.mal + carved)) }

  /** A request that neither the heap nor the common pool can serve. */
  predicate NeedsCarve(l: Lane, n: nat) {
    LocalStage(l).got == [] && RefillStage(LocalStage(l).lane, n).got == []
  }

  /** The four stages in order; `carved` is what a carve yields, if it comes to that. */
  function FourStages(l: Lane, n: nat, carved: seq<Addr>): Attempt {
    var a := LocalStage(l);
    if a.got != [] then a
    else
      var b := RefillStage(a.lane, n);
      if b.got != [] then b else CarveStage(b.lane, carved)
  }

  /** All chunks of a lane. */
  function Population(l: Lane): multiset<Addr> { multiset(l.mal) + multiset(l.own) + multiset(l.pool) }

  /** The simple reading of the four stages: the first source that is not empty gives its head. From the common pool a
      batch of `n` chunks moves over, in order, or all chunks if there are fewer. */
  lemma FourStagesServeFirst(l: Lane, n: nat, carved: seq<Addr>)
    ensures NeedsCarve(l, n) <==> l.mal == [] && l.own == [] && (n == 0 || l.pool == [])
    ensures var r := FourStages(l, n, carved);
            if l.mal != [] then r == Attempt(Lane(l.mal[1..], l.own, l.pool), l.mal[..1])
            else if l.own != [] then r == Attempt(Lane(l.own[1..], [], l.pool), l.own[..1])
            else if n > 0 && l.pool != [] then
              && r.got == l.pool[..1] && r.lane.own == [] && l.pool == r.got + r.lane.mal + r.lane.pool
              && (if |l.pool| <= n then r.lane.pool == [] else |r.lane.mal| + 1 == n)
            else if carved != [] then r == Attempt(Lane(carved[1..], [], l.pool), carved[..1])
            else r == Attempt(Lane([], [], l.pool), [])
  {
    LocalMeans(l);
    CarveMeans(l, carved);
    hide LocalStage, RefillStage, CarveStage;
    if l.mal == [] && l.own == [] {
      RefillMoves(l, n);
    }
  }

  /** The first two stages. */
  lemma LocalMeans(l: Lane)
    ensures l.mal != [] ==> LocalStage(l) == Attempt(Lane(l.mal[1..], l.own, l.pool), l.mal[..1])
    ensures l.mal == [] && l.own != [] ==> LocalStage(l) == Attempt(Lane(l.own[1..], [], l.pool), l.own[..1])
    ensures l.mal == [] && l.own == [] ==> LocalStage(l) == Attempt(l, [])
  {}

  /** The last one, when there is nothing before the carved chunks. */
  lemma CarveMeans(l: Lane, carved: seq<Addr>)
    ensures l.mal == [] && carved != [] ==>
              CarveStage(l, carved) == Attempt(Lane(carved[1..], l.own, l.pool), carved[..1])
    ensures l.mal == [] && carved == [] ==> CarveStage(l, carved) == Attempt(l, [])
  {
    assert [] + carved == carved;
  }

  /** The third stage, when the heap itself has no chunk. */
  lemma RefillMoves(l: Lane, n: nat)
    requires l.mal == [] && l.own == []
    ensures LocalStage(l) == Attempt(l, [])
    ensures var r := RefillStage(l, n);
            if n == 0 || l.pool == [] then r == Attempt(l, [])
            else
              && r.got == l.pool[..1] && r.lane.own == [] && l.pool == r.got + r.lane.mal + r.lane.pool
              && (if |l.pool| <= n then r.lane.pool == [] else |r.lane.mal| + 1 == n)
  {
    var k := Min(n, |l.pool|);
    assert [] + l.pool[..k] == l.pool[..k];
    if k == 0 {
      assert l.pool[0..] == l.pool;
    } else {
      HeadAndRest(l.pool, k);
      assert RefillStage(l, n) == Attempt(Lane(l.pool[1..k], [], l.pool[k..]), l.pool[..1]);
    }
  }

  lemma HeadAndRest(s: seq<Addr>, k: nat)
    requires 0 < k <= |s|
    ensures s[..k] != [] && [s[..k][0]] == s[..1] && s[..k][1..] == s[1..k] && s == s[..1] + s[1..k] + s[k..]
  {}

  lemma TakeHeadConserves(l: Lane)
    ensures Population(TakeHead(l).lane) + multiset(TakeHead(l).got) == Population(l)
  {
    if l.mal != [] { assert l.mal == [l.mal[0]] + l.mal[1..]; }
  }

  lemma RefillConserves(l: Lane, n: nat)
    ensures Population(Refill(l, n)) == Population(l)
  {
    var k := Min(n, |l.pool|);
    assert l.pool == l.pool[..k] + l.pool[k..];
  }

  lemma LocalConserves(l: Lane)
    ensures Population(LocalStage(l).lane) + multiset(LocalStage(l).got) == Population(l)
  {
    TakeHeadConserves(l);
    TakeHeadConserves(Lane(l.own, l.mal, l.pool));
  }

  lemma RefillStageConserves(l: Lane, n: nat)
    ensures Population(RefillStage(l, n).lane) + multiset(RefillStage(l, n).got) == Population(l)
  {
    RefillConserves(l, n);
    TakeHeadConserves(Refill(l, n));
  }

  lemma CarveStageConserves(l: Lane, carved: seq<Addr>)
    ensures Population(CarveStage(l, carved).lane) + multiset(CarveStage(l, carved).got) == Population(l)
            + multiset(carved)
  {
    TakeHeadConserves(l.(mal := l.mal + carved));
  }

  /** No stage loses or duplicates a chunk: the lane and what was obtained add up to the lane before,
      plus the carved chunks when it came to a carve. */
  lemma FourStagesConserve(l: Lane, n: nat, carved: seq<Addr>)
    ensures var r := FourStages(l, n, carved);
            Population(r.lane) + multiset(r.got)
            == Population(l) + if NeedsCarve(l, n) then multiset(carved) else multiset{}
  {
    var a := LocalStage(l);
    var b := RefillStage(a.lane, n);
    hide LocalStage, RefillStage, CarveStage, Population;
    LocalConserves(l);
    RefillStageConserves(a.lane, n);
    CarveStageConserves(b.lane, carved);
  }
}
