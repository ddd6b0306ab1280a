/** The memory every component shares, with the thread-local words of the running thread. */
module Machines {
  import opened SizeClass
  import opened Bump
  import opened Chunks

  /** `ENOMEM`. */
  const ENOMEM := 12

  class Machine {
    var words: Words
    var errno: int
    /** The running thread is the main thread. */
    var mainThreadFlag: bool

    ghost var places: Places
    ghost var infos: Infos
    ghost var bump: Bump

    ghost predicate Ok()
      reads `words, `places, `infos, `bump
    {
      MemoryOk(words, places, infos, bump.granted)
    }

    /** The chunk at `x` is handed out. */
    ghost predicate Live(x: int)
      reads `places, `infos
    {
      x >= 0 && x in infos && x in places && places[x].Out?
    }

    /** `ptr` is the body of the live chunk in `got` and has room for `size`, or null when there is none. */
    ghost predicate Served(ptr: Addr, got: seq<Addr>, size: nat)
      reads `places, `infos
    {
      if got == [] then ptr == 0
      else ptr == got[0] + HEADER && Live(got[0]) && size <= infos[got[0]].size
    }

    constructor (main: bool)
      ensures Ok() && words == map[] && infos == map[] && mainThreadFlag == main
      ensures bump.granted == [] && bump.mapped == []
    {
      words, errno, mainThreadFlag := map[], 0, main;
      places, infos, bump := map[], map[], Bump(1, [], [], [], 0);
    }

    method SetField(x: Addr, off: nat, v: nat)
      modifies `words
      ensures words == old(words)[x + off := v]
    {
      words := words[x + off := v];
    }

    /** A field of the chunk header at `x`. */
    function Get(x: int, off: nat): nat
      reads `words
    {
      Field(words, x, off)
    }
  }
}
