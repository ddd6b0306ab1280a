/** Chunks carved, refilled and freed per batch, by class (src/memory_size_manager.cpp). */
module SizeTables {
  import opened SizeClass

  /** One batch size per class. */
  type Table = t: seq<nat> | |t| == CLASSES witness seq(CLASSES, _ => 0)

  /** The built-in batch sizes of classes 0 to 38, in order. */
  const DEFAULT_LIST: seq<nat> :=
    [0, 0, 0, 1000, 2000, 2000, 10000, 1000, 1000, 1000, 1024, 512, 512, 1024, 10240, 128, 2, 1, 1, 1,
     1, 1, 1, 1, 1, 1, 1, 1, 1, 1, 1, 1, 1, 1, 1, 0, 0, 0, 0]

  /** The default table: all other classes are disabled. */
  const DEFAULT: Table := DEFAULT_LIST + seq(CLASSES - |DEFAULT_LIST|, _ => 0)

  lemma DefaultEntries()
    ensures |DEFAULT_LIST| == 39
    ensures forall c :: 0 <= c < CLASSES ==> DEFAULT[c] <= 10240 && (DEFAULT[c] > 0 <==> 3 <= c <= 34)
  {}

  /** The default table serves exactly the classes of requests up to 2^34. */
  lemma DefaultServes(size: nat)
    requires size < TWO_64
    ensures DEFAULT[Logarithm2(size)] > 0 <==> size <= 0x4_0000_0000
  {
    var c := Logarithm2(size);
    DefaultEntries();
    ClassAtMost34(size);
  }

  lemma ClassAtMost34(size: nat)
    requires size < TWO_64
    ensures Logarithm2(size) <= 34 <==> size <= 0x4_0000_0000
  {
    hide Pow2, CeilLog2, Logarithm2;
    TwoTo34();
    if size < TWO_63 {
      LogarithmMeaning(size);
      CeilLog2Monotone(size, 34);
    } else {
      TopClass(size);
    }
  }

  lemma TwoTo34()
    ensures Pow2(34) == 0x4_0000_0000
  {
    Pow2Plus32(2);
  }

  lemma TopClass(size: nat)
    requires TWO_63 <= size < TWO_64
    ensures Logarithm2(size) == 64
  {}

  class MemorySizeManager {
    const nPerSize_: Table

    /** The table that is built in. */
    constructor Default()
      ensures nPerSize_ == DEFAULT
    {
      var table := new nat[CLASSES](_ => 0);
      setDefault(table);
      nPerSize_ := table[..];
    }

    /** A table that comes from elsewhere. */
    constructor FromTable(t: Table)
      ensures nPerSize_ == t
    {
      nPerSize_ := t;
    }

    /** Assigns the batch sizes of classes 0 to 38. */
    static method setDefault(nPerSize: array<nat>)
      requires nPerSize.Length == CLASSES
      requires forall c :: 39 <= c < CLASSES ==> nPerSize[c] == 0
      modifies nPerSize
      ensures nPerSize[..] == DEFAULT
    {
      var entries := [
        0, 0, 0, 1000, 2000, 2000, 10000, 1000, 1000, 1000,
        1024, 512, 512, 1024, 10240, 128, 2, 1, 1, 1,
        1, 1, 1, 1, 1, 1, 1, 1, 1, 1,
        1, 1, 1, 1, 1, 0, 0, 0, 0];
      DefaultEntries();
      assert entries == DEFAULT_LIST;
      for c := 0 to |entries|
        invariant forall d :: 0 <= d < c ==> nPerSize[d] == entries[d]
        invariant forall d :: 39 <= d < CLASSES ==> nPerSize[d] == 0
      {
        nPerSize[c] := entries[c];
      }
    }

    function GetMemorySize(log2: nat): nat
      requires log2 < CLASSES
    {
      nPerSize_[log2]
    }
  }
}
