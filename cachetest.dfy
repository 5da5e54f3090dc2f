/** The configuration words and register masks of the cache test: the IA32_PERFEVTSELx and
  * IA32_PERF_GLOBAL_CTRL words (Intel SDM Vol. 3B, section 18.2.1), the fields of CPUID leaf 0x0A, the CR0
  * cache-disable and not-write-through bits (Intel SDM Vol. 3A, section 2.5), the cache flag the menu toggles,
  * and the initialisation of the workload array.  The MSR writes, CPUID and CR0 accesses themselves are
  * instructions the model leaves out: their operands are parameters and results. */
module CacheTest {

  /** The event-select word for one counter, each field masked to its width and placed at its bits. */
  function PerfEvtSel(eventSelect: bv32, umask: bv32, usr: bv32, os: bv32, e: bv32, pc: bv32, int_: bv32,
                      en: bv32, inv: bv32, cmask: bv32): (w: bv32)
  {
    (eventSelect & 0xFF) | ((umask & 0xFF) << 8) | ((usr & 1) << 16) | ((os & 1) << 17) | ((e & 1) << 18)
    | ((pc & 1) << 19) | ((int_ & 1) << 20) | ((en & 1) << 22) | ((inv & 1) << 23) | ((cmask & 0xFF) << 24)
  }

  /** The fields of an event-select word, read back at the bits section 18.2.1 assigns them. */
  datatype EvtSelFields = EvtSelFields(eventSelect: bv32, umask: bv32, usr: bv32, os: bv32, e: bv32, pc: bv32,
                                       int_: bv32, any: bv32, en: bv32, inv: bv32, cmask: bv32)

  function DecodeEvtSel(w: bv32): (f: EvtSelFields)
    ensures f.eventSelect <= 0xFF && f.umask <= 0xFF && f.cmask <= 0xFF
    ensures f.usr <= 1 && f.os <= 1 && f.e <= 1 && f.pc <= 1 && f.int_ <= 1 && f.any <= 1 && f.en <= 1 && f.inv <= 1
  {
    EvtSelFields(w & 0xFF, (w >> 8) & 0xFF, (w >> 16) & 1, (w >> 17) & 1, (w >> 18) & 1, (w >> 19) & 1,
                 (w >> 20) & 1, (w >> 21) & 1, (w >> 22) & 1, (w >> 23) & 1, (w >> 24) & 0xFF)
  }

  /** Decoding the word built returns every field masked to its width, and bit 21 (AnyThread) is 0. */
  lemma EvtSelRoundTrip(eventSelect: bv32, umask: bv32, usr: bv32, os: bv32, e: bv32, pc: bv32, int_: bv32,
                        en: bv32, inv: bv32, cmask: bv32)
    ensures DecodeEvtSel(PerfEvtSel(eventSelect, umask, usr, os, e, pc, int_, en, inv, cmask))
            == EvtSelFields(eventSelect & 0xFF, umask & 0xFF, usr & 1, os & 1, e & 1, pc & 1, int_ & 1, 0, en & 1,
                            inv & 1, cmask & 0xFF)
  {
  }

  /** The global control word: bit 0 enables counter 0 and bit 1 counter 1; no other bit is set. */
  function PerfGlobalCtrl(pmc0En: bv32, pmc1En: bv32): (w: bv32)
    ensures w & 1 == pmc0En & 1 && (w >> 1) & 1 == pmc1En & 1 && w & !3 == 0
  {
    (pmc0En & 1) | ((pmc1En & 1) << 1)
  }

  /** The architectural performance monitoring fields of CPUID leaf 0x0A. */
  datatype PerfInfo = PerfInfo(version: bv32, counters: bv32, counterWidth: bv32, fixedCounters: bv32,
                               fixedWidth: bv32)

  /** Version EAX[7:0], counters per core EAX[15:8], counter width EAX[23:16], fixed counters EDX[4:0] and
    * their width EDX[12:5]. */
  function DecodePerfLeaf(eax: bv32, edx: bv32): (p: PerfInfo)
    ensures p.version <= 0xFF && p.counters <= 0xFF && p.counterWidth <= 0xFF
    ensures p.fixedCounters <= 0x1F && p.fixedWidth <= 0xFF
  {
    PerfInfo(eax & 0xFF, (eax & 0xFF00) >> 8, (eax & 0xFF_0000) >> 16, edx & 0x1F, (edx & 0x1FE0) >> 5)
  }

  /** Registers holding the fields at their places decode back to them. */
  lemma PerfLeafRoundTrip(p: PerfInfo, eaxHigh: bv32, edxHigh: bv32)
    requires p.version <= 0xFF && p.counters <= 0xFF && p.counterWidth <= 0xFF
    requires p.fixedCounters <= 0x1F && p.fixedWidth <= 0xFF
    ensures DecodePerfLeaf(p.version | (p.counters << 8) | (p.counterWidth << 16) | (eaxHigh << 24),
                           p.fixedCounters | (p.fixedWidth << 5) | (edxHigh << 13)) == p
  {
  }

  const CR0_CD: bv32 := 0x4000_0000
  const CR0_NW: bv32 := 0x2000_0000

  /** Turning the cache off: CD set and NW cleared. */
  function CacheOffCr0(cr0: bv32): (r: bv32)
    ensures r & CR0_CD == CR0_CD && r & CR0_NW == 0
    ensures r & !(CR0_CD | CR0_NW) == cr0 & !(CR0_CD | CR0_NW)
  {
    (cr0 | 0x4000_0000) & 0xDFFF_FFFF
  }

  /** Turning the cache on: CD and NW cleared. */
  function CacheOnCr0(cr0: bv32): (r: bv32)
    ensures r & (CR0_CD | CR0_NW) == 0
    ensures r & !(CR0_CD | CR0_NW) == cr0 & !(CR0_CD | CR0_NW)
  {
    (cr0 & 0xBFFF_FFFF) & 0xDFFF_FFFF
  }

  /** A cache reset, off then on, leaves CR0 with both bits clear and every other bit as it was; and turning
    * the cache on after either is the same as turning it on directly. */
  lemma ResetCacheCr0(cr0: bv32)
    ensures CacheOnCr0(CacheOffCr0(cr0)) == CacheOnCr0(cr0)
    ensures CacheOnCr0(CacheOnCr0(cr0)) == CacheOnCr0(cr0)
  {
  }

  const ARR0_SIZE := 4000
  const WORD_RANGE := 0x1_0000_0000

  /** The flag toggled by the menu entry, 1 when the experiments run with the cache enabled. */
  function Inverted(flag: int): (r: int)
    ensures r == 0 || r == 1
    ensures flag == 1 <==> r == 0
  {
    if flag == 1 then 0 else 1
  }

  /** Toggling twice restores a flag that was 0 or 1. */
  lemma InvertTwice(flag: int)
    requires flag == 0 || flag == 1
    ensures Inverted(Inverted(flag)) == flag
  {
  }

  /** The 32-bit word holding the address of element i + 1 of an array of 4-byte words at `base`. */
  function NextAddress(base: int, i: int): (a: int)
    requires 0 <= base < WORD_RANGE && 0 <= i
    ensures 0 <= a < WORD_RANGE
    ensures (a - base) % WORD_RANGE == (i + 1) * 4 % WORD_RANGE
  {
    (base + (i + 1) * 4) % WORD_RANGE
  }

  /** The test's globals: the cache flag and the 4000-word workload array, whose words are kept as their 32-bit
    * unsigned patterns. */
  class Workload {
    var cacheFlag: int
    const array0: array<int>

    ghost predicate Valid()
      reads this
    {
      array0.Length == ARR0_SIZE
    }

    constructor()
      ensures Valid() && cacheFlag == 1 && fresh(array0)
    {
      cacheFlag := 1;
      array0 := new int[ARR0_SIZE];
    }

    /** `CacheTest_Proc_InvertCache`. */
    method InvertCache()
      modifies this
      ensures cacheFlag == Inverted(old(cacheFlag))
    {
      if cacheFlag == 1 {
        cacheFlag := 0;
      } else {
        cacheFlag := 1;
      }
    }

    /** `InitArray0`: element i holds i. */
    method InitArray0()
      requires Valid()
      modifies array0
      ensures forall i :: 0 <= i < ARR0_SIZE ==> array0[i] == i
    {
      var i := 0;
      while i < ARR0_SIZE
        invariant 0 <= i <= ARR0_SIZE
        invariant forall k :: 0 <= k < i ==> array0[k] == k
      {
        array0[i] := i;
        i := i + 1;
      }
    }

    /** `InitArray01`: element i holds the 32-bit address of element i + 1, given the array's address `base`,
      * so the array is a chain of pointers each to the next element. */
    method InitArray01(base: int)
      requires Valid() && 0 <= base < WORD_RANGE
      modifies array0
      ensures forall i :: 0 <= i < ARR0_SIZE ==> array0[i] == NextAddress(base, i)
    {
      var i := 0;
      while i < ARR0_SIZE
        invariant 0 <= i <= ARR0_SIZE
        invariant forall k :: 0 <= k < i ==> array0[k] == NextAddress(base, k)
      {
        array0[i] := (base + (i + 1) * 4) % WORD_RANGE;
        i := i + 1;
      }
    }
  }

  /** Following the chain: the word at element i, taken as an offset from the array's address, names element
    * i + 1, and no two elements hold the same word. */
  lemma ChainPointsToNext(base: int, i: int, j: int)
    requires 0 <= base < WORD_RANGE && 0 <= i < ARR0_SIZE && 0 <= j < ARR0_SIZE
    ensures ((NextAddress(base, i) - base) % WORD_RANGE) / 4 == i + 1
    ensures NextAddress(base, i) == NextAddress(base, j) ==> i == j
  {
    assert (i + 1) * 4 % WORD_RANGE == (i + 1) * 4;
    assert (j + 1) * 4 % WORD_RANGE == (j + 1) * 4;
  }
}
