/** Per-iteration seeds of the benchmark harness (crates/epoch-bench): arithmetic modulo 2^64. */
module Seeds {

  // ---------------------------------------------------------------- every step can be undone

  /** A xor-shift is undone by shifting again until nothing is left. */
  function Unshift30(value: bv64): bv64 { value ^ (value >> 30) ^ (value >> 60) }
  function Unshift27(value: bv64): bv64 { value ^ (value >> 27) ^ (value >> 54) }
  function Unshift31(value: bv64): bv64 { value ^ (value >> 31) ^ (value >> 62) }

  /** A multiplication by an odd constant is undone by its inverse modulo 2^64. */
  function UntimesGolden(value: bv64): bv64 { value * 0xF1DE_83E1_9937_733D }
  function UntimesFirst(value: bv64): bv64 { value * 0x96DE_1B17_3F11_9089 }
  function UntimesSecond(value: bv64): bv64 { value * 0x3196_42B2_D24D_8EC3 }

  function Back(root: bv64, value: bv64): bv64 { value - root }
  function Predecessor(value: bv64): bv64 { value - 1 }

  /** The index that a seed was derived from. */
  function SeedIndex(root: bv64, seed: bv64): bv64 {
    Predecessor(UntimesGolden(Back(root, Unshift30(UntimesFirst(Unshift27(UntimesSecond(Unshift31(seed))))))))
  }

  // ---------------------------------------------------------------- the steps of derive_seed

  lemma Products(x: bv64)
    ensures UntimesGolden(x * 0x9E37_79B9_7F4A_7C15) == x
    ensures UntimesFirst(x * 0xBF58_476D_1CE4_E5B9) == x
    ensures UntimesSecond(x * 0x94D0_49BB_1331_11EB) == x
  {
  }

  lemma Shifts(x: bv64)
    ensures Unshift30(x ^ (x >> 30)) == x
    ensures Unshift27(x ^ (x >> 27)) == x
    ensures Unshift31(x ^ (x >> 31)) == x
  {
  }

  lemma Sums(root: bv64, x: bv64)
    ensures Back(root, root + x) == x
  {
  }

  function Shift30(value: bv64): (r: bv64)
    ensures Unshift30(r) == value
  {
    hide Unshift30;
    Shifts(value);
    value ^ (value >> 30)
  }

  function Shift27(value: bv64): (r: bv64)
    ensures Unshift27(r) == value
  {
    hide Unshift27;
    Shifts(value);
    value ^ (value >> 27)
  }

  function Shift31(value: bv64): (r: bv64)
    ensures Unshift31(r) == value
  {
    hide Unshift31;
    Shifts(value);
    value ^ (value >> 31)
  }


  function TimesGolden(value: bv64): (r: bv64)
    ensures UntimesGolden(r) == value
  {
    hide UntimesGolden;
    Products(value);
    value * 0x9E37_79B9_7F4A_7C15
  }

  function TimesFirst(value: bv64): (r: bv64)
    ensures UntimesFirst(r) == value
  {
    hide UntimesFirst;
    Products(value);
    value * 0xBF58_476D_1CE4_E5B9
  }

  function TimesSecond(value: bv64): (r: bv64)
    ensures UntimesSecond(r) == value
  {
    hide UntimesSecond;
    Products(value);
    value * 0x94D0_49BB_1331_11EB
  }

  function Forth(root: bv64, value: bv64): (r: bv64)
    ensures Back(root, r) == value
  {
    hide Back;
    Sums(root, value);
    root + value
  }

  function Successor(value: bv64): (r: bv64) ensures Predecessor(r) == value { value + 1 }

  /** `derive_seed`: a wrapping walk through steps that all can be undone, so the seed determines the index. */
  function DeriveSeed(root: bv64, index: bv64): (seed: bv64)
    ensures SeedIndex(root, seed) == index
  {
    hide Shift30, Shift27, Shift31, TimesGolden, TimesFirst, TimesSecond, Forth, Successor;
    hide Unshift30, Unshift27, Unshift31, UntimesGolden, UntimesFirst, UntimesSecond, Back, Predecessor;
    Shift31(TimesSecond(Shift27(TimesFirst(Shift30(Forth(root, TimesGolden(Successor(index))))))))
  }

  lemma SeedsAreInjective(root: bv64, i: bv64, j: bv64)
    requires DeriveSeed(root, i) == DeriveSeed(root, j)
    ensures i == j
  {
    hide DeriveSeed, SeedIndex;
  }

  // ---------------------------------------------------------------- the harness

  const U64: nat := 0x1_0000_0000_0000_0000
  const U32: nat := 0x1_0000_0000

  /** An index as a 64-bit word. */
  function Word(n: nat): bv64
    requires n < U64
  {
    n as bv64
  }

  function Value(word: bv64): nat {
    word as nat
  }

  lemma WordValue(n: nat)
    requires n < U64
    ensures Value(Word(n)) == n % 0x1_0000_0000_0000_0000
  {
  }

  lemma SmallRemainder(n: nat)
    requires n < U64
    ensures n % 0x1_0000_0000_0000_0000 == n
  {
  }

  lemma WordsAreInjective(i: nat, j: nat)
    requires i < U64 && j < U64 && Word(i) == Word(j)
    ensures i == j
  {
    hide Word, Value;
    WordValue(i);
    WordValue(j);
    SmallRemainder(i);
    SmallRemainder(j);
  }

  /** What the scenario is given. */
  datatype Iteration = Iteration(ordinal: nat, seed: bv64, warmup: bool)

  /** The k-th iteration of a run, counting warmups first. */
  function IterationAt(root: bv64, warmups: nat, k: nat): Iteration
    requires k < U64
  {
    if k < warmups then Iteration(k, DeriveSeed(root, Word(k)), true)
    else Iteration(k - warmups, DeriveSeed(root, Word(k)), false)
  }

  lemma SeedsAreDistinct(root: bv64, warmups: nat, i: nat, j: nat)
    requires i < j < U64
    ensures IterationAt(root, warmups, i).seed != IterationAt(root, warmups, j).seed
  {
    hide DeriveSeed, Word;
    if DeriveSeed(root, Word(i)) == DeriveSeed(root, Word(j)) {
      SeedsAreInjective(root, Word(i), Word(j));
      WordsAreInjective(i, j);
    }
  }

  /** `BenchmarkHarness::run`: the iterations handed to the scenario, with both counts `u32` values. */
  method Run(root: bv64, warmups: nat, repetitions: nat) returns (run: seq<Iteration>)
    requires warmups < U32 && repetitions < U32
    ensures |run| == warmups + repetitions
    ensures forall k :: 0 <= k < |run| ==> run[k].warmup == (k < warmups)
    ensures forall k :: 0 <= k < |run| ==> run[k].ordinal == if k < warmups then k else k - warmups
    ensures forall k :: 0 <= k < |run| ==> SeedIndex(root, run[k].seed) == Word(k)
    ensures forall i, j :: 0 <= i < j < |run| ==> run[i].seed != run[j].seed
  {
    hide DeriveSeed, Word, SeedIndex;
    run := [];
    for ordinal := 0 to warmups
      invariant |run| == ordinal
      invariant forall k :: 0 <= k < |run| ==> run[k] == IterationAt(root, warmups, k)
    {
      run := run + [Iteration(ordinal, DeriveSeed(root, Word(ordinal)), true)];
    }
    for ordinal := 0 to repetitions
      invariant |run| == warmups + ordinal
      invariant forall k :: 0 <= k < |run| ==> run[k] == IterationAt(root, warmups, k)
    {
      var index := warmups + ordinal;
      run := run + [Iteration(ordinal, DeriveSeed(root, Word(index)), false)];
    }
    forall i, j | 0 <= i < j < |run| ensures run[i].seed != run[j].seed {
      SeedsAreDistinct(root, warmups, i, j);
    }
  }
}
