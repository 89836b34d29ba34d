/** The Gremlins' own `rand`: a linear congruential generator, and the scaled pick built on it. */
module Random {
  import opened Bytes
  import opened Counting

  const MULTIPLIER: nat := 214013
  const INCREMENT: nat := 2531011
  const RAND_MAX: nat := 0x7FFF

  /** The number of generator states. */
  const STATES: nat := 0x1_0000_0000

  function Step(state: uint32): uint32 {
    (state * MULTIPLIER + INCREMENT) % STATES
  }

  /** `(state >> 16) & 0x7FFF`. */
  function Output(state: uint32): (r: nat)
    ensures r <= RAND_MAX
  {
    state / 0x1_0000 % 0x8000
  }

  function Scaled(r: nat, n: nat): nat {
    r * n / (RAND_MAX + 1)
  }

  class Generator {
    var next: uint32

    constructor ()
      ensures next == 1
    {
      next := 1;
    }

    method Srand(seed: uint32)
      modifies this
      ensures next == seed
    {
      next := seed;
    }

    method Rand() returns (r: nat)
      modifies this
      ensures next == Step(old(next)) && r == Output(next)
    {
      next := (next * MULTIPLIER + INCREMENT) % STATES;
      r := next / 0x1_0000 % 0x8000;
    }

    /** A pick among `n`: never out of range. */
    method RandN(n: nat) returns (r: nat)
      modifies this
      ensures next == Step(old(next)) && r == Scaled(Output(next), n)
      ensures n > 0 ==> r < n
      ensures n == 0 ==> r == 0
    {
      var x := Rand();
      ScaledInRange(x, n);
      r := x * n / (RAND_MAX + 1);
    }
  }

  lemma ScaledInRange(r: nat, n: nat)
    requires r <= RAND_MAX
    ensures n > 0 ==> Scaled(r, n) < n
    ensures n == 0 ==> Scaled(r, n) == 0
  {
    assert r * n <= RAND_MAX * n;
  }

  /** The scaled pick cuts the 32768 values into `n` intervals, in order: `k` is picked exactly by the values from
      32768k/n up to, but not including, 32768(k+1)/n. */
  lemma ScaledIs(r: nat, n: nat, k: nat)
    ensures Scaled(r, n) == k <==> 32768 * k <= r * n < 32768 * (k + 1)
    ensures Scaled(r, n) < k <==> r * n < 32768 * k
  {
  }

  lemma ScaledMonotone(r: nat, s: nat, n: nat)
    requires r <= s
    ensures Scaled(r, n) <= Scaled(s, n)
  {
    Distribute(n, r, s - r);
    assert s * n == r * n + (s - r) * n;
  }

  function Iterate(state: uint32, n: nat): uint32 {
    if n == 0 then state else Step(Iterate(state, n - 1))
  }

  // ---------------------------------------------------------------------------
  // Divisibility by powers of two

  /** 2^k divides x. */
  predicate Divides2(k: nat, x: nat)
    decreases k
  {
    k == 0 || (x % 2 == 0 && Divides2(k - 1, x / 2))
  }

  lemma DividesPair(k: nat, x: nat)
    requires k >= 2
    ensures Divides2(k, x) <==> x % 4 == 0 && Divides2(k - 2, x / 4)
  {
    assert x / 2 / 2 == x / 4;
  }

  lemma DividesNibble(k: nat, x: nat)
    requires k >= 4
    ensures Divides2(k, x) <==> x % 0x10 == 0 && Divides2(k - 4, x / 0x10)
  {
    hide Divides2;
    DividesPair(k, x);
    DividesPair(k - 2, x / 4);
    PairOfPairs(x);
  }

  lemma PairOfPairs(x: nat)
    ensures x / 4 / 4 == x / 0x10 && (x % 0x10 == 0 <==> x % 4 == 0 && x / 4 % 4 == 0)
  {
    var q, r := x / 0x10, x % 0x10;
    assert x == 4 * (4 * q + r / 4) + r % 4;
    assert x / 4 == 4 * q + r / 4;
  }

  lemma DividesOctet(k: nat, x: nat)
    requires k >= 8
    ensures Divides2(k, x) <==> x % 0x100 == 0 && Divides2(k - 8, x / 0x100)
  {
    hide Divides2;
    DividesNibble(k, x);
    DividesNibble(k - 4, x / 0x10);
    assert x / 0x10 / 0x10 == x / 0x100;
  }

  lemma DividesHalfWord(k: nat, x: nat)
    requires k >= 16
    ensures Divides2(k, x) <==> x % 0x1_0000 == 0 && Divides2(k - 16, x / 0x1_0000)
  {
    hide Divides2;
    DividesOctet(k, x);
    DividesOctet(k - 8, x / 0x100);
    assert x / 0x100 / 0x100 == x / 0x1_0000;
    assert x % 0x1_0000 == x / 0x100 % 0x100 * 0x100 + x % 0x100;
  }

  /** The generator's modulus is the 32nd power of two. */
  lemma DividesStates(x: nat)
    ensures Divides2(32, x) <==> x % STATES == 0
  {
    hide Divides2;
    DividesHalfWord(32, x);
    DividesHalfWord(16, x / 0x1_0000);
    assert x / 0x1_0000 / 0x1_0000 == x / STATES;
    assert x % STATES == x / 0x1_0000 % 0x1_0000 * 0x1_0000 + x % 0x1_0000;
    DividesNone(x / STATES);
  }

  lemma DividesNone(x: nat)
    ensures Divides2(0, x)
  {
  }

  lemma OddTimesOdd(x: nat, y: nat)
    requires x % 2 == 1 && y % 2 == 1
    ensures x * y % 2 == 1
  {
    var a, b := x / 2, y / 2;
    Distribute(y, 2 * a, 1);
    Distribute(a, 2 * b, 1);
    assert x * y == 2 * (a * y) + y;
  }

  lemma Distribute(c: int, a: int, b: int)
    ensures (a + b) * c == a * c + b * c
    ensures c * (a + b) == c * a + c * b
  {
  }

  lemma Associate(a: int, b: int, c: int)
    ensures a * b * c == a * (b * c)
    ensures a * b == b * a
  {
  }

  /** An odd factor does not change divisibility by a power of two. */
  lemma {:induction false} OddFactor(x: nat, odd: nat, k: nat)
    requires odd % 2 == 1
    ensures Divides2(k, x * odd) <==> Divides2(k, x)
    decreases k
  {
    if k > 0 {
      if x % 2 == 1 {
        OddTimesOdd(x, odd);
      } else {
        Associate(2, x / 2, odd);
        assert x * odd == 2 * (x / 2 * odd);
        OddFactor(x / 2, odd, k - 1);
      }
    }
  }

  // ---------------------------------------------------------------------------
  // The single cycle

  /** 1 + a + ... + a^(n-1) for the multiplier a. */
  function Sum(n: nat): nat {
    if n == 0 then 0 else MULTIPLIER * Sum(n - 1) + 1
  }

  /** a^n. */
  function Power(n: nat): nat {
    1 + (MULTIPLIER - 1) * Sum(n)
  }

  lemma {:induction false} SumAdd(m: nat, n: nat)
    ensures Sum(m + n) == Sum(m) + Power(m) * Sum(n)
    decreases n
  {
    if n > 0 {
      SumAdd(m, n - 1);
      var p, s := Power(m), Sum(n - 1);
      Distribute(p, MULTIPLIER * s, 1);
      Associate(MULTIPLIER, s, p);
      Associate(s, p, 1);
    }
  }

  lemma OddStep(s: nat)
    ensures (MULTIPLIER * s + 1) % 2 == 1 - s % 2
  {
    assert MULTIPLIER * s + 1 == 2 * (MULTIPLIER * (s / 2)) + (MULTIPLIER * (s % 2) + 1);
  }

  lemma {:induction false} SumParity(n: nat)
    ensures Sum(n) % 2 == n % 2
  {
    if n > 0 {
      SumParity(n - 1);
      OddStep(Sum(n - 1));
    }
  }

  lemma SumDoubled(m: nat)
    ensures Sum(2 * m) == 2 * (Sum(m) * (1 + 107006 * Sum(m)))
  {
    SumAdd(m, m);
    var s := Sum(m);
    Distribute(s, 1, 214012 * s);
    Distribute(s, 1, 107006 * s);
    Associate(214012, s, s);
    Associate(107006, s, s);
    Associate(s, 107006 * s, 1);
  }

  /** The geometric sum has exactly the factors of two of its length. */
  lemma {:induction false} SumFactorsOfTwo(n: nat, k: nat)
    ensures Divides2(k, Sum(n)) <==> Divides2(k, n)
    decreases k
  {
    hide Sum;
    SumParity(n);
    if k > 0 && n % 2 == 0 {
      var m := n / 2;
      SumDoubled(m);
      SumFactorsOfTwo(m, k - 1);
      OddFactor(Sum(m), 1 + 107006 * Sum(m), k - 1);
    }
  }

  /** How far one step moves a state, before reduction. */
  function Drift(state: uint32): nat {
    (MULTIPLIER - 1) * state + INCREMENT
  }

  lemma AddMultiple(x: nat, q: nat)
    ensures (x + STATES * q) % STATES == x % STATES
  {
  }

  lemma StepReduces(x: nat)
    ensures Step(x % STATES) == (x * MULTIPLIER + INCREMENT) % STATES
  {
    var q, r := x / STATES, x % STATES;
    assert x == r + STATES * q;
    AddMultiple(r * MULTIPLIER + INCREMENT, q * MULTIPLIER);
  }

  lemma {:induction false} IterateClosedForm(state: uint32, n: nat)
    ensures Iterate(state, n) == (state + Sum(n) * Drift(state)) % STATES
  {
    hide Step;
    if n == 0 {
      assert 0 * Drift(state) == 0;
    } else {
      IterateClosedForm(state, n - 1);
      var d, s := Drift(state), Sum(n - 1);
      StepReduces(state + s * d);
      Associate(MULTIPLIER, s, d);
      Distribute(d, MULTIPLIER * s, 1);
    }
  }

  lemma SameModDifference(x: nat, y: nat)
    requires x <= y
    ensures x % STATES == y % STATES <==> (y - x) % STATES == 0
  {
  }

  lemma PowerOdd(n: nat)
    ensures Power(n) % 2 == 1
  {
  }

  /** The distance between two positions decides whether they hold the same state. */
  lemma SameStateIffDrifted(state: uint32, i: nat, j: nat)
    requires i <= j
    ensures Power(i) * Sum(j - i) * Drift(state) >= 0
    ensures Iterate(state, i) == Iterate(state, j)
            <==> Power(i) * Sum(j - i) * Drift(state) % STATES == 0
  {
    hide Sum, Step, Iterate, Power, Drift;
    var d, p, s := Drift(state), Power(i), Sum(j - i);
    IterateClosedForm(state, i);
    IterateClosedForm(state, j);
    SumAdd(i, j - i);
    Distribute(d, Sum(i), p * s);
    NonNegative(p, s, d);
    SameModDifference(state + Sum(i) * d, state + Sum(j) * d);
  }

  lemma NonNegative(p: nat, s: nat, d: nat)
    ensures p * s >= 0 && p * s * d >= 0
  {
  }

  lemma DriftOdd(state: uint32)
    ensures Drift(state) % 2 == 1
  {
    assert Drift(state) == 2 * (107006 * state + 1265505) + 1;
  }

  /** From every seed, two positions hold the same state exactly when 2^32 divides their distance. */
  lemma FullPeriod(state: uint32, i: nat, j: nat)
    requires i <= j
    ensures Iterate(state, i) == Iterate(state, j) <==> (j - i) % STATES == 0
  {
    hide Sum, Step, Iterate, Divides2, Power, Drift;
    var d, p, s := Drift(state), Power(i), Sum(j - i);
    SameStateIffDrifted(state, i, j);
    NonNegative(p, s, d);
    DividesStates(p * s * d);
    DriftOdd(state);
    OddFactor(p * s, d, 32);
    Associate(p, s, d);
    PowerOdd(i);
    OddFactor(s, p, 32);
    SumFactorsOfTwo(j - i, 32);
    DividesStates(j - i);
  }

  // ---------------------------------------------------------------------------
  // Coverage

  /** The states visited at the given positions. */
  ghost function Visited(state: uint32, positions: set<nat>): set<nat> {
    set i | i in positions :: Iterate(state, i)
  }

  lemma DistinctStates(state: uint32, i: nat, j: nat)
    requires i < STATES && j < STATES && i != j
    ensures Iterate(state, i) != Iterate(state, j)
  {
    hide Iterate;
    FullPeriod(state, if i < j then i else j, if i < j then j else i);
  }

  /** Within one period no state is visited twice. */
  lemma {:induction false} VisitedSize(state: uint32, positions: set<nat>)
    requires forall i :: i in positions ==> i < STATES
    ensures |Visited(state, positions)| == |positions|
    decreases |positions|
  {
    hide Iterate;
    if positions != {} {
      var i :| i in positions;
      var rest := positions - {i};
      VisitedSize(state, rest);
      forall j | j in rest ensures Iterate(state, j) != Iterate(state, i) {
        DistinctStates(state, i, j);
      }
      assert Visited(state, positions) == Visited(state, rest) + {Iterate(state, i)};
    }
  }

  /** The generator runs through all 2^32 states before it repeats one. */
  lemma SingleCycle(state: uint32)
    ensures Visited(state, Below(STATES)) == Below(STATES)
    ensures Iterate(state, STATES) == state
  {
    hide Step, Iterate, Below;
    VisitedSize(state, Below(STATES));
    SubsetOfSameSize(Visited(state, Below(STATES)), Below(STATES));
    FullPeriod(state, 0, STATES);
    assert Iterate(state, 0) == state by {
      IterateZero(state);
    }
  }

  lemma IterateZero(state: uint32)
    ensures Iterate(state, 0) == state
  {
  }

  /** Positions within one period at which `rand` returns the value. */
  ghost function Positions(state: uint32, value: nat): set<nat> {
    set i: nat | 0 <= i < STATES && Output(Iterate(state, i)) == value
  }

  /** The states with the given output: two intervals, which differ in the top bit. */
  ghost function StatesWithOutput(value: nat): set<nat> {
    (Below((value + 1) * 0x1_0000) - Below(value * 0x1_0000))
    + (Below((value + 0x8001) * 0x1_0000) - Below((value + 0x8000) * 0x1_0000))
  }

  lemma StatesWithOutputSize(value: nat)
    requires value <= RAND_MAX
    ensures |StatesWithOutput(value)| == 0x2_0000
  {
    hide Below;
    var low := Below((value + 1) * 0x1_0000) - Below(value * 0x1_0000);
    var high := Below((value + 0x8001) * 0x1_0000) - Below((value + 0x8000) * 0x1_0000);
    IntervalSize(value * 0x1_0000, (value + 1) * 0x1_0000);
    IntervalSize((value + 0x8000) * 0x1_0000, (value + 0x8001) * 0x1_0000);
    assert low !! high;
  }

  lemma InStatesWithOutput(x: nat, value: nat)
    requires value <= RAND_MAX
    ensures x in StatesWithOutput(value) <==> x < STATES && Output(x) == value
  {
    hide Below;
    OutputInterval(x, value);
  }

  lemma VisitedWithOutput(state: uint32, value: nat)
    requires value <= RAND_MAX
    ensures Visited(state, Positions(state, value)) == StatesWithOutput(value)
  {
    hide Step, Iterate, Below, StatesWithOutput, Output;
    SingleCycle(state);
    var positions := Positions(state, value);
    forall x: nat
      ensures x in Visited(state, positions) <==> x in StatesWithOutput(value)
    {
      InStatesWithOutput(x, value);
      if x in StatesWithOutput(value) {
        assert x in Visited(state, Below(STATES));
        var i :| i in Below(STATES) && Iterate(state, i) == x;
        assert i in positions;
      }
    }
  }

  /** Over a full cycle `rand` returns each of its 32768 values exactly 2^17 times. */
  lemma EquidistributedOutput(state: uint32, value: nat)
    requires value <= RAND_MAX
    ensures |Positions(state, value)| == 0x2_0000
  {
    hide Step, Iterate, StatesWithOutput;
    VisitedSize(state, Positions(state, value));
    VisitedWithOutput(state, value);
    StatesWithOutputSize(value);
  }

  lemma OutputInterval(x: nat, value: nat)
    requires value <= RAND_MAX
    ensures x < STATES && Output(x) == value
            <==> value * 0x1_0000 <= x < (value + 1) * 0x1_0000
                 || (value + 0x8000) * 0x1_0000 <= x < (value + 0x8001) * 0x1_0000
  {
  }
}
