/** The weighted choice of a key: a table of chances, their sum, and the pick by running subtraction. */
module KeyChoice {
  import opened Bytes
  import opened Counting
  import opened Random

  const NUM_OF_KEYS: nat := 0x110
  const LETTER_PROB: nat := 60
  const SYMBOL_PROB: nat := LETTER_PROB / 10
  const EXTENDED_PROB: nat := LETTER_PROB / 5
  const CONTROL_PROB: nat := LETTER_PROB / 2
  const MENU_PROB: nat := LETTER_PROB / 10
  const KBRD_PROB: nat := 1
  const NXTFLD_PROB: nat := LETTER_PROB / 10
  const SPACE_PROB: nat := LETTER_PROB * 5
  const TAB_PROB: nat := LETTER_PROB * 2
  const BACKSPACE_PROB: nat := LETTER_PROB * 3
  const RETURN_PROB: nat := LETTER_PROB * 10

  /** The table `chanceForKey`. */
  function ChanceForKey(i: nat): nat
    requires i < NUM_OF_KEYS
  {
    if i < 0x08 then 0
    else if i == 0x08 then BACKSPACE_PROB
    else if i == 0x09 then TAB_PROB
    else if i == 0x0A then RETURN_PROB
    else if i <= 0x0C then CONTROL_PROB
    else if i < 0x1C then 0
    else if i < 0x20 then CONTROL_PROB
    else if i == 0x20 then SPACE_PROB
    else if i < 0x40 then SYMBOL_PROB
    else if i < 0x80 then LETTER_PROB
    else if i < 0x100 then EXTENDED_PROB
    else if i == 0x103 || i == 0x10C then NXTFLD_PROB
    else if i == 0x105 then MENU_PROB
    else if i == 0x106 || i == 0x108 || i == 0x10A then CONTROL_PROB
    else if i == 0x109 then KBRD_PROB
    else 0
  }

  /** The chances, in parts: letters have 60, spaces five times, returns ten times, backspaces three times and tabs
      twice as many, symbols and the field and menu keys a tenth, extended characters a fifth, control characters
      and the other virtual keys a half, and the keyboard key one. */
  lemma TableEntries(i: nat)
    requires i < 0x110
    ensures ChanceForKey(i) == 60 <==> 0x40 <= i < 0x80
    ensures ChanceForKey(i) == 300 <==> i == 0x20
    ensures ChanceForKey(i) == 600 <==> i == 0x0A
    ensures ChanceForKey(i) == 180 <==> i == 0x08
    ensures ChanceForKey(i) == 120 <==> i == 0x09
    ensures ChanceForKey(i) == 6 <==> 0x20 < i < 0x40 || i == 0x103 || i == 0x105 || i == 0x10C
    ensures ChanceForKey(i) == 12 <==> 0x80 <= i < 0x100
    ensures ChanceForKey(i) == 30
            <==> i in {0x0B, 0x0C, 0x1C, 0x1D, 0x1E, 0x1F, 0x106, 0x108, 0x10A}
    ensures ChanceForKey(i) == 1 <==> i == 0x109
    ensures ChanceForKey(i) in {0, 1, 6, 12, 30, 60, 120, 180, 300, 600}
  {
  }

  /** The table adds up, class by class: the control characters with backspace, tab and return, the space and the
      symbols, the letters, the extended characters, and the virtual keys. */
  lemma TableTotals(singles: set<nat>)
    requires forall i :: 0 <= i < 0x100 ==> i in singles
    ensures Prefix(singles, 0x20) == 1080 && Prefix(singles, 0x40) - Prefix(singles, 0x20) == 486
    ensures Prefix(singles, 0x80) - Prefix(singles, 0x40) == 3840
    ensures Prefix(singles, 0x100) - Prefix(singles, 0x80) == 1536
    ensures Total(singles) - Prefix(singles, 0x100) == 109
  {
    hide ChanceForKey, Prefix;
    ControlTotal(singles);
    PrintingTotals(singles);
    VirtualTotal(singles);
  }

  lemma ControlTotal(singles: set<nat>)
    requires forall i :: 0 <= i < 0x100 ==> i in singles
    ensures Prefix(singles, 0x20) == 1080
  {
    hide Prefix, Weight;
    PrefixZero(singles);
    Constant(singles, 0, 8, 0);
    Constant(singles, 8, 9, 180);
    Constant(singles, 9, 10, 120);
    Constant(singles, 10, 11, 600);
    Constant(singles, 11, 13, 30);
    Constant(singles, 13, 0x1C, 0);
    Constant(singles, 0x1C, 0x20, 30);
  }

  lemma PrintingTotals(singles: set<nat>)
    requires forall i :: 0 <= i < 0x100 ==> i in singles
    ensures Prefix(singles, 0x40) - Prefix(singles, 0x20) == 486
    ensures Prefix(singles, 0x80) - Prefix(singles, 0x40) == 3840
    ensures Prefix(singles, 0x100) - Prefix(singles, 0x80) == 1536
  {
    hide Prefix, Weight;
    Constant(singles, 0x20, 0x21, 300);
    Constant(singles, 0x21, 0x40, 6);
    Constant(singles, 0x40, 0x80, 60);
    Constant(singles, 0x80, 0x100, 12);
  }

  lemma VirtualTotal(singles: set<nat>)
    requires forall i :: 0 <= i < 0x100 ==> i in singles
    ensures Total(singles) - Prefix(singles, 0x100) == 109
  {
    hide Prefix, Weight;
    Constant(singles, 0x100, 0x103, 0);
    Constant(singles, 0x103, 0x104, 6);
    Constant(singles, 0x104, 0x105, 0);
    Constant(singles, 0x105, 0x106, 6);
    Constant(singles, 0x106, 0x107, 30);
    Constant(singles, 0x107, 0x108, 0);
    Constant(singles, 0x108, 0x109, 30);
    Constant(singles, 0x109, 0x10A, 1);
    Constant(singles, 0x10A, 0x10B, 30);
    Constant(singles, 0x10B, 0x10C, 0);
    Constant(singles, 0x10C, 0x10D, 6);
    Constant(singles, 0x10D, 0x110, 0);
  }

  /** A stretch of the table with one chance throughout. */
  lemma {:induction false} Constant(singles: set<nat>, lo: nat, hi: nat, chance: nat)
    requires lo <= hi <= NUM_OF_KEYS && forall i :: 0 <= i < 0x100 ==> i in singles
    requires forall i :: lo <= i < hi ==> ChanceForKey(i) == chance
    ensures Prefix(singles, hi) == Prefix(singles, lo) + (hi - lo) * chance
    decreases hi
  {
    hide ChanceForKey;
    if lo < hi {
      Constant(singles, lo, hi - 1, chance);
      Distribute(chance, hi - 1 - lo, 1);
      assert ChanceForKey(hi - 1) == chance;
    }
  }

  /** Virtual keys always take part; a byte does when it can be a character of its own (`TxtByteAttr`). */
  predicate Eligible(singles: set<nat>, i: nat) {
    i > 0xFF || i in singles
  }

  function Weight(singles: set<nat>, i: nat): nat
    requires i < NUM_OF_KEYS
  {
    if Eligible(singles, i) then ChanceForKey(i) else 0
  }

  /** The summed weight of the keys below `n`. */
  function Prefix(singles: set<nat>, n: nat): nat
    requires n <= NUM_OF_KEYS
  {
    if n == 0 then 0 else Prefix(singles, n - 1) + Weight(singles, n - 1)
  }

  function Total(singles: set<nat>): nat {
    Prefix(singles, NUM_OF_KEYS)
  }

  lemma {:induction false} PrefixMonotone(singles: set<nat>, i: nat, j: nat)
    requires i <= j <= NUM_OF_KEYS
    ensures Prefix(singles, i) <= Prefix(singles, j)
    decreases j
  {
    if i < j {
      PrefixMonotone(singles, i, j - 1);
    }
  }

  lemma {:induction false} PrefixGrowth(singles: set<nat>, lo: nat, hi: nat, max: nat)
    requires lo <= hi <= NUM_OF_KEYS
    requires forall i :: lo <= i < hi ==> ChanceForKey(i) <= max
    ensures Prefix(singles, hi) <= Prefix(singles, lo) + (hi - lo) * max
    decreases hi
  {
    hide ChanceForKey;
    if lo < hi {
      PrefixGrowth(singles, lo, hi - 1, max);
      Distribute(max, hi - 1 - lo, 1);
      assert ChanceForKey(hi - 1) <= max;
    }
  }

  /** Whatever the character encoding, the sum is positive and far from the limit of its 16-bit field. */
  lemma TotalFits(singles: set<nat>)
    ensures 0 < Total(singles) <= 7872 < 0x1_0000
  {
    hide Prefix;
    PrefixZero(singles);
    PrefixGrowth(singles, 0, 0x08, 0);
    PrefixGrowth(singles, 0x08, 0x09, BACKSPACE_PROB);
    PrefixGrowth(singles, 0x09, 0x0A, TAB_PROB);
    PrefixGrowth(singles, 0x0A, 0x0B, RETURN_PROB);
    PrefixGrowth(singles, 0x0B, 0x20, CONTROL_PROB);
    PrefixGrowth(singles, 0x20, 0x21, SPACE_PROB);
    PrefixGrowth(singles, 0x21, 0x40, SYMBOL_PROB);
    PrefixGrowth(singles, 0x40, 0x80, LETTER_PROB);
    PrefixGrowth(singles, 0x80, 0x100, EXTENDED_PROB);
    PrefixGrowth(singles, 0x100, NUM_OF_KEYS, CONTROL_PROB);
    PrefixMonotone(singles, 0x104, NUM_OF_KEYS);
    PrefixAt(singles, 0x103);
  }

  lemma PrefixZero(singles: set<nat>)
    ensures Prefix(singles, 0) == 0
  {
  }

  lemma PrefixAt(singles: set<nat>, i: nat)
    requires i < NUM_OF_KEYS
    ensures Prefix(singles, i + 1) == Prefix(singles, i) + Weight(singles, i)
  {
  }

  /** The key whose slice of the weights holds `chance`; NUM_OF_KEYS when `chance` is past them all. */
  function Select(singles: set<nat>, chance: nat, from: nat): (i: nat)
    requires from <= NUM_OF_KEYS && Prefix(singles, from) <= chance
    ensures from <= i <= NUM_OF_KEYS
    ensures Prefix(singles, i) <= chance
    ensures i < NUM_OF_KEYS ==> chance < Prefix(singles, i + 1)
    decreases NUM_OF_KEYS - from
  {
    if from == NUM_OF_KEYS || chance < Prefix(singles, from + 1) then from
    else Select(singles, chance, from + 1)
  }

  lemma SelectUnique(singles: set<nat>, chance: nat, i: nat)
    requires i <= NUM_OF_KEYS && Prefix(singles, i) <= chance
    requires i < NUM_OF_KEYS ==> chance < Prefix(singles, i + 1)
    ensures Select(singles, chance, 0) == i
  {
    hide Weight;
    var s := Select(singles, chance, 0);
    if s < i {
      PrefixMonotone(singles, s + 1, i);
    } else if i < s {
      PrefixMonotone(singles, i + 1, s);
    }
  }

  /** The summing loop. */
  method SumProbabilities(singles: set<nat>) returns (sum: uint16)
    ensures sum == Total(singles) && sum > 0
  {
    hide ChanceForKey;
    sum := 0;
    var i := 0;
    while i < NUM_OF_KEYS
      invariant 0 <= i <= NUM_OF_KEYS
      invariant sum == Prefix(singles, i)
    {
      TotalFits(singles);
      PrefixMonotone(singles, i + 1, NUM_OF_KEYS);
      if i > 0x00FF || i in singles {
        sum := sum + ChanceForKey(i);
      }
      i := i + 1;
    }
    TotalFits(singles);
  }

  /** The picking loop: each eligible key in turn takes its chance off the number. */
  method PickKey(singles: set<nat>, random: nat) returns (i: nat)
    ensures i == Select(singles, random, 0)
  {
    hide ChanceForKey;
    var chance := random;
    i := 0;
    while i < NUM_OF_KEYS
      invariant 0 <= i <= NUM_OF_KEYS
      invariant chance >= 0 && random == Prefix(singles, i) + chance
    {
      if i < 0x0100 && i !in singles {
        i := i + 1;
        continue;
      } else if chance < ChanceForKey(i) {
        break;
      } else {
        chance := chance - ChanceForKey(i);
      }
      i := i + 1;
    }
    SelectUnique(singles, random, i);
  }

  /** The numbers below the sum for which the pick lands on a key. */
  ghost function Choosing(singles: set<nat>, i: nat): set<nat> {
    set c | c in Below(Total(singles)) && Select(singles, c, 0) == i
  }

  /** Each key is picked by exactly as many numbers below the sum as its weight says. */
  lemma ExactlyWeighted(singles: set<nat>, i: nat)
    requires i < NUM_OF_KEYS
    ensures |Choosing(singles, i)| == Weight(singles, i)
  {
    hide Below, Weight, Select;
    PrefixMonotone(singles, i + 1, NUM_OF_KEYS);
    PrefixAt(singles, i);
    var lo, hi := Prefix(singles, i), Prefix(singles, i + 1);
    forall c: nat
      ensures c in Choosing(singles, i) <==> c in Below(hi) - Below(lo)
    {
      if lo <= c < hi {
        SelectUnique(singles, c, i);
      }
    }
    assert Choosing(singles, i) == Below(hi) - Below(lo);
    IntervalSize(lo, hi);
  }

  /** Below the sum the pick always lands on an eligible key with a positive chance: the exit past the
      table is taken exactly by the numbers at or above the sum. */
  lemma NeverPastTheTable(singles: set<nat>, random: nat)
    ensures Select(singles, random, 0) == NUM_OF_KEYS <==> random >= Total(singles)
    ensures var i := Select(singles, random, 0);
            i < NUM_OF_KEYS ==> Eligible(singles, i) && ChanceForKey(i) > 0
  {
    hide ChanceForKey;
    var i := Select(singles, random, 0);
    if i < NUM_OF_KEYS {
      PrefixAt(singles, i);
      PrefixMonotone(singles, i + 1, NUM_OF_KEYS);
    }
  }
}
