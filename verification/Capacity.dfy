/** How the constructor of the multi-producer multi-consumer queue rounds its capacity, in
    64-bit machine words, and why masking a ticket selects its slot. */
module Capacity {
  import opened RingIndex

  const MAX_CAPACITY: bv64 := 0x8000_0000_0000_0000

  predicate PowerOfTwo(c: bv64) {
    c != 0 && c & (c - 1) == 0
  }

  /** One round of the smearing loop. */
  function Fold(m: bv64, i: bv64): bv64
    requires i <= 64
  {
    m | (m >> i)
  }

  /** The mask when the loop counter has reached `i`. */
  function Smeared(x: bv64, i: bv64): bv64 {
    if i <= 1 then x
    else if i <= 2 then Fold(x, 1)
    else if i <= 4 then Fold(Fold(x, 1), 2)
    else if i <= 8 then Fold(Fold(Fold(x, 1), 2), 4)
    else if i <= 16 then Fold(Fold(Fold(Fold(x, 1), 2), 4), 8)
    else if i <= 32 then Fold(Fold(Fold(Fold(Fold(x, 1), 2), 4), 8), 16)
    else Fold(Fold(Fold(Fold(Fold(Fold(x, 1), 2), 4), 8), 16), 32)
  }

  predicate Counter(i: bv64) {
    i == 1 || i == 2 || i == 4 || i == 8 || i == 16 || i == 32 || i == 64
  }

  lemma SmearedNext(x: bv64, i: bv64)
    requires Counter(i) && i <= 32
    ensures Counter(i << 1) && i < i << 1 && Smeared(x, i << 1) == Fold(Smeared(x, i), i)
  {
    hide Fold;
  }

  predicate AllOnes(y: bv64) {
    y & (y + 1) == 0
  }

  predicate Tight(x: bv64, y: bv64) {
    if x == 0 then y == 0 else y >> 1 < x
  }

  predicate SameRange(x: bv64, y: bv64) {
    if x < MAX_CAPACITY then y < MAX_CAPACITY else y == 0xffff_ffff_ffff_ffff
  }

  /** `y` is all ones from its top bit down, and that is the top bit of `x`. */
  predicate IsMaskOf(x: bv64, y: bv64) {
    AllOnes(y) && x <= y && Tight(x, y) && SameRange(x, y)
  }

  lemma SmearedIsOnes(x: bv64)
    ensures AllOnes(Smeared(x, 64))
  {
  }

  lemma SmearedCovers(x: bv64)
    ensures x <= Smeared(x, 64)
  {
  }

  lemma SmearedIsTight(x: bv64)
    ensures Tight(x, Smeared(x, 64))
  {
  }

  lemma SmearedKeepsRange(x: bv64)
    ensures SameRange(x, Smeared(x, 64))
  {
  }

  lemma SmearedIsMask(x: bv64)
    ensures IsMaskOf(x, Smeared(x, 64))
  {
    hide Smeared, AllOnes, Tight, SameRange;
    SmearedIsOnes(x);
    SmearedCovers(x);
    SmearedIsTight(x);
    SmearedKeepsRange(x);
  }

  /** The capacity the constructor settles on. */
  function Rounded(capacity: bv64): bv64 {
    Smeared(capacity - 1, 64) + 1
  }

  /** The least power of two not below the request; or none, for a request out of range. */
  predicate IsRounding(capacity: bv64, r: bv64) {
    if 1 <= capacity <= MAX_CAPACITY then PowerOfTwo(r) && capacity <= r && r >> 1 < capacity else r == 0
  }

  /** The body of the loop. */
  method SmearOnce(m: bv64, i: bv64) returns (r: bv64)
    requires i <= 64
    ensures r == Fold(m, i)
  {
    r := m | (m >> i);
  }

  /** The constructor's loop. */
  method SmearMask(x: bv64) returns (capacityMask: bv64)
    ensures capacityMask == Smeared(x, 64)
  {
    hide *;
    capacityMask := x;
    var i: bv64 := 1;
    assert Counter(1) && Smeared(x, 1) == x by { FirstRound(x); }
    while i <= 32
      invariant i <= 64 && Counter(i) && capacityMask == Smeared(x, i)
      decreases 64 - i
    {
      SmearedNext(x, i);
      capacityMask := SmearOnce(capacityMask, i);
      i := i << 1;
      SmallCounter(i);
    }
    LastCounter(i);
  }

  /** The constructor: from 1 up to 2^63 it gives the least power of two not below the
      request, one more than the mask; for every other request, 0 and those above 2^63, it
      wraps to no capacity at all. */
  method RoundCapacity(capacity: bv64) returns (capacityMask: bv64, rounded: bv64)
    ensures rounded == Rounded(capacity) && rounded == capacityMask + 1
    ensures IsRounding(capacity, rounded)
  {
    hide *;
    capacityMask := SmearMask(capacity - 1);
    RoundedFromMask(capacity, capacityMask);
    rounded := capacityMask + 1;
  }

  lemma RoundedFromMask(capacity: bv64, mask: bv64)
    requires mask == Smeared(capacity - 1, 64)
    ensures mask + 1 == Rounded(capacity) && IsRounding(capacity, mask + 1)
  {
    hide Smeared, IsRounding;
    RoundedRight(capacity);
  }

  lemma FirstRound(x: bv64)
    ensures Counter(1) && Smeared(x, 1) == x
  {
  }

  lemma SmallCounter(i: bv64)
    requires Counter(i)
    ensures i <= 64
  {
  }

  lemma LastCounter(i: bv64)
    requires Counter(i) && i > 32
    ensures i == 64
  {
  }

  lemma RoundedRight(capacity: bv64)
    ensures IsRounding(capacity, Rounded(capacity))
  {
    hide Smeared, IsMaskOf, IsRounding;
    SmearedIsMask(capacity - 1);
    RoundedFrom(capacity, Smeared(capacity - 1, 64));
  }

  lemma RoundedFrom(capacity: bv64, y: bv64)
    requires IsMaskOf(capacity - 1, y)
    ensures IsRounding(capacity, y + 1)
  {
    if 1 <= capacity <= MAX_CAPACITY {
      OnesAndOne(y);
      HalfOfMask(capacity - 1, y);
    }
  }

  lemma OnesAndOne(y: bv64)
    requires AllOnes(y) && y < MAX_CAPACITY
    ensures PowerOfTwo(y + 1)
  {
  }

  lemma HalfOfMask(x: bv64, y: bv64)
    requires AllOnes(y) && x <= y < MAX_CAPACITY && Tight(x, y)
    ensures x + 1 <= y + 1 && (y + 1) >> 1 < x + 1
  {
  }

  /** No smaller power of two would do. */
  lemma LeastPowerOfTwo(capacity: bv64, c: bv64)
    requires 1 <= capacity <= MAX_CAPACITY && PowerOfTwo(c) && capacity <= c
    ensures Rounded(capacity) <= c
  {
    hide Rounded;
    RoundedRight(capacity);
    LeastFrom(capacity, Rounded(capacity), c);
  }

  lemma LeastFrom(capacity: bv64, r: bv64, c: bv64)
    requires 1 <= capacity <= MAX_CAPACITY && IsRounding(capacity, r) && PowerOfTwo(c) && capacity <= c
    ensures r <= c
  {
    assert r >> 1 < c;
    TwoPowers(r, c);
  }

  lemma TwoPowers(a: bv64, c: bv64)
    requires PowerOfTwo(a) && PowerOfTwo(c) && a >> 1 < c
    ensures a <= c
  {
  }

  /** The slot of a ticket: the ticket masked with one less than the capacity. */
  function SlotOf(k: bv64, c: bv64): bv64 {
    k & (c - 1)
  }

  /** The ticket `n` capacities after `k`. */
  function Laps(k: bv64, c: bv64, n: nat): bv64 {
    if n == 0 then k else Lap(Laps(k, c, n - 1), c)
  }

  function Lap(k: bv64, c: bv64): bv64 {
    k + c
  }

  /** Masking with one less than a power of two takes the remainder: whatever number of
      capacities a ticket lies above `k`, it has the slot of `k`, and below the capacity that
      slot is `k` itself. */
  lemma {:induction false} MaskTakesRemainder(k: bv64, c: bv64, n: nat)
    requires PowerOfTwo(c)
    ensures SlotOf(Laps(k, c, n), c) == SlotOf(k, c) < c
    ensures k < c ==> SlotOf(Laps(k, c, n), c) == k
  {
    hide PowerOfTwo, SlotOf, Lap;
    MaskBelow(k, c);
    if n > 0 {
      MaskTakesRemainder(k, c, n - 1);
      LapApart(Laps(k, c, n - 1), c);
    }
  }

  /** Tickets one capacity apart share a slot. */
  lemma LapApart(k: bv64, c: bv64)
    requires PowerOfTwo(c)
    ensures SlotOf(Lap(k, c), c) == SlotOf(k, c)
  {
  }

  lemma MaskBelow(k: bv64, c: bv64)
    requires PowerOfTwo(c)
    ensures SlotOf(k, c) < c && (k < c ==> SlotOf(k, c) == k)
  {
  }

  // ---------------------------------------------------------------------------------------
  // Machine words and the numbers they stand for
  // ---------------------------------------------------------------------------------------

  function Half(k: bv64): bv64 {
    k >> 1
  }

  predicate Odd(k: bv64) {
    k & 1 == 1
  }

  lemma HalfLess(k: bv64)
    requires k != 0
    ensures Half(k) < k
  {
  }

  /** The number a machine word stands for. */
  function Value(k: bv64): nat
    decreases k
  {
    if k == 0 then 0
    else
      HalfLess(k);
      2 * Value(Half(k)) + if Odd(k) then 1 else 0
  }

  lemma ValueStep(k: bv64)
    ensures Value(k) == 2 * Value(Half(k)) + if Odd(k) then 1 else 0
  {
    if k == 0 { ZeroWord(); }
  }

  lemma ZeroWord()
    ensures Half(0) == 0 && !Odd(0)
  {
  }

  function NextWord(k: bv64): bv64 {
    k + 1
  }

  predicate Last(k: bv64) {
    k == 0xffff_ffff_ffff_ffff
  }

  /** Counting up: the next word stands for the next number, up to the last word there is. */
  lemma {:induction false} ValueNext(k: bv64)
    requires !Last(k)
    ensures Value(NextWord(k)) == Value(k) + 1
    decreases k
  {
    hide Half, Odd, Value, NextWord, Last;
    ValueStep(k);
    ValueStep(NextWord(k));
    if Odd(k) {
      OddLess(k);
      OddNext(k);
      ValueNext(Half(k));
    } else {
      EvenNext(k);
    }
  }

  lemma OddLess(k: bv64)
    requires Odd(k)
    ensures Half(k) < k && !Last(Half(k))
  {
  }

  lemma OddNext(k: bv64)
    requires Odd(k) && !Last(k)
    ensures !Odd(NextWord(k)) && Half(NextWord(k)) == NextWord(Half(k))
  {
    OddFollowing(k);
  }

  lemma OddFollowing(k: bv64)
    requires Odd(k)
    ensures !Odd(NextWord(k))
  {
  }

  lemma EvenNext(k: bv64)
    requires !Odd(k)
    ensures Odd(NextWord(k)) && Half(NextWord(k)) == Half(k)
  {
  }

  /** Masking takes the remainder: the slot of any ticket is the one the queue's index gives
      for the number it stands for. */
  lemma {:induction false} MaskIsIndex(k: bv64, c: bv64)
    requires PowerOfTwo(c)
    ensures Value(c) > 0 && Value(SlotOf(k, c)) == Index(Value(c), Value(k))
    decreases c
  {
    hide PowerOfTwo, SlotOf, Half, Odd, Value;
    ValueStep(k);
    ValueStep(c);
    ValueStep(SlotOf(k, c));
    if c == 1 {
      OneSlot(k);
    } else {
      HalfSlot(k, c);
      MaskIsIndex(Half(k), Half(c));
      DoubleIndex(Value(Half(c)), Value(Half(k)), if Odd(k) then 1 else 0);
    }
  }

  lemma OneSlot(k: bv64)
    ensures Value(1) == 1 && Value(SlotOf(k, 1)) == 0
  {
    assert k & 0 == 0;
    ValueStep(1);
    assert Half(1) == 0 && Odd(1);
  }

  lemma HalfSlot(k: bv64, c: bv64)
    requires PowerOfTwo(c) && c != 1
    ensures PowerOfTwo(Half(c)) && !Odd(c) && Half(c) < c
    ensures Half(SlotOf(k, c)) == SlotOf(Half(k), Half(c)) && (Odd(SlotOf(k, c)) <==> Odd(k))
  {
  }

  lemma DoubleIndex(n: nat, k: nat, bit: nat)
    requires n > 0 && bit <= 1
    ensures Index(2 * n, 2 * k + bit) == 2 * Index(n, k) + bit
  {
    var q, r := k / n, k % n;
    assert k == n * q + r;
    assert 2 * k + bit == (2 * n) * q + (2 * r + bit);
    ModUnique(2 * n, q, 2 * r + bit, 2 * k + bit);
  }
}
