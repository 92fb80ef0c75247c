/** Slot arithmetic and the bookkeeping every applied block does on it: the absolute slot counter, the
    128-slot window of filled slots and its participation count. */
module SlotClock {
  import opened Entities

  const BLOCK_INTERVAL := 3
  const WINDOW := 128
  const SPAN := 0x1_0000_0000_0000_0000_0000_0000_0000_0000   // 2^128

  /** The head-of-chain fields of the dynamic global properties. Times are seconds. */
  datatype Head = Head(number: nat, time: nat, aslot: nat, slotsFilled: int, participation: int)

  // ----- Slots and times -----

  function SlotTime(h: Head, slot: nat): nat {
    if slot == 0 then 0
    else if h.number == 0 then h.time + slot * BLOCK_INTERVAL
    else h.time / BLOCK_INTERVAL * BLOCK_INTERVAL + slot * BLOCK_INTERVAL
  }

  function SlotAtTime(h: Head, when: nat): nat {
    var first := SlotTime(h, 1);
    if when < first then 0 else (when - first) / BLOCK_INTERVAL + 1
  }

  /** Slot N has begun at time t exactly when the slot of t is N or later. */
  lemma {:induction false} SlotTimeGalois(h: Head, slot: nat, t: nat)
    requires slot >= 1
    ensures SlotTime(h, slot) <= t <==> slot <= SlotAtTime(h, t)
  {
    var first := SlotTime(h, 1);
    assert SlotTime(h, slot) == first + (slot - 1) * BLOCK_INTERVAL;
    if t >= first {
      assert slot <= SlotAtTime(h, t) <==> slot - 1 <= (t - first) / 3;
    }
  }

  /** The absolute number of the interval that contains a time. */
  function IntervalOf(time: nat): nat {
    time / BLOCK_INTERVAL
  }

  // ----- The participation window -----

  /** The number of set bits among the lowest w bits. */
  function Popcount(x: int, w: nat): nat
    requires x >= 0
  {
    if w == 0 then 0 else x % 2 + Popcount(x / 2, w - 1)
  }

  function Pow2(n: nat): nat {
    if n == 0 then 1 else 2 * Pow2(n - 1)
  }

  /** One more slot enters the window, filled or not, and the oldest one leaves it. */
  function Shifted(x: int, bit: int): int {
    x * 2 % SPAN + bit
  }

  lemma {:induction false} HalfSplit(x: int, q: int)
    requires q > 0 && 0 <= x < 4 * q
    ensures x % (2 * q) / 2 == x / 2 % q
    ensures x % (2 * q) % 2 == x % 2
    ensures x / (2 * q) == x / 2 / q
  {
    var y, b := x / 2, x % 2;
    TopDigit(x, 2 * q);
    TopDigit(y, q);
  }

  lemma {:induction false} PopcountTop(x: int, w: nat)
    requires w > 0 && 0 <= x < Pow2(w)
    ensures Pow2(w - 1) > 0
    ensures Popcount(x, w) == x / Pow2(w - 1) + Popcount(x % Pow2(w - 1), w - 1)
    decreases w
  {
    if w > 1 {
      var q := Pow2(w - 2);
      PopcountTop(x / 2, w - 1);
      HalfSplit(x, q);
      assert Pow2(w - 1) == 2 * q;
      assert Popcount(x % (2 * q), w - 1) == x % (2 * q) % 2 + Popcount(x % (2 * q) / 2, w - 2);
    }
  }

  lemma {:induction false} TopDigit(x: int, p: int)
    requires p > 0 && 0 <= x < 2 * p
    ensures x >= p ==> x / p == 1 && x % p == x - p
    ensures x < p ==> x / p == 0 && x % p == x
  {
    if x >= p {
      assert x == 1 * p + (x - p);
      assert (x - p) / p == 0;
    }
  }

  lemma {:induction false} Pow2Next(n: nat)
    ensures Pow2(n + 1) == 2 * Pow2(n) && Pow2(0) == 1
  {
  }

  lemma {:induction false} Pow2Doubled(n: nat, v: int)
    requires Pow2(n) == v
    ensures Pow2(n + n) == v * v
  {
    hide Pow2;
    Pow2Plus(n, n);
  }

  lemma {:induction false} Pow2Window()
    ensures Pow2(127) * 2 == SPAN && Pow2(128) == SPAN
  {
    hide Pow2;
    Pow2Next(0);
    Pow2Doubled(1, 2);
    Pow2Doubled(2, 4);
    Pow2Doubled(4, 0x10);
    Pow2Doubled(8, 0x100);
    Pow2Doubled(16, 0x1_0000);
    Pow2Doubled(32, 0x1_0000_0000);
    Pow2Doubled(64, 0x1_0000_0000_0000_0000);
    Pow2Next(127);
  }

  /** With every bit of the window set, the count is the window's length. */
  lemma {:induction false} FullWindow(w: nat)
    ensures Pow2(w) >= 1 && Popcount(Pow2(w) - 1, w) == w
  {
    if w > 0 {
      FullWindow(w - 1);
      var x := Pow2(w) - 1;
      assert x % 2 == 1 && x / 2 == Pow2(w - 1) - 1;
    }
  }

  lemma {:induction false} Pow2Plus(m: nat, n: nat)
    ensures Pow2(m + n) == Pow2(m) * Pow2(n)
    decreases m
  {
    if m > 0 {
      Pow2Plus(m - 1, n);
      assert Pow2(m + n) == 2 * (Pow2(m - 1) * Pow2(n));
    }
  }

  /** Dropping the top bit and shifting a new one in keeps the counted figure exact. */
  lemma {:induction false} ShiftKeepsCount(x: int, bit: int)
    requires 0 <= x < SPAN && 0 <= bit <= 1
    ensures 0 <= Shifted(x, bit) < SPAN
    ensures Popcount(Shifted(x, bit), WINDOW)
         == Popcount(x, WINDOW) - (if x >= SPAN / 2 then 1 else 0) + bit
  {
    Pow2Window();
    var p := Pow2(127);
    PopcountTop(x, 128);
    TopDigit(x, p);
    TopDigit(x * 2, SPAN);
    var y := Shifted(x, bit);
    assert y % 2 == bit && y / 2 == x % p;
    assert Popcount(y, 128) == bit + Popcount(y / 2, 127);
  }

  /** Slot k of a window, counted back from the latest. */
  function Bit(x: int, k: nat): int
    requires x >= 0
  {
    if k == 0 then x % 2 else Bit(x / 2, k - 1)
  }

  lemma {:induction false} ModHalf(x: int, q: int)
    requires q > 0 && x >= 0
    ensures x % (2 * q) / 2 == x / 2 % q && x % (2 * q) % 2 == x % 2
  {
    var d, r := x / 2 / q, x / 2 % q;
    var m := 2 * r + x % 2;
    assert x == d * (2 * q) + m by {
      assert x / 2 == d * q + r;
    }
    UniqueRemainder(x, d, m, 2 * q);
  }

  /** Cutting a window shorter leaves its latest slots. */
  lemma {:induction false} LowBits(x: int, n: nat, k: nat)
    requires x >= 0 && k < n
    ensures Pow2(n) > 0 && Bit(x % Pow2(n), k) == Bit(x, k)
    decreases k
  {
    FullWindow(n);
    FullWindow(n - 1);
    ModHalf(x, Pow2(n - 1));
    if k > 0 {
      LowBits(x / 2, n - 1, k - 1);
    }
  }

  lemma {:induction false} ShiftedBits(x: int, bit: int, k: nat)
    requires 0 <= x < SPAN && 0 <= bit <= 1 && k < WINDOW
    ensures 0 <= Shifted(x, bit) < SPAN
    ensures Bit(Shifted(x, bit), k) == if k == 0 then bit else Bit(x, k - 1)
  {
    Pow2Window();
    var p := Pow2(127);
    TopDigit(x, p);
    TopDigit(x * 2, SPAN);
    var y := Shifted(x, bit);
    assert y % 2 == bit && y / 2 == x % p;
    if k > 0 {
      LowBits(x, 127, k - 1);
    }
  }

  // ----- Applying a block -----

  /** The window after a block that missed `missed` slots: its own slot is filled, the missed ones are
      not, and whatever is pushed beyond 128 slots is lost. */
  function WindowAfter(x: int, missed: nat): int {
    if missed == 0 then Shifted(x, 1) else Shifted(WindowAfter(x, missed - 1), 0)
  }

  /** The latest slots are the missed ones, not filled, before them the block's own, filled, and before that the slots of
      the old window. */
  lemma {:induction false} WindowBits(x: int, missed: nat, k: nat)
    requires 0 <= x < SPAN && k < WINDOW
    ensures 0 <= WindowAfter(x, missed) < SPAN
    ensures Bit(WindowAfter(x, missed), k) == if k < missed then 0 else if k == missed then 1 else Bit(x, k - missed - 1)
    decreases missed
  {
    hide Shifted, Bit;
    if missed == 0 {
      ShiftedBits(x, 1, k);
    } else {
      WindowBits(x, missed - 1, if k == 0 then 0 else k - 1);
      ShiftedBits(WindowAfter(x, missed - 1), 0, k);
    }
  }

  /** The slot of the block when it is applied; the block before genesis time counts as slot one. */
  function MissedBefore(h: Head, timestamp: nat): int {
    if h.time == 0 then 0 else SlotAtTime(h, timestamp) - 1
  }

  function Applied(h: Head, number: nat, timestamp: nat): Head
    requires MissedBefore(h, timestamp) >= 0
  {
    var missed := MissedBefore(h, timestamp);
    var w := WindowAfter(h.slotsFilled, missed);
    Head(number, timestamp, h.aslot + missed + 1, w, if w < 0 then 0 else Popcount(w, WINDOW))
  }

  ghost predicate CountExact(h: Head) {
    0 <= h.slotsFilled < SPAN && h.participation == Popcount(h.slotsFilled, WINDOW)
  }

  class Clock {
    var head: Head

    /** Genesis counts as if every slot before it had been filled. */
    constructor (time: nat)
      ensures CountExact(head) && head == Head(0, time, 0, SPAN - 1, WINDOW)
    {
      Pow2Window();
      FullWindow(128);
      head := Head(0, time, 0, SPAN - 1, WINDOW);
    }

    /** Applies a block's timestamp: one pass per elapsed slot, adjusting the count bit by bit. */
    method UpdateGlobalDynamicData(number: nat, timestamp: nat)
      requires CountExact(head) && MissedBefore(head, timestamp) >= 0
      modifies this
      ensures head == Applied(old(head), number, timestamp) && CountExact(head)
      ensures head.number == number && head.time == timestamp && head.aslot > old(head).aslot
      ensures head.participation == Popcount(head.slotsFilled, WINDOW)
      ensures old(head).time == 0 ==> head.aslot == old(head).aslot + 1
      ensures old(head).time > 0 ==>
        var slot := head.aslot - old(head).aslot;
        SlotTime(old(head), slot) <= timestamp < SlotTime(old(head), slot + 1)
      ensures forall k: nat :: k < WINDOW ==>
        var missed := head.aslot - old(head).aslot - 1;
        Bit(head.slotsFilled, k)
          == if k < missed then 0 else if k == missed then 1 else Bit(old(head).slotsFilled, k - missed - 1)
    {
      var missed := 0;
      if head.time != 0 {
        missed := SlotAtTime(head, timestamp) - 1;
      }
      var window, count := head.slotsFilled, head.participation;
      var i := 0;
      while i < missed + 1
        invariant 0 <= i <= missed + 1
        invariant window == if i == 0 then head.slotsFilled else WindowAfter(head.slotsFilled, i - 1)
        invariant 0 <= window < SPAN && count == Popcount(window, WINDOW)
        invariant head == old(head)
      {
        var bit := if i == 0 then 1 else 0;
        ShiftKeepsCount(window, bit);
        count := count - if window >= SPAN / 2 then 1 else 0;
        window := Shifted(window, bit);
        count := count + bit;
        i := i + 1;
      }
      if head.time > 0 {
        SlotTimeGalois(head, missed + 1, timestamp);
        SlotTimeGalois(head, missed + 2, timestamp);
      }
      forall k: nat | k < WINDOW
        ensures Bit(window, k) == if k < missed then 0 else if k == missed then 1 else Bit(head.slotsFilled, k - missed - 1)
      {
        WindowBits(head.slotsFilled, missed, k);
      }
      head := Head(number, timestamp, head.aslot + missed + 1, window, count);
    }
  }

  // ----- Whole runs -----

  /** The head after a run of blocks, numbered consecutively, with these timestamps. */
  function Run(h: Head, times: seq<nat>): Head
    requires Playable(h, times)
    decreases |times|
  {
    if times == [] then h else Run(Applied(h, h.number + 1, times[0]), times[1..])
  }

  /** Each block comes in a slot after its predecessor's. */
  predicate Playable(h: Head, times: seq<nat>)
    decreases |times|
  {
    times == [] || (MissedBefore(h, times[0]) >= 0 && Playable(Applied(h, h.number + 1, times[0]), times[1..]))
  }

  lemma {:induction false} AppliedAdvances(h: Head, timestamp: nat)
    requires h.time > 0 && MissedBefore(h, timestamp) >= 0
    requires h.number == 0 ==> h.time % BLOCK_INTERVAL == 0
    ensures var h' := Applied(h, h.number + 1, timestamp);
            h'.aslot - h.aslot == IntervalOf(h'.time) - IntervalOf(h.time) >= 1
  {
    var first := SlotTime(h, 1);
    assert first == (IntervalOf(h.time) + 1) * 3;
    assert (timestamp - first) / 3 == timestamp / 3 - (IntervalOf(h.time) + 1);
  }

  /** Over every run from an interval-aligned genesis the absolute slot counter telescopes to the
      number of intervals elapsed, and the participation count stays exact. */
  lemma {:induction false} RunTelescopes(h: Head, times: seq<nat>)
    requires h.time > 0 && Playable(h, times) && CountExact(h)
    requires h.number == 0 ==> h.time % BLOCK_INTERVAL == 0
    ensures var h' := Run(h, times);
            && h'.number == h.number + |times|
            && h'.aslot - h.aslot == IntervalOf(h'.time) - IntervalOf(h.time) >= |times|
            && CountExact(h')
    decreases |times|
  {
    if times != [] {
      AppliedAdvances(h, times[0]);
      WindowInRange(h.slotsFilled, MissedBefore(h, times[0]));
      RunTelescopes(Applied(h, h.number + 1, times[0]), times[1..]);
    }
  }

  lemma {:induction false} WindowInRange(x: int, missed: nat)
    requires 0 <= x < SPAN
    ensures 0 <= WindowAfter(x, missed) < SPAN
    decreases missed
  {
    if missed > 0 {
      WindowInRange(x, missed - 1);
    }
  }

  // ----- Who produces when -----

  /** The producer of the block in a slot, from the shuffled producers. */
  function ScheduledSiming(producers: seq<Name>, aslot: nat, slot: nat): Name
    requires producers != []
  {
    producers[(aslot + slot) % |producers|]
  }

  /** The producers of the n slots from a given one on, for n scheduled producers. */
  function Turns(producers: seq<Name>, aslot: nat, slot: nat): (turns: seq<Name>)
    requires producers != []
    ensures |turns| == |producers|
    ensures forall k: nat :: k < |turns| ==> turns[k] == ScheduledSiming(producers, aslot, slot + k)
  {
    seq(|producers|, (k: nat) => ScheduledSiming(producers, aslot, slot + k))
  }

  /** Whose turn a slot is does not depend on the block from which it is counted. */
  lemma {:induction false} SameTurn(producers: seq<Name>, aslot: nat, slot: nat, later: nat)
    requires producers != [] && later <= slot
    ensures ScheduledSiming(producers, aslot + later, slot - later) == ScheduledSiming(producers, aslot, slot)
  {
  }

  /** Any n consecutive slots give each of n scheduled producers exactly one slot. */
  lemma {:induction false} OneSlotEach(producers: seq<Name>, aslot: nat, slot: nat)
    requires producers != []
    ensures multiset(Turns(producers, aslot, slot)) == multiset(producers)
  {
    var n := |producers|;
    var c := (aslot + slot) % n;
    var turns := Turns(producers, aslot, slot);
    forall k: nat | k < n
      ensures turns[k] == (producers[c..] + producers[..c])[k]
    {
      Turn(aslot + slot, k, n);
      assert aslot + (slot + k) == aslot + slot + k;
    }
    assert turns == producers[c..] + producers[..c];
    assert producers == producers[..c] + producers[c..];
  }

  lemma {:induction false} Turn(a: nat, k: nat, n: nat)
    requires k < n
    ensures (a + k) % n == if a % n + k < n then a % n + k else a % n + k - n
  {
    var d, r := a / n, a % n;
    assert a == d * n + r;
    if r + k < n {
      UniqueRemainder(a + k, d, r + k, n);
    } else {
      assert a + k == (d + 1) * n + (r + k - n);
      UniqueRemainder(a + k, d + 1, r + k - n, n);
    }
  }

  lemma {:induction false} UniqueRemainder(x: nat, d: nat, r: nat, n: nat)
    requires r < n && x == d * n + r
    ensures x % n == r
  {
    UniqueDigits(x / n, x % n, d, r, n);
  }

  lemma {:induction false} UniqueDigits(q: nat, m: nat, d: nat, r: nat, n: nat)
    requires m < n && r < n && q * n + m == d * n + r
    ensures q == d && m == r
  {
    if q > d {
      Scaled(q, d, n);
    } else if d > q {
      Scaled(d, q, n);
    }
  }

  lemma {:induction false} Scaled(q: nat, d: nat, n: nat)
    requires q > d
    ensures q * n >= d * n + n
  {
    assert (q - d - 1) * n >= 0;
    assert q * n == d * n + n + (q - d - 1) * n;
  }
}
