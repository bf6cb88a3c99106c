/** The ring of a queue whose depth has been rounded up to a power of two: tickets are 32-bit
    counters that wrap around, and the wrap is invisible. */
module TicketRing {
  import opened MessageQueue

  /** The bit trick that rounds up to a power of two; the result is the least power of two
      that is not below `x`, or 0 where there is none among the 32-bit numbers (or `x` is 0). */
  function RoundToPow2(x: bv32): (r: bv32)
    ensures 0 < x <= 0x8000_0000 ==> x <= r && r >> 1 < x && (r - 1) & r == 0
    ensures x == 0 || x > 0x8000_0000 ==> r == 0
  {
    var x0 := x - 1;
    var x1 := x0 | (x0 >> 1);
    var x2 := x1 | (x1 >> 2);
    var x3 := x2 | (x2 >> 4);
    var x4 := x3 | (x3 >> 8);
    var x5 := x4 | (x4 >> 16);
    x5 + 1
  }

  /** A nonzero number without two bits set is one of the 32 powers of two. */
  lemma PowersOfTwo(r: bv32)
    requires r > 0 && (r - 1) & r == 0
    ensures r in {0x1, 0x2, 0x4, 0x8, 0x10, 0x20, 0x40, 0x80, 0x100, 0x200, 0x400, 0x800,
                  0x1000, 0x2000, 0x4000, 0x8000, 0x1_0000, 0x2_0000, 0x4_0000, 0x8_0000,
                  0x10_0000, 0x20_0000, 0x40_0000, 0x80_0000, 0x100_0000, 0x200_0000, 0x400_0000, 0x800_0000,
                  0x1000_0000, 0x2000_0000, 0x4000_0000, 0x8000_0000}
  {
  }

  const WRAP: nat := 0x1_0000_0000

  /** The rounded depth divides the range of the counters. */
  lemma DepthDividesWrap(x: bv32)
    requires 0 < x <= 0x8000_0000
    ensures RoundToPow2(x) as nat > 0 && WRAP % (RoundToPow2(x) as nat) == 0
  {
    PowersOfTwo(RoundToPow2(x));
  }

  /** The slot of the `t`-th fetch-and-add: the counter has wrapped `t / 2^32` times. */
  function SlotOf(depth: nat, t: nat): nat
    requires depth > 0
  {
    t % WRAP % depth
  }

  function TicketRing(depth: nat): Ring
    requires depth > 0
  {
    Ring(depth, (t: nat) => SlotOf(depth, t))
  }

  lemma ModIs(x: nat, n: nat, q: nat, m: nat)
    requires m < n && x == n * q + m
    ensures x % n == m
  {
    var k := q - x / n;
    assert n * (x / n) + x % n == x;
    assert n * k == x % n - m;
    assert k >= 1 ==> n * k >= n;
    assert k <= -1 ==> n * k + n <= 0;
  }

  /** Wrapping first makes no difference when the depth divides the range. */
  lemma WrapInvisible(depth: nat, t: nat)
    requires depth > 0 && WRAP % depth == 0
    ensures SlotOf(depth, t) == t % depth
  {
    var k, q, m := WRAP / depth, t / WRAP, t % WRAP;
    assert WRAP == depth * k;
    assert t == WRAP * q + m;
    assert WRAP * q == depth * (k * q);
    assert m == depth * (m / depth) + m % depth;
    assert t == depth * (k * q + m / depth) + m % depth;
    ModIs(t, depth, k * q + m / depth, m % depth);
  }

  lemma ModPeriod(n: nat, t: nat)
    requires n > 0
    ensures (t + n) % n == t % n
  {
    assert t + n == n * (t / n + 1) + t % n;
    ModIs(t + n, n, t / n + 1, t % n);
  }

  lemma ModDistinct(n: nat, t: nat, u: nat)
    requires n > 0 && t < u < t + n
    ensures t % n != u % n
  {
    var q, m, d := t / n, t % n, u - t;
    assert t == n * q + m;
    if m + d < n {
      ModIs(u, n, q, m + d);
    } else {
      assert u == n * (q + 1) + (m + d - n);
      ModIs(u, n, q + 1, m + d - n);
    }
  }

  lemma LastMultiple(w: nat, n: nat)
    requires n > 0 && w % n != 0
    ensures 0 < w % n < n && w % n <= w && (w - w % n) % n == 0
  {
    assert w == n * (w / n) + w % n;
    ModIs(w - w % n, n, w / n, 0);
  }

  /** The last multiple of `n` below 2^32 and the ticket that wraps to 0 share slot 0. */
  lemma SharedSlot(n: nat)
    requires n > 0 && WRAP % n != 0
    ensures 0 < WRAP % n < n && WRAP % n <= WRAP && SlotOf(n, WRAP - WRAP % n) == 0 == SlotOf(n, WRAP)
  {
    LastMultiple(WRAP, n);
    var t: nat := WRAP - WRAP % n;
    assert t % WRAP == t by { ModIs(t, WRAP, 0, t); }
    assert 0 % n == 0 by { ModIs(0, n, 0, 0); }
  }

  /** The slots of wrapping 32-bit tickets behave like a ring exactly when the depth divides 2^32. */
  lemma RingGoodIff(n: nat)
    requires n > 0
    ensures GoodRing(TicketRing(n)) <==> WRAP % n == 0
  {
    if WRAP % n == 0 {
      DividingRingIsGood(n);
    } else {
      SharedSlot(n);
      var r, t := TicketRing(n), WRAP - WRAP % n;
      assert r.slot(t) == r.slot(WRAP);
    }
  }

  lemma DividingRingIsGood(n: nat)
    requires n > 0 && WRAP % n == 0
    ensures GoodRing(TicketRing(n)) && forall j | 0 <= j < n :: TicketRing(n).slot(j) == j
  {
    var r := TicketRing(n);
    forall t: nat ensures r.slot(t) == t % n {
      WrapInvisible(n, t);
    }
    forall t: nat, u: nat | t < u < t + n ensures r.slot(t) != r.slot(u) {
      ModDistinct(n, t, u);
    }
    forall t: nat ensures Period(r, t) {
      ModPeriod(n, t);
    }
    forall j | 0 <= j < n ensures r.slot(j) == j {
      ModIs(j, n, 0, j);
    }
  }

  /** Whatever depth the caller asks for, the rounded ring is good in spite of the wrap-around. */
  lemma RoundedRingIsGood(x: bv32)
    requires 0 < x <= 0x8000_0000
    ensures var n := RoundToPow2(x) as nat;
            n > 0 && GoodRing(TicketRing(n)) && forall j | 0 <= j < n :: TicketRing(n).slot(j) == j
  {
    DepthDividesWrap(x);
    DividingRingIsGood(RoundToPow2(x) as nat);
  }
}
