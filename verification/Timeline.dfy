// The two time bases of the launcher: raw QPC ticks and nanoseconds since the DLL attached.

module Timeline {
  const U64 := 0x1_0000_0000_0000_0000
  const NS_PER_SECOND := 1_000_000_000

  // 128-bit product, then a division that would trap if its quotient overflowed.
  function TicksToNs(ticks: nat, freq: nat): nat {
    if freq == 0 then 0 else
      var product := ticks * NS_PER_SECOND;
      var hi, lo := product / U64, product % U64;
      if hi >= freq then U64 - 1 else (hi * U64 + lo) / freq
  }

  // What Hello establishes; before it there is no time base.
  datatype TimeBase = TimeBase(helloSeen: bool, freq: nat, start: nat, startNs: nat)

  function OnHello(freq: nat, start: nat): TimeBase {
    TimeBase(true, freq, start, TicksToNs(start, freq))
  }

  // An absolute ETW stamp on the launcher's timeline.
  function ConvTs(tb: TimeBase, abs: int): nat {
    if !tb.helloSeen || abs <= 0 then 0
    else if abs > tb.startNs then abs - tb.startNs else 0
  }

  // The launcher's own clock, from a raw counter sample.
  function NowTs(tb: TimeBase, qpc: nat): nat {
    if !tb.helloSeen || tb.freq == 0 then 0
    else if qpc > tb.start then TicksToNs(qpc - tb.start, tb.freq) else 0
  }

  lemma MulMono(x: int, y: int, f: nat)
    requires x <= y
    ensures x * f <= y * f
  {
  }

  lemma FloorDiv(a: nat, f: nat, q: nat)
    requires f > 0 && q * f <= a < (q + 1) * f
    ensures a / f == q
  {
    var d := a / f;
    assert d * f <= a < d * f + f;
    if d < q {
      MulMono(d + 1, q, f);
    } else if d > q {
      MulMono(q + 1, d, f);
    }
  }

  lemma DivMono(a: nat, b: nat, f: nat)
    requires f > 0 && a <= b
    ensures a / f <= b / f
  {
    var x, y := a / f, b / f;
    assert x * f <= a && b < y * f + f;
    if x > y {
      MulMono(y + 1, x, f);
    }
  }

  // The overflow test on the high word is exactly "the quotient does not fit in 64 bits".
  lemma TicksToNsExact(ticks: nat, freq: nat)
    requires freq > 0
    ensures var exact := ticks * NS_PER_SECOND / freq;
            TicksToNs(ticks, freq) == if exact < U64 then exact else U64 - 1
  {
    var p := ticks * NS_PER_SECOND;
    DivReaches(p, U64, freq);
    DivReaches(p, freq, U64);
    assert p / U64 * U64 + p % U64 == p;
  }

  lemma DivReaches(p: nat, a: nat, b: nat)
    requires a > 0
    ensures p / a >= b <==> p >= b * a
  {
    var q := p / a;
    assert q * a <= p < q * a + a;
    if q >= b {
      MulMono(b, q, a);
    } else {
      MulMono(q + 1, b, a);
      assert (q + 1) * a == q * a + a;
    }
  }

  lemma TicksToNsMonotone(t1: nat, t2: nat, freq: nat)
    requires t1 <= t2
    ensures TicksToNs(t1, freq) <= TicksToNs(t2, freq)
  {
    if freq > 0 {
      TicksToNsExact(t1, freq);
      TicksToNsExact(t2, freq);
      DivMono(t1 * NS_PER_SECOND, t2 * NS_PER_SECOND, freq);
    }
  }

  // Rounding a difference and taking the difference of roundings differ by at most one.
  lemma FloorOfDifference(a: nat, b: nat, f: nat)
    requires f > 0 && b <= a
    ensures a / f - b / f - 1 <= (a - b) / f <= a / f - b / f
  {
    var x, y := a / f, b / f;
    var ra, rb := a % f, b % f;
    assert a == x * f + ra && b == y * f + rb;
    DivMono(b, a, f);
    var d := a - b;
    assert d == (x - y) * f + (ra - rb) by {
      assert x * f - y * f == (x - y) * f;
    }
    if ra >= rb {
      assert (x - y) * f <= d < (x - y + 1) * f by {
        assert (x - y + 1) * f == (x - y) * f + f;
      }
      FloorDiv(d, f, x - y);
    } else {
      assert x - y >= 1;
      assert (x - y - 1) * f <= d < (x - y) * f by {
        assert (x - y - 1) * f == (x - y) * f - f;
      }
      FloorDiv(d, f, x - y - 1);
    }
  }

  // The library stamps an event with its own rounding of the raw counter; ConvTs puts it on the DLL's timeline.
  // The result is the DLL's own conversion of the same counter value, or one nanosecond more.
  lemma EtwStampWithinOneNs(freq: nat, start: nat, q: nat)
    requires freq > 0 && start <= q
    requires 0 < q * NS_PER_SECOND / freq < U64 / 2
    ensures var stamp := q * NS_PER_SECOND / freq;
            var tb := OnHello(freq, start);
            NowTs(tb, q) <= ConvTs(tb, stamp) <= NowTs(tb, q) + 1
  {
    hide TicksToNs;
    var a, b := q * NS_PER_SECOND, start * NS_PER_SECOND;
    assert b <= a;
    DivMono(b, a, freq);
    TicksToNsExact(start, freq);
    TicksToNsExact(q - start, freq);
    assert (q - start) * NS_PER_SECOND == a - b;
    FloorOfDifference(a, b, freq);
  }
}
