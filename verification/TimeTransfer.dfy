/**
  Grandmaster time carried through the nodes of a chain.

  Times are true time in units of 2^-16 ns. All clocks run at the rate of true time; the clock of a
  node with offset `o` has counted t + o at true time t, and starts over after 2^32 seconds.
 */
module TimeTransfer {
  import opened Words
  import opened ScaledTime
  import opened PtpMessages
  import M = ClockMasterSender
  import S = SyncSender
  import R = SyncReceiver
  import C = ClockSlave

  const CLOCK_PERIOD: int := CLOCK_PERIOD_NS * TWO16

  /** How often the clock has started over. */
  function Cycle(t: int, offset: int): int { (t + offset) / CLOCK_PERIOD }

  function ClockAt(t: int, offset: int): UScaledNs { OfValue(t + offset - CLOCK_PERIOD * Cycle(t, offset)) }

  lemma ClockReads(t: int, offset: int)
    ensures Value(ClockAt(t, offset)) == (t + offset) % CLOCK_PERIOD
  {
    var v := t + offset;
    assert v - CLOCK_PERIOD * (v / CLOCK_PERIOD) == v % CLOCK_PERIOD;
    SmallRemainder(v % CLOCK_PERIOD);
  }

  // ---- Arithmetic modulo 2^96 ----

  predicate Even(t: UScaledNs) { t.subns % 2 == 0 }

  lemma EvenValue(t: UScaledNs)
    ensures Even(t) <==> Value(t) % 2 == 0
  {
  }

  /** Even sub-nanoseconds never reach the early carry. */
  lemma AddEven(a: UScaledNs, b: UScaledNs)
    requires Even(a) && Even(b)
    ensures Even(Add(a, b))
    ensures var sum := Value(a) + Value(b); Value(Add(a, b)) == if sum < TWO96 then sum else sum - TWO96
  {
    hide Add, Value;
    EvenValue(a);
    EvenValue(b);
    EvenValue(Add(a, b));
  }

  lemma SubtractEven(a: UScaledNs, b: UScaledNs)
    requires Even(a) && Even(b)
    ensures Even(Subtract(a, b))
  {
    hide Subtract, Value;
    EvenValue(a);
    EvenValue(b);
    EvenValue(Subtract(a, b));
  }

  /** Modulo 2^96 the difference of two counts is the count between them, forwards or backwards. */
  lemma CountBetween(x: int, y: int)
    ensures Subtract(OfValue(x), OfValue(y)) == OfValue(x - y)
  {
    hide Subtract, Value, OfValue;
    DifferenceModulo(x, y);
    ValueInjective(Subtract(OfValue(x), OfValue(y)), OfValue(x - y));
  }

  lemma DifferenceModulo(x: int, y: int)
    ensures var a, b := x % TWO96, y % TWO96; (x - y) % TWO96 == if a >= b then a - b else a - b + TWO96
  {
    var a, b := x % TWO96, y % TWO96;
    var q := x / TWO96 - y / TWO96;
    assert x - y == q * TWO96 + (a - b);
    if a >= b {
      RemainderOf(q, a - b);
    } else {
      assert x - y == (q - 1) * TWO96 + (a - b + TWO96);
      RemainderOf(q - 1, a - b + TWO96);
    }
  }

  lemma RemainderOf(q: int, r: int)
    requires 0 <= r < TWO96
    ensures (q * TWO96 + r) % TWO96 == r
  {
  }

  // ---- What a piece of synchronization data tells ----

  /** The source time the grandmaster took over, and the true time at which it did. */
  datatype Source = Source(time: UScaledNs, at: int)
  {
    /** The grandmaster's time at true time t. */
    function Gm(t: int): int { Value(time) + t - at }

    /** What the PTP timestamp cannot hold of the source time. */
    function Fraction(): int { time.subns }

    /** The source time is a reading of a clock, with even sub-nanoseconds. */
    predicate InEra() { time.nsecMsb == 0 && time.nsec < CLOCK_PERIOD_NS && Even(time) }
  }

  /**
    Data that says: at true time `at`, when the node's clock counted upstreamTxTime, it was this at the
    grandmaster. The counts are modulo 2^96, so `at` may also lie before the source time.
   */
  predicate Carries(src: Source, d: MDSync, offset: int, at: int) {
    && src.InEra()
    && d.upstreamTxTime == OfValue(at + offset) && Even(d.upstreamTxTime)
    && Value(FromPtp(d.preciseOrigin)) == Value(src.time) - src.Fraction()
    && d.correction == OfValue(at - src.at) && Even(d.correction)
  }

  /** preciseOrigin + correction of a Follow_Up is the grandmaster's time at that Sync's egress. */
  predicate TellsEgress(src: Source, f: FollowUpMsg, egress: int) {
    Value(FromPtp(f.preciseOrigin)) + f.correction == src.Gm(egress) - src.Fraction()
  }

  /**
    The indication of a grandmaster whose master and local time are the source time, a reading of its
    own clock. If that has started over since, the indication is that of an earlier time.
   */
  lemma IndicationCarries(src: Source, c: M.Config, offset: int, at: int)
    requires c.masterTime == src.time == c.localTime == ClockAt(src.at, offset)
    requires Even(src.time) && Even(ClockAt(at, offset))
    ensures var lost := Cycle(at, offset) - Cycle(src.at, offset);
            Carries(src, M.MakeIndication(c, ClockAt(at, offset)).data,
                    offset - CLOCK_PERIOD * Cycle(src.at, offset), at - CLOCK_PERIOD * lost)
  {
    hide OfValue, Subtract, ToPtp, FromPtp, Cycle;
    ClockReads(src.at, offset);
    ReadingRange(src.time, src.at + offset);
    PtpRoundTrip(src.time);
    WholeNs(src.time);
    var first, last := CLOCK_PERIOD * Cycle(src.at, offset), CLOCK_PERIOD * Cycle(at, offset);
    CountBetween(at + offset - last, src.at + offset - first);
    var lost := Cycle(at, offset) - Cycle(src.at, offset);
    assert at + offset - last - (src.at + offset - first) == at - CLOCK_PERIOD * lost - src.at;
    assert at - CLOCK_PERIOD * lost + (offset - first) == at + offset - last;
    SubtractEven(ClockAt(at, offset), src.time);
  }

  lemma ReadingRange(t: UScaledNs, x: int)
    requires Value(t) == x % CLOCK_PERIOD
    ensures t.nsecMsb == 0 && t.nsec < CLOCK_PERIOD_NS
  {
    assert t.nsecMsb * TWO64 + t.nsec < CLOCK_PERIOD_NS;
  }

  lemma WholeNs(t: UScaledNs)
    requires t.nsecMsb == 0
    ensures t.nsec * TWO16 == Value(t) - t.subns
  {
  }

  // ---- The Follow_Up ----

  /**
    The correction put into a Follow_Up is the one received plus the time since, exactly when the
    addition does not carry early and the sum fits the 64-bit field.
   */
  lemma CorrectionExact(d: MDSync, id: u16, egress: UScaledNs)
    ensures var elapsed := Subtract(egress, d.upstreamTxTime);
            S.MakeFollowUp(d, id, egress).correction == Value(d.correction) + Value(elapsed)
            <==> Value(d.correction) + Value(elapsed) < TWO64 && !CarriesEarly(d.correction, elapsed)
  {
    hide Subtract, Add, ToUint64;
    var elapsed := Subtract(egress, d.upstreamTxTime);
    var sum := Value(d.correction) + Value(elapsed);
    if sum < TWO64 && CarriesEarly(d.correction, elapsed) {
      assert Value(Add(d.correction, elapsed)) == sum + TWO16;
    }
  }

  /**
    The clock may have started over `cycles` times between the arrival of the data and the Sync's
    departure; both that and a departure before the source time reach the correction modulo 2^64.
   */
  lemma CorrectionOf(src: Source, d: MDSync, id: u16, egress: int, offset: int, at: int, cycles: int)
    requires Carries(src, d, offset, at) && Even(OfValue(egress + offset - CLOCK_PERIOD * cycles))
    ensures var f := S.MakeFollowUp(d, id, OfValue(egress + offset - CLOCK_PERIOD * cycles));
            f.correction == (egress - src.at - CLOCK_PERIOD * cycles) % TWO64 && f.correction % 2 == 0
  {
    hide Subtract, Add, ToUint64, OfValue, Value, FromPtp;
    var egressReading := OfValue(egress + offset - CLOCK_PERIOD * cycles);
    var count := egress - at - CLOCK_PERIOD * cycles;
    CountBetween(egress + offset - CLOCK_PERIOD * cycles, at + offset);
    assert egress + offset - CLOCK_PERIOD * cycles - (at + offset) == count;
    SubtractEven(egressReading, d.upstreamTxTime);
    SumOfCounts(at - src.at, count);
    EvenValue(OfValue(at - src.at + count));
    SameRemainder64(at - src.at + count);
  }

  /** Even counts add up modulo 2^96. */
  lemma SumOfCounts(x: int, y: int)
    requires Even(OfValue(x)) && Even(OfValue(y))
    ensures Add(OfValue(x), OfValue(y)) == OfValue(x + y) && Even(OfValue(x + y))
  {
    hide Add, Value, OfValue;
    AddEven(OfValue(x), OfValue(y));
    SumModulo(x, y % TWO96);
    assert x + y == y / TWO96 * TWO96 + (x + y % TWO96);
    SameRemainder96(y / TWO96, x + y % TWO96);
    ValueInjective(Add(OfValue(x), OfValue(y)), OfValue(x + y));
  }

  lemma SameRemainder96(q: int, r: int)
    ensures (q * TWO96 + r) % TWO96 == r % TWO96
  {
  }

  lemma SameRemainder64(x: int)
    ensures x % TWO96 % TWO64 == x % TWO64
    ensures x % TWO96 % 2 == 0 ==> x % TWO64 % 2 == 0
  {
    var r := x % TWO96;
    assert x == (x / TWO96 * TWO32) * TWO64 + r;
    Multiple64(x / TWO96 * TWO32, r);
    assert r == r / TWO64 * TWO64 + r % TWO64;
  }

  lemma Multiple64(q: int, r: int)
    ensures (q * TWO64 + r) % TWO64 == r % TWO64
  {
  }

  /** Clock periods add up to a multiple of 2^64 only by the 128. */
  lemma PeriodsShow(e: int, cycles: int)
    ensures (e - CLOCK_PERIOD * cycles) % TWO64 == e <==> 0 <= e < TWO64 && cycles % 128 == 0
  {
    assert CLOCK_PERIOD * 128 == 1953125 * TWO64;
    if (e - CLOCK_PERIOD * cycles) % TWO64 == e {
      var q := (e - CLOCK_PERIOD * cycles) / TWO64;
      assert -CLOCK_PERIOD * cycles == q * TWO64;
      assert 1953125 * cycles == 128 * -q;
      assert 101 * cycles == 128 * (-q - 15258 * cycles);
      assert cycles == 128 * (19 * (-q - 15258 * cycles) - 15 * cycles) + cycles * (1 - 19 * 101 + 15 * 128);
    } else if 0 <= e < TWO64 && cycles % 128 == 0 {
      assert e - CLOCK_PERIOD * cycles == -(1953125 * (cycles / 128)) * TWO64 + e;
      Multiple64(-(1953125 * (cycles / 128)), e);
    }
  }

  /** The source time was taken before the Sync left, not too long before, and in the same period of the clock. */
  predicate InTime(src: Source, egress: int, cycles: int) {
    src.at <= egress < src.at + TWO64 && cycles % 128 == 0
  }

  /**
    A Follow_Up built from given data, which may have arrived after its Sync had left, tells the
    grandmaster's time at the egress of that Sync exactly if the data is in time.
   */
  lemma FollowUpTells(src: Source, d: MDSync, id: u16, egress: int, offset: int, at: int, cycles: int)
    requires Carries(src, d, offset, at) && Even(OfValue(egress + offset - CLOCK_PERIOD * cycles))
    ensures var f := S.MakeFollowUp(d, id, OfValue(egress + offset - CLOCK_PERIOD * cycles));
            && (TellsEgress(src, f, egress) <==> InTime(src, egress, cycles))
            && (InTime(src, egress, cycles) ==> f.correction == egress - src.at)
            && f.correction % 2 == 0
  {
    hide OfValue, Value, FromPtp;
    CorrectionOf(src, d, id, egress, offset, at, cycles);
    PeriodsShow(egress - src.at, cycles);
    FollowUpOrigin(d, id, OfValue(egress + offset - CLOCK_PERIOD * cycles));
  }

  lemma FollowUpOrigin(d: MDSync, id: u16, egress: UScaledNs)
    ensures S.MakeFollowUp(d, id, egress).preciseOrigin == d.preciseOrigin
  {
  }

  /** What the receiver makes of such a Sync and Follow_Up carries on, for any offset of its own clock. */
  lemma HopCarries(src: Source, sync: SyncMsg, f: FollowUpMsg, egress: int, delay: int, offset: int)
    requires src.InEra() && TellsEgress(src, f, egress) && f.correction == egress - src.at && f.correction % 2 == 0
    requires sync.correction == 0 && Even(OfValue(egress + delay + offset)) && Even(OfValue(delay))
    ensures Carries(src, R.MakeMDSync(sync, f, OfValue(egress + delay + offset), OfValue(delay)), offset, egress)
  {
    hide Subtract, Add, FromUint64, OfValue, FromPtp, Value;
    CountBetween(egress + delay + offset, delay);
    assert egress + delay + offset - delay == egress + offset;
    SubtractEven(OfValue(egress + delay + offset), OfValue(delay));
    CountOf(f.correction);
    CountOf(0);
    EvenValue(OfValue(f.correction));
    EvenValue(OfValue(0));
    SumOfCounts(0, f.correction);
  }

  lemma CountOf(c: u64)
    ensures FromUint64(c) == OfValue(c) && Value(OfValue(c)) == c
  {
    hide FromUint64, OfValue, Value;
    SmallRemainder(c);
    ValueInjective(FromUint64(c), OfValue(c));
  }
}
