/** What computePropTime makes of the four timestamps of one exchange. */
module PdelayAccuracy {
  import opened Words
  import opened ScaledTime
  import opened PtpMessages
  import opened PdelayEpoch
  import opened PdelayProtocol
  import Q = PdelayRequester
  import R = PdelayRequesterRuns

  /**
    One exchange in true time, in whole ns as the timestamping units see it: the requester's clock
    has counted `depart` when the request leaves, the frames take `d1` and `d2`, the responder waits
    `wait`, and its clock, which runs at the same rate, is `offset` ahead.
   */
  datatype Exchange = Exchange(depart: int, d1: nat, wait: nat, d2: nat, offset: int)
  {
    function RoundTrip(): nat { d1 + wait + d2 }

    function Readings(): Q.Stamps {
      Q.Stamps(Stamp(depart), Stamp(depart + d1 + offset),
               Stamp(depart + d1 + wait + offset), Stamp(depart + d1 + wait + d2))
    }

    /** Neither clock starts over between its own two timestamps. */
    predicate NoWrap() {
      && depart % CLOCK_PERIOD_NS + RoundTrip() < CLOCK_PERIOD_NS
      && (depart + d1 + offset) % CLOCK_PERIOD_NS + wait < CLOCK_PERIOD_NS
    }
  }

  /** What a timestamping unit records at a count of n ns: whole ns, and 32 bits of seconds. */
  function Stamp(n: int): (t: Reading)
    ensures Value(t) == n % CLOCK_PERIOD_NS * TWO16
  {
    UScaledNs(0, n % CLOCK_PERIOD_NS, 0)
  }

  /** A duration in ns. */
  function Ns(n: u64): (t: UScaledNs)
    ensures Value(t) == n * TWO16
  {
    UScaledNs(0, n, 0)
  }

  /**
    The difference of two stamps is the time between them unless the clock starts over; then the
    later one is the smaller, and the difference is all but a 2^18th of the whole 96-bit range.
   */
  lemma StampsApart(n: int, d: nat)
    requires d < CLOCK_PERIOD_NS
    ensures var a, b := Stamp(n), Stamp(n + d);
            if n % CLOCK_PERIOD_NS + d < CLOCK_PERIOD_NS then Compare(b, a) >= 0 && Subtract(b, a) == Ns(d)
            else Compare(b, a) < 0 && Value(Subtract(b, a)) >= TWO96 - CLOCK_PERIOD_NS * TWO16
  {
    hide Value, Subtract, Compare, Stamp, Ns;
    SumModuloPeriod(n, d);
    if n % CLOCK_PERIOD_NS + d < CLOCK_PERIOD_NS {
      ValueInjective(Subtract(Stamp(n + d), Stamp(n)), Ns(d));
    }
  }

  lemma SumModuloPeriod(x: int, d: nat)
    requires d < CLOCK_PERIOD_NS
    ensures var r := x % CLOCK_PERIOD_NS;
            (x + d) % CLOCK_PERIOD_NS == if r + d < CLOCK_PERIOD_NS then r + d else r + d - CLOCK_PERIOD_NS
  {
  }

  /** Multiplying by 1.0 loses at least 2^47 units unless the duration is below 2^32 ns. */
  lemma ScaledByOne(t: UScaledNs)
    ensures t.nsec < TWO32 ==> Multiply(t, RATIO_ONE) == t
    ensures t.nsec >= TWO32 ==> Value(Multiply(t, RATIO_ONE)) + 0x8000_0000_0000 <= Value(t)
  {
    hide Multiply;
    MultiplyByOne(t);
    var q, r := t.nsec / TWO32, t.nsec % TWO32;
    assert t.nsec == q * TWO32 + r;
    if t.nsec >= TWO32 {
      assert q >= 1;
      assert Value(t) - Value(Multiply(t, RATIO_ONE)) == q * (TWO32 - TWO16) * TWO16;
    }
  }

  /** A scaled round trip of 80 bits is less than a residence time that went through zero. */
  lemma ScaledIsShort(n: u64)
    ensures Value(Multiply(Ns(n), RATIO_ONE)) < TWO80
  {
    hide Multiply;
    MultiplyByOne(Ns(n));
  }

  lemma HalfOfRest(roundTrip: UScaledNs, wait: nat, both: nat)
    requires Value(roundTrip) >= wait * TWO16 && wait < CLOCK_PERIOD_NS && both < CLOCK_PERIOD_NS
    ensures DivideBy2(Subtract(roundTrip, Ns(wait))) == OfValue(both * 0x8000)
            <==> (Value(roundTrip) - wait * TWO16) / 2 == both * 0x8000
  {
    hide DivideBy2, Subtract, OfValue;
    SmallRemainder(both * 0x8000);
    ValueInjective(DivideBy2(Subtract(roundTrip, Ns(wait))), OfValue(both * 0x8000));
  }

  lemma MessageKeepsStamp(n: int)
    ensures OnWire(Stamp(n)) == Stamp(n)
  {
    hide FromPtp, ToPtp;
    PtpRoundTrip(Stamp(n));
  }

  /**
    computePropTime for any four timestamps and any rate ratio below 2^16: the process ends if t4 is
    before t1, or the scaled round trip shorter than the residence; otherwise the result is half of
    what is left of it. The residence is taken modulo 2^96, and the product must be below 2^32 ns.
   */
  lemma PropTimeIs(s: Q.Stamps, ratio: UScaledNs)
    requires Value(ratio) < TWO32
    ensures var scaled := (Value(s.t4) - Value(s.t1)) * Value(ratio) / TWO16;
            var residence := (Value(s.t3) - Value(s.t2)) % TWO96;
            scaled < TWO48 ==>
              Q.ComputePropTime(s, ratio) ==
              if Value(s.t4) < Value(s.t1) || scaled < residence then Q.FatalExit
              else Q.Delay(OfValue((scaled - residence) / 2))
  {
    hide Multiply, Subtract, OfValue, Value, Compare, DivideBy2;
    SubtractModulo(s.t3, s.t2);
    if Value(s.t4) >= Value(s.t1) {
      var scaled := Value(Subtract(s.t4, s.t1)) * Value(ratio) / TWO16;
      if scaled < TWO48 {
        MultiplyByRatio(Subtract(s.t4, s.t1), ratio);
        NotNegative(Value(Subtract(s.t4, s.t1)), Value(ratio));
        SmallProduct(scaled);
        var roundTrip, residence := OfValue(scaled), Subtract(s.t3, s.t2);
        if scaled >= Value(residence) {
          SmallRemainder((scaled - Value(residence)) / 2);
          ValueInjective(DivideBy2(Subtract(roundTrip, residence)), OfValue((scaled - Value(residence)) / 2));
        }
      }
    }
  }

  lemma SubtractModulo(a: UScaledNs, b: UScaledNs)
    ensures Value(Subtract(a, b)) == (Value(a) - Value(b)) % TWO96
  {
    hide Subtract, Value;
    var d := Value(a) - Value(b);
    if d >= 0 {
      SmallRemainder(d);
    } else {
      SmallRemainder(d + TWO96);
      assert d == -1 * TWO96 + (d + TWO96);
    }
  }

  lemma NotNegative(x: nat, y: nat)
    ensures x * y / TWO16 >= 0
  {
    assert x * y >= 0;
  }

  lemma SmallProduct(x: int)
    requires 0 <= x < TWO48
    ensures Value(OfValue(x)) == x && OfValue(x).nsec < TWO32
  {
  }

  function Computed(x: Exchange): Q.PropTime {
    var s := x.Readings();
    Q.ComputePropTime(Q.Stamps(s.t1, OnWire(s.t2), OnWire(s.t3), s.t4), RATIO_ONE)
  }

  /** Half the sum of the true delays, to the half ns. */
  function MeanDelay(x: Exchange): UScaledNs { OfValue((x.d1 + x.d2) * 0x8000) }

  /**
    With equal-rate clocks of any offset the computed link delay is the mean of the two true delays
    exactly when neither clock starts over during the exchange and the round trip is below 2^32 ns;
    below that, the process ends exactly when one of the clocks does.
   */
  lemma PropTimeExact(x: Exchange)
    requires x.RoundTrip() < CLOCK_PERIOD_NS
    ensures Computed(x) == Q.Delay(MeanDelay(x)) <==> x.NoWrap() && x.RoundTrip() < TWO32
    ensures x.RoundTrip() < TWO32 ==> (Computed(x) == Q.FatalExit <==> !x.NoWrap())
  {
    hide Multiply, OfValue, OnWire, Value, Subtract, DivideBy2, Stamp, Ns;
    MessageKeepsStamp(x.depart + x.d1 + x.offset);
    MessageKeepsStamp(x.depart + x.d1 + x.wait + x.offset);
    StampsApart(x.depart, x.RoundTrip());
    StampsApart(x.depart + x.d1 + x.offset, x.wait);
    SameInstants(x);
    if x.depart % CLOCK_PERIOD_NS + x.RoundTrip() < CLOCK_PERIOD_NS {
      var scaled := Multiply(Ns(x.RoundTrip()), RATIO_ONE);
      ScaledIsShort(x.RoundTrip());
      ScaledByOne(Ns(x.RoundTrip()));
      NsOfNs(x.RoundTrip());
      if x.NoWrap() && Value(scaled) >= x.wait * TWO16 {
        HalfOfRest(scaled, x.wait, x.d1 + x.d2);
      }
    }
  }

  lemma SameInstants(x: Exchange)
    ensures x.depart + x.RoundTrip() == x.depart + x.d1 + x.wait + x.d2
    ensures x.depart + x.d1 + x.offset + x.wait == x.depart + x.d1 + x.wait + x.offset
  {
  }

  lemma NsOfNs(n: u64)
    ensures Ns(n).nsec == n
  {
  }

  /** Every exchange of an epoch as it really went, for two clocks of equal rate. */
  predicate Happened(physics: Physics, exchanges: u16 -> Exchange) {
    forall id: u16 :: physics(id) == exchanges(id).Readings() && exchanges(id).RoundTrip() < TWO32
  }

  /**
    Over every run of the two nodes with loss on both links: a link delay measured with ratio 1.0 is
    the mean of that exchange's own true delays, whatever the clocks' offset.
   */
  lemma MeasuredDelayIsTrue(e: Epoch, physics: Physics, exchanges: u16 -> Exchange, s: System, steps: seq<Step>, k: nat)
    requires Start(e, physics, s) && Possible(e, physics, s, steps) && Happened(physics, exchanges)
    requires var r := After(e, physics, s, steps);
             && Count(e, r.a) <= TWO16 && e.measured0 <= k < |r.a.log.measured|
             && r.a.log.measured[k].ratio == RATIO_ONE
    ensures var m := After(e, physics, s, steps).a.log.measured[k]; m.delay == MeanDelay(exchanges(m.id))
  {
    hide Start, Possible, After, Q.ComputePropTime, MeanDelay, OnWire;
    PeerDelaySafety(e, physics, s, steps);
    var m := After(e, physics, s, steps).a.log.measured[k];
    var x := exchanges(m.id);
    assert m.stamps == Expected(physics, m.id) && R.Computed(m);
    assert physics(m.id) == x.Readings() && x.RoundTrip() < TWO32;
    PropTimeExact(x);
  }

  /** Such a requester ends the process only when one of the two clocks started over during an exchange. */
  lemma FatalOnlyOnWrap(e: Epoch, physics: Physics, exchanges: u16 -> Exchange, s: System, steps: seq<Step>)
    requires Start(e, physics, s) && Possible(e, physics, s, steps) && Happened(physics, exchanges)
    requires var r := After(e, physics, s, steps);
             Count(e, r.a) <= TWO16 && r.a.report.exited && r.a.report.neighborRateRatio == RATIO_ONE
    ensures !exchanges(After(e, physics, s, steps).a.request.txSequenceId).NoWrap()
  {
    hide Start, Possible, After, Q.ComputePropTime, MeanDelay, OnWire;
    PeerDelaySafety(e, physics, s, steps);
    var r := After(e, physics, s, steps).a;
    var x := exchanges(r.request.txSequenceId);
    assert physics(r.request.txSequenceId) == x.Readings() && x.RoundTrip() < TWO32;
    PropTimeExact(x);
  }
}
