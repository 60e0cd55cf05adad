/** The timer function blocks of IEC 61131-3 (2nd ed.), section 2.5.2.3.4: on-delay, off-delay and pulse. */
module IecTimers {

  const NS_PER_SEC: int := 1_000_000_000

  datatype Time = Time(sec: int, nsec: int)

  /** The duration, or instant, in nanoseconds. */
  function Ns(t: Time): int { t.sec * NS_PER_SEC + t.nsec }

  /** A reading of the PLC clock. */
  predicate IsNow(t: Time) { 0 <= t.sec && 0 <= t.nsec < NS_PER_SEC }

  /** A TIME value: any sign, with less than a second in the second part. */
  predicate IsDuration(t: Time) { -NS_PER_SEC < t.nsec < NS_PER_SEC }

  /** __normalize_timespec, with its strict comparisons. */
  function Normalize(t: Time): (r: Time)
    ensures Ns(r) == Ns(t)
  {
    var u := if t.nsec < -NS_PER_SEC || (t.sec > 0 && t.nsec < 0) then Time(t.sec - 1, t.nsec + NS_PER_SEC) else t;
    if u.nsec > NS_PER_SEC || (u.sec < 0 && u.nsec > 0) then Time(u.sec + 1, u.nsec - NS_PER_SEC) else u
  }

  function TimeAdd(a: Time, b: Time): Time { Normalize(Time(a.sec + b.sec, a.nsec + b.nsec)) }

  function TimeSub(a: Time, b: Time): Time { Normalize(Time(a.sec - b.sec, a.nsec - b.nsec)) }

  /** __time_cmp */
  function TimeCmp(a: Time, b: Time): int { if b.sec == a.sec then a.nsec - b.nsec else a.sec - b.sec }

  predicate AtOrPast(start: Time, pt: Time, now: Time) { TimeCmp(TimeAdd(start, pt), now) <= 0 }

  /**
    Although a sum of exactly one second of nanoseconds, or a negative one, is left as it is, comparing
    it with a clock reading decides correctly whether the duration is over.
   */
  lemma ComparisonIsExact(start: Time, pt: Time, now: Time)
    requires IsNow(start) && IsNow(now) && IsDuration(pt)
    ensures AtOrPast(start, pt, now) <==> Ns(start) + Ns(pt) <= Ns(now)
  {
  }

  /** A sum of readings is in normal form exactly unless its nanoseconds make one second, which is left as it is. */
  lemma SumNormalExactly(a: Time, b: Time)
    requires IsNow(a) && IsNow(b)
    ensures IsNow(TimeAdd(a, b)) <==> a.nsec + b.nsec != 1_000_000_000
    ensures Ns(TimeAdd(a, b)) == Ns(a) + Ns(b)
  {
  }

  /** A difference of readings always is: less than a second of nanoseconds, of the sign of the seconds. */
  lemma DifferenceNormal(a: Time, b: Time)
    requires IsNow(a) && IsNow(b)
    ensures var r := TimeSub(a, b);
            && Ns(r) == Ns(a) - Ns(b) && IsDuration(r)
            && (r.sec > 0 ==> r.nsec >= 0) && (r.sec < 0 ==> r.nsec <= 0)
  {
  }

  // ---- One scan of each block ----

  /** What the block reads in a scan in which it is enabled. */
  datatype Scan = Scan(input: bool, pt: Time, now: Time)

  datatype Block = Block(state: int, prevIn: bool, q: bool, et: Time, startTime: Time)

  const INITIAL := Block(0, false, false, Time(0, 0), Time(0, 0))

  function TonScan(b: Block, s: Scan): Block {
    var r :=
      if b.state == 0 && !b.prevIn && s.input then b.(state := 1, q := false, startTime := s.now)
      else if !s.input then b.(et := Time(0, 0), q := false, state := 0)
      else if b.state == 1 then
        if AtOrPast(b.startTime, s.pt, s.now) then b.(state := 2, q := true, et := s.pt)
        else b.(et := TimeSub(s.now, b.startTime))
      else b;
    r.(prevIn := s.input)
  }

  function TofScan(b: Block, s: Scan): Block {
    var r :=
      if b.state == 0 && b.prevIn && !s.input then b.(state := 1, startTime := s.now)
      else if s.input then b.(et := Time(0, 0), state := 0)
      else if b.state == 1 then
        if AtOrPast(b.startTime, s.pt, s.now) then b.(state := 2, et := s.pt)
        else b.(et := TimeSub(s.now, b.startTime))
      else b;
    r.(q := s.input || r.state == 1, prevIn := s.input)
  }

  function TpScan(b: Block, s: Scan): Block {
    var r :=
      if b.state == 0 && !b.prevIn && s.input then b.(state := 1, q := true, startTime := s.now)
      else if b.state == 1 then
        if AtOrPast(b.startTime, s.pt, s.now) then b.(state := 2, q := false, et := s.pt)
        else b.(et := TimeSub(s.now, b.startTime))
      else b;
    (if r.state == 2 && !s.input then r.(et := Time(0, 0), state := 0) else r).(prevIn := s.input)
  }

  // ---- The blocks, updated in place ----

  class TON {
    var eno: bool
    var state: int
    var prevIn: bool
    var q: bool
    var et: Time
    var startTime: Time
    ghost var scans: seq<Scan>

    ghost function Snapshot(): Block
      reads this
    {
      Block(state, prevIn, q, et, startTime)
    }

    /** The fields are what the scans so far, those with EN on, make of the initial ones. */
    ghost predicate Valid()
      reads this
    {
      Scans(scans) && Snapshot() == TonAfter(scans)
    }

    constructor ()
      ensures Valid() && scans == [] && eno && !q && et == Time(0, 0)
    {
      scans := [];
      eno, state, prevIn, q, et, startTime := true, 0, false, false, Time(0, 0), Time(0, 0);
    }

    method Body(en: bool, input: bool, pt: Time, now: Time)
      requires Valid() && IsNow(now) && IsDuration(pt)
      modifies this
      ensures Valid() && eno == en
      ensures scans == if en then old(scans) + [Scan(input, pt, now)] else old(scans)
      ensures scans != [] ==> (q <==> OnDelay(scans)) && ShownOn(scans, et)
    {
      hide TonAfter, Scans, TimeAdd, TimeSub, TimeCmp, ShownOn, OnDelay, Since, Expiry, IsNow, IsDuration;
      eno := en;
      if !en {
        if scans != [] {
          TonIsOnDelay(scans);
        }
        return;
      }
      OneMoreScan(scans, Scan(input, pt, now));
      scans := scans + [Scan(input, pt, now)];
      TonIsOnDelay(scans);
      if state == 0 && !prevIn && input {
        state := 1;
        q := false;
        startTime := now;
      } else if !input {
        et := Time(0, 0);
        q := false;
        state := 0;
      } else if state == 1 {
        if TimeCmp(TimeAdd(startTime, pt), now) <= 0 {
          state := 2;
          q := true;
          et := pt;
        } else {
          et := TimeSub(now, startTime);
        }
      }
      prevIn := input;
    }
  }

  class TOF {
    var eno: bool
    var state: int
    var prevIn: bool
    var q: bool
    var et: Time
    var startTime: Time
    ghost var scans: seq<Scan>

    ghost function Snapshot(): Block
      reads this
    {
      Block(state, prevIn, q, et, startTime)
    }

    /** The fields are what the scans so far, those with EN on, make of the initial ones. */
    ghost predicate Valid()
      reads this
    {
      Scans(scans) && Snapshot() == TofAfter(scans)
    }

    constructor ()
      ensures Valid() && scans == [] && eno && !q && et == Time(0, 0)
    {
      scans := [];
      eno, state, prevIn, q, et, startTime := true, 0, false, false, Time(0, 0), Time(0, 0);
    }

    method Body(en: bool, input: bool, pt: Time, now: Time)
      requires Valid() && IsNow(now) && IsDuration(pt)
      modifies this
      ensures Valid() && eno == en
      ensures scans == if en then old(scans) + [Scan(input, pt, now)] else old(scans)
      ensures scans != [] ==> (q <==> OffDelay(scans)) && ShownOff(scans, et)
    {
      hide TofAfter, Scans, TimeAdd, TimeSub, TimeCmp, ShownOff, OffDelay, Since, Expiry, IsNow, IsDuration;
      eno := en;
      if !en {
        if scans != [] {
          TofIsOffDelay(scans);
        }
        return;
      }
      OneMoreScan(scans, Scan(input, pt, now));
      scans := scans + [Scan(input, pt, now)];
      TofIsOffDelay(scans);
      if state == 0 && prevIn && !input {
        state := 1;
        startTime := now;
      } else if input {
        et := Time(0, 0);
        state := 0;
      } else if state == 1 {
        if TimeCmp(TimeAdd(startTime, pt), now) <= 0 {
          state := 2;
          et := pt;
        } else {
          et := TimeSub(now, startTime);
        }
      }
      q := input || state == 1;
      prevIn := input;
    }
  }

  class TP {
    var eno: bool
    var state: int
    var prevIn: bool
    var q: bool
    var et: Time
    var startTime: Time
    ghost var scans: seq<Scan>

    ghost function Snapshot(): Block
      reads this
    {
      Block(state, prevIn, q, et, startTime)
    }

    /** The fields are what the scans so far, those with EN on, make of the initial ones. */
    ghost predicate Valid()
      reads this
    {
      Scans(scans) && Snapshot() == TpAfter(scans)
    }

    constructor ()
      ensures Valid() && scans == [] && eno && !q && et == Time(0, 0)
    {
      scans := [];
      eno, state, prevIn, q, et, startTime := true, 0, false, false, Time(0, 0), Time(0, 0);
    }

    method Body(en: bool, input: bool, pt: Time, now: Time)
      requires Valid() && IsNow(now) && IsDuration(pt)
      modifies this
      ensures Valid() && eno == en
      ensures scans == if en then old(scans) + [Scan(input, pt, now)] else old(scans)
      ensures scans != [] ==> (q <==> PulseAfter(scans).Begun?)
      ensures PulseAfter(scans).Begun? ==> IsTimeBetween(scans[PulseAfter(scans).scan].now, Last(scans).now, et)
      ensures scans != [] && PulseAfter(scans).NoPulse? ==> ShownAfterPulse(scans, et)
    {
      hide TpAfter, Scans, TimeAdd, TimeSub, TimeCmp, PulseAfter, ShownAfterPulse, IsTimeBetween, IsNow, IsDuration;
      eno := en;
      if !en {
        if scans != [] {
          TpIsPulse(scans);
        }
        return;
      }
      OneMoreScan(scans, Scan(input, pt, now));
      scans := scans + [Scan(input, pt, now)];
      TpIsPulse(scans);
      if state == 0 && !prevIn && input {
        state := 1;
        q := true;
        startTime := now;
      } else if state == 1 {
        if TimeCmp(TimeAdd(startTime, pt), now) <= 0 {
          state := 2;
          q := false;
          et := pt;
        } else {
          et := TimeSub(now, startTime);
        }
      }
      if state == 2 && !input {
        et := Time(0, 0);
        state := 0;
      }
      prevIn := input;
    }
  }

  // ---- Whole scan sequences ----

  predicate Scans(scans: seq<Scan>) {
    forall k :: 0 <= k < |scans| ==> IsNow(scans[k].now) && IsDuration(scans[k].pt)
  }

  function Last(scans: seq<Scan>): Scan
    requires scans != []
  {
    scans[|scans| - 1]
  }

  function TonAfter(scans: seq<Scan>): Block {
    if scans == [] then INITIAL else TonScan(TonAfter(scans[..|scans| - 1]), Last(scans))
  }

  function TofAfter(scans: seq<Scan>): Block {
    if scans == [] then INITIAL else TofScan(TofAfter(scans[..|scans| - 1]), Last(scans))
  }

  function TpAfter(scans: seq<Scan>): Block {
    if scans == [] then INITIAL else TpScan(TpAfter(scans[..|scans| - 1]), Last(scans))
  }

  lemma OneMoreScan(scans: seq<Scan>, x: Scan)
    requires Scans(scans) && IsNow(x.now) && IsDuration(x.pt)
    ensures Scans(scans + [x])
    ensures TonAfter(scans + [x]) == TonScan(TonAfter(scans), x)
    ensures TofAfter(scans + [x]) == TofScan(TofAfter(scans), x)
    ensures TpAfter(scans + [x]) == TpScan(TpAfter(scans), x)
  {
    hide TonScan, TofScan, TpScan, IsNow, IsDuration;
    assert (scans + [x])[..|scans|] == scans;
  }

  /** The scan since which the input has had the value it has at the last scan. */
  function Since(scans: seq<Scan>): (j: int)
    requires scans != []
    ensures 0 <= j < |scans|
    ensures forall i :: j <= i < |scans| ==> scans[i].input == Last(scans).input
    ensures j > 0 ==> scans[j - 1].input != Last(scans).input
  {
    var k := |scans| - 1;
    if k == 0 || scans[k - 1].input != scans[k].input then k else Since(scans[..k])
  }

  /** At scan i the time that is PT there has passed since scan j. */
  predicate Over(scans: seq<Scan>, j: int, i: int)
    requires 0 <= j < |scans| && 0 <= i < |scans|
  {
    Ns(scans[j].now) + Ns(scans[i].pt) <= Ns(scans[i].now)
  }

  /** The first scan, after the input took its value, at which PT is over; |scans| if there is none. */
  function Expiry(scans: seq<Scan>): (e: int)
    requires scans != []
    ensures Since(scans) < e <= |scans|
    ensures forall i :: Since(scans) < i < e ==> !Over(scans, Since(scans), i)
    ensures e < |scans| ==> Over(scans, Since(scans), e)
  {
    hide Over;
    var k := |scans| - 1;
    if Since(scans) == k then |scans|
    else
      var e := Expiry(scans[..k]);
      OverInPrefix(scans, Since(scans));
      if e < k then e else if Over(scans, Since(scans), k) then k else |scans|
  }

  lemma OverInPrefix(scans: seq<Scan>, j: int)
    requires 0 <= j < |scans| - 1
    ensures forall i :: 0 <= i < |scans| - 1 ==> Over(scans[..|scans| - 1], j, i) == Over(scans, j, i)
  {
  }

  /** The time from one reading to another, in normal form unless the clock went back. */
  predicate IsTimeBetween(start: Time, now: Time, et: Time) {
    Ns(et) == Ns(now) - Ns(start) && (Ns(now) >= Ns(start) ==> IsNow(et))
  }

  lemma SubtractionIsTime(start: Time, now: Time)
    requires IsNow(start) && IsNow(now)
    ensures IsTimeBetween(start, now, TimeSub(now, start))
  {
  }

  lemma NoTimeBetween(now: Time)
    ensures IsTimeBetween(now, now, Time(0, 0))
  {
  }

  /** What a timer shows since the input changed: nothing, the time passed, and PT once that is over. */
  predicate Shown(scans: seq<Scan>, et: Time)
    requires scans != []
  {
    var start := Since(scans);
    if Expiry(scans) < |scans| then et == scans[Expiry(scans)].pt
    else if start == |scans| - 1 then et == Time(0, 0)
    else IsTimeBetween(scans[start].now, Last(scans).now, et)
  }

  predicate ShownOn(scans: seq<Scan>, et: Time)
    requires scans != []
  {
    if Last(scans).input then Shown(scans, et) else et == Time(0, 0)
  }

  predicate ShownOff(scans: seq<Scan>, et: Time)
    requires scans != []
  {
    if !Last(scans).input && Since(scans) > 0 then Shown(scans, et) else et == Time(0, 0)
  }

  /** On-delay: the input has been on since an earlier scan, and since then PT has been over at one. */
  predicate OnDelay(scans: seq<Scan>)
    requires scans != []
  {
    Last(scans).input && Expiry(scans) < |scans|
  }

  lemma {:induction false} TonIsOnDelay(scans: seq<Scan>)
    requires scans != [] && Scans(scans)
    ensures var b := TonAfter(scans);
            && (b.q <==> OnDelay(scans))
            && b.prevIn == Last(scans).input
            && b.state == (if !b.prevIn then 0 else if b.q then 2 else 1)
            && (b.prevIn ==> b.startTime == scans[Since(scans)].now)
            && ShownOn(scans, b.et)
  {
    hide TimeAdd, TimeSub, TimeCmp, AtOrPast, IsNow, IsDuration;
    var k := |scans| - 1;
    if k > 0 {
      TonIsOnDelay(scans[..k]);
      ComparisonIsExact(scans[Since(scans[..k])].now, scans[k].pt, scans[k].now);
      SubtractionIsTime(scans[Since(scans[..k])].now, scans[k].now);
    }
  }

  /** Off-delay: the input is on, or it was and since it went off PT has not been over at a later scan. */
  predicate OffDelay(scans: seq<Scan>)
    requires scans != []
  {
    Last(scans).input || (Since(scans) > 0 && Expiry(scans) == |scans|)
  }

  lemma {:induction false} TofIsOffDelay(scans: seq<Scan>)
    requires scans != [] && Scans(scans)
    ensures var b := TofAfter(scans);
            && (b.q <==> OffDelay(scans))
            && b.prevIn == Last(scans).input
            && (b.prevIn ==> b.state == 0)
            && (!b.prevIn ==> b.state == if b.q then 1 else if Since(scans) == 0 then 0 else 2)
            && (!b.prevIn && Since(scans) > 0 ==> b.startTime == scans[Since(scans)].now)
            && ShownOff(scans, b.et)
  {
    hide TimeAdd, TimeSub, TimeCmp, AtOrPast, IsNow, IsDuration;
    var k := |scans| - 1;
    if k > 0 {
      TofIsOffDelay(scans[..k]);
      ComparisonIsExact(scans[Since(scans[..k])].now, scans[k].pt, scans[k].now);
      SubtractionIsTime(scans[Since(scans[..k])].now, scans[k].now);
    }
  }

  // ---- The pulse ----

  predicate Rises(scans: seq<Scan>, k: int)
    requires 0 <= k < |scans|
  {
    scans[k].input && (k == 0 || !scans[k - 1].input)
  }

  datatype Pulse = NoPulse | Begun(scan: int)

  /**
    The pulse in progress after the last scan, by the scan it began with: the input rises while there
    is none, and it lasts until the first later scan at which PT is over, whatever the input does meanwhile.
   */
  function PulseAfter(scans: seq<Scan>): (p: Pulse)
    ensures p.Begun? ==> 0 <= p.scan < |scans|
  {
    if scans == [] then NoPulse
    else
      var k := |scans| - 1;
      match PulseAfter(scans[..k])
      case NoPulse => if Rises(scans, k) then Begun(k) else NoPulse
      case Begun(j) => if Over(scans, j, k) then NoPulse else Begun(j)
  }

  /** The scan the last pulse ended at, -1 if there was none. */
  function PulseEnd(scans: seq<Scan>): (e: int)
    requires PulseAfter(scans).NoPulse?
    ensures -1 <= e < |scans|
  {
    var k := |scans| - 1;
    if scans == [] then -1 else if PulseAfter(scans[..k]).Begun? then k else PulseEnd(scans[..k])
  }

  /** Outside a pulse ET is zero, or the PT it ended with while the input has stayed on since. */
  predicate ShownAfterPulse(scans: seq<Scan>, et: Time)
    requires scans != [] && PulseAfter(scans).NoPulse?
  {
    if Last(scans).input then PulseEnd(scans) >= 0 && et == scans[PulseEnd(scans)].pt else et == Time(0, 0)
  }

  lemma {:induction false} TpIsPulse(scans: seq<Scan>)
    requires scans != [] && Scans(scans)
    ensures var b, p := TpAfter(scans), PulseAfter(scans);
            && (b.q <==> p.Begun?)
            && b.prevIn == Last(scans).input
            && b.state == (if p.Begun? then 1 else if b.prevIn then 2 else 0)
            && (p.Begun? ==> b.startTime == scans[p.scan].now)
            && (p.Begun? ==> IsTimeBetween(scans[p.scan].now, Last(scans).now, b.et))
            && (p.NoPulse? ==> ShownAfterPulse(scans, b.et))
  {
    hide TimeAdd, TimeSub, TimeCmp, AtOrPast, IsNow, IsDuration;
    var k := |scans| - 1;
    NoTimeBetween(scans[k].now);
    if k > 0 {
      TpIsPulse(scans[..k]);
      match PulseAfter(scans[..k])
      case Begun(j) =>
        ComparisonIsExact(scans[j].now, scans[k].pt, scans[k].now);
        SubtractionIsTime(scans[j].now, scans[k].now);
      case NoPulse =>
    }
  }

  /** A pulse begun at scan j is still on at every later scan before PT is over, and off at the first one it is. */
  lemma {:induction false} PulseLasts(scans: seq<Scan>, j: int, k: int)
    requires 0 <= j < k < |scans| && Scans(scans)
    requires PulseAfter(scans[..j + 1]) == Begun(j)
    requires forall i :: j < i < k ==> !Over(scans, j, i)
    ensures TpAfter(scans[..k + 1]).q <==> !Over(scans, j, k)
    ensures !Over(scans, j, k) ==> PulseAfter(scans[..k + 1]) == Begun(j)
  {
    hide TpAfter, Ns, IsNow, IsDuration;
    if k > j + 1 {
      PulseLasts(scans, j, k - 1);
    }
    assert scans[..k + 1][..k] == scans[..k];
    assert PulseAfter(scans[..k]) == Begun(j);
    hide Scans;
    PrefixScans(scans, k + 1);
    TpIsPulse(scans[..k + 1]);
  }

  lemma PrefixScans(scans: seq<Scan>, n: nat)
    requires Scans(scans) && n <= |scans|
    ensures Scans(scans[..n])
  {
  }
}
