/** What the compiled gate control list does at each instant, against the schedule it came from. */
module GateSchedule {
  import opened GateControl

  predicate Contains(w: Window, t: int) { w.lo <= t < w.hi }

  predicate Covered(ws: seq<Window>, t: int) {
    exists k :: 0 <= k < |ws| && Contains(ws[k], t)
  }

  // ---- Unrolling keeps the meaning of a flow ----

  lemma RemainderUnique(a: int, q: int, r: int, p: int)
    requires 0 < p && a == q * p + r && 0 <= r < p
    ensures a % p == r && a / p == q
  {
    var d := a / p - q;
    assert d * p == r - a % p;
    OnlyZeroBetween(d, p, r - a % p);
  }

  lemma OnlyZeroBetween(d: int, p: int, x: int)
    requires 0 < p && d * p == x && -p < x < p
    ensures d == 0
  {
  }

  /** Two numbers a multiple of p apart have the same remainder. */
  lemma SameRemainder(a: int, b: int, p: int)
    requires 0 < p && (a - b) % p == 0
    ensures a % p == b % p
  {
    var k := (a - b) / p;
    assert a == (k + b / p) * p + b % p by {
      assert a - b == k * p && b == b / p * p + b % p;
      assert (k + b / p) * p == k * p + b / p * p;
    }
    RemainderUnique(a, k + b / p, b % p, p);
  }

  lemma SumOfMultiples(a: int, b: int, p: int)
    requires 0 < p && a % p == 0 && b % p == 0
    ensures (a + b) % p == 0 && (a - b) % p == 0
  {
    assert a == a / p * p && b == b / p * p;
    assert (a / p + b / p) * p == a / p * p + b / p * p;
    assert (a / p - b / p) * p == a / p * p - b / p * p;
    RemainderUnique(a + b, a / p + b / p, 0, p);
    RemainderUnique(a - b, a / p - b / p, 0, p);
  }

  lemma {:induction false} InstanceIsUnrolled(item: Item, x: int, y: int, w: Window)
    requires item.period > 0 && x <= y < MAX_PERIOD && (y - x) % item.period == 0 && w in WindowsAt(item, y)
    ensures w in Unrolled(item, x)
    decreases y - x
  {
    hide WindowsAt;
    if x < y {
      var p := item.period;
      assert p % p == 0 by { RemainderUnique(p, 1, 0, p); }
      SumOfMultiples(y - x, p, p);
      AtLeastOnePeriod(y - x, p);
      InstanceIsUnrolled(item, x + p, y, w);
    }
  }

  lemma AtLeastOnePeriod(d: int, p: int)
    requires 0 < p && 0 < d && d % p == 0
    ensures d >= p
  {
    if d < p {
      RemainderUnique(d, 0, d, p);
    }
  }

  lemma {:induction false} UnrolledHasInstance(item: Item, x: int, w: Window) returns (y: int)
    requires item.period > 0 && w in Unrolled(item, x)
    ensures x <= y < MAX_PERIOD && (y - x) % item.period == 0 && w in WindowsAt(item, y)
    decreases MAX_PERIOD - x
  {
    hide WindowsAt;
    if w in WindowsAt(item, x) {
      y := x;
    } else {
      var p := item.period;
      y := UnrolledHasInstance(item, x + p, w);
      assert p % p == 0 by { RemainderUnique(p, 1, 0, p); }
      SumOfMultiples(y - (x + p), p, p);
    }
  }

  /** From instants to windows: the instance the instant belongs to, possibly begun in the period before. */
  lemma FlowHasWindow(item: Item, t: int) returns (w: Window)
    requires WellFormed(item) && 0 <= t < MAX_PERIOD && InFlow(item, t)
    ensures w in Unrolled(item, 0) && Contains(w, t)
  {
    var p := item.period;
    var r := (t - item.start) % p;
    var q := (t - item.start) / p;
    var y := q * p;
    assert t - item.start == y + r;
    RemainderUnique(y, q, 0, p);
    if y >= 0 {
      w := if y + item.end > MAX_PERIOD then Window(y + item.start, MAX_PERIOD) else Window(y + item.start, y + item.end);
      InstanceIsUnrolled(item, 0, y, w);
    } else {
      SumOfMultiples(0, y, p);
      AtLeastOnePeriod(-y, p);
      var last := MAX_PERIOD - p;
      assert p % p == 0 by { RemainderUnique(p, 1, 0, p); }
      SumOfMultiples(MAX_PERIOD, p, p);
      AtLeastOnePeriod(MAX_PERIOD, p);
      if -y > p {
        SumOfMultiples(-y, p, p);
        AtLeastOnePeriod(-y - p, p);
      }
      w := Window(0, last + item.end - MAX_PERIOD);
      InstanceIsUnrolled(item, 0, last, w);
    }
  }

  lemma WindowInFlow(item: Item, t: int, w: Window)
    requires WellFormed(item) && 0 <= t < MAX_PERIOD && w in Unrolled(item, 0) && Contains(w, t)
    ensures InFlow(item, t)
  {
    var p := item.period;
    var y := UnrolledHasInstance(item, 0, w);
    var d := if w.lo == y + item.start && t >= y + item.start then t - item.start - y else t + MAX_PERIOD - y - item.start;
    SumOfMultiples(MAX_PERIOD, y, p);
    AtLeastOnePeriod(MAX_PERIOD - y, p);
    if d == t - item.start - y {
      SumOfMultiples(0, y, p);
    }
    SameRemainder(d, t - item.start, p);
    RemainderUnique(d, 0, d, p);
  }

  lemma {:induction false} WindowsOfItems(items: seq<Item>, w: Window)
    requires AllWellFormed(items)
    ensures w in AllWindows(items) <==> exists k :: 0 <= k < |items| && w in Unrolled(items[k], 0)
  {
    hide Unrolled;
    if items != [] {
      var before := items[..|items| - 1];
      WindowsOfItems(before, w);
      assert forall k :: 0 <= k < |before| ==> before[k] == items[k];
    }
  }

  /** The unrolled windows cover exactly the scheduled instants. */
  lemma CoverageIsSchedule(items: seq<Item>, t: int)
    requires AllWellFormed(items) && 0 <= t < MAX_PERIOD
    ensures Covered(AllWindows(items), t) <==> Scheduled(items, t)
  {
    hide Unrolled, AllWindows, InFlow;
    var ws := AllWindows(items);
    if Scheduled(items, t) {
      var k :| 0 <= k < |items| && InFlow(items[k], t);
      var w := FlowHasWindow(items[k], t);
      WindowsOfItems(items, w);
      var j :| 0 <= j < |ws| && ws[j] == w;
    }
    if Covered(ws, t) {
      var j :| 0 <= j < |ws| && Contains(ws[j], t);
      WindowsOfItems(items, ws[j]);
      var k :| 0 <= k < |items| && ws[j] in Unrolled(items[k], 0);
      WindowInFlow(items[k], t, ws[j]);
    }
  }

  // ---- Cut points and slots ----

  lemma {:induction false} EndsAre(ws: seq<Window>, y: int)
    ensures y in Ends(ws) <==> exists k :: 0 <= k < |ws| && (ws[k].lo == y || ws[k].hi == y)
  {
    if ws != [] {
      var before, last := ws[..|ws| - 1], ws[|ws| - 1];
      EndsAre(before, y);
      assert y in Ends(ws) <==> y in Ends(before) || y in [last.lo, last.hi];
      assert forall k :: 0 <= k < |before| ==> before[k] == ws[k];
    }
  }

  lemma {:induction false} StartsAre(ws: seq<Window>, y: int)
    ensures y in Starts(ws) <==> exists k :: 0 <= k < |ws| && ws[k].lo == y
  {
    if ws != [] {
      var before, last := ws[..|ws| - 1], ws[|ws| - 1];
      StartsAre(before, y);
      assert y in Starts(ws) <==> y in Starts(before) || y in [last.lo];
      assert forall k :: 0 <= k < |before| ==> before[k] == ws[k];
    }
  }

  predicate InHyperperiod(ws: seq<Window>) {
    forall k :: 0 <= k < |ws| ==> 0 <= ws[k].lo < ws[k].hi <= MAX_PERIOD
  }

  lemma WindowsInHyperperiod(items: seq<Item>)
    requires AllWellFormed(items)
    ensures InHyperperiod(AllWindows(items))
  {
    hide AllWindows, Unrolled;
    var ws := AllWindows(items);
    forall j | 0 <= j < |ws| ensures 0 <= ws[j].lo < ws[j].hi <= MAX_PERIOD {
      WindowsOfItems(items, ws[j]);
      var k :| 0 <= k < |items| && ws[j] in Unrolled(items[k], 0);
      var p := items[k].period;
      var y := UnrolledHasInstance(items[k], 0, ws[j]);
      SumOfMultiples(MAX_PERIOD, y, p);
      AtLeastOnePeriod(MAX_PERIOD - y, p);
    }
  }

  lemma CutPointsAre(ws: seq<Window>, y: int)
    ensures y in CutPoints(ws) <==> y == 0 || y == MAX_PERIOD || y in Ends(ws)
  {
    assert y in [0, MAX_PERIOD] + Ends(ws) <==> y in [0, MAX_PERIOD] || y in Ends(ws);
  }

  /** The cut points run from 0 to the end of the hyperperiod. */
  lemma CutPointsSpan(ws: seq<Window>)
    requires InHyperperiod(ws)
    ensures var p := CutPoints(ws); |p| >= 2 && p[0] == 0 && p[|p| - 1] == MAX_PERIOD
  {
    hide CutPoints;
    var p := CutPoints(ws);
    CutPointsAre(ws, 0);
    CutPointsAre(ws, MAX_PERIOD);
    forall k | 0 <= k < |p| ensures 0 <= p[k] <= MAX_PERIOD {
      CutPointsAre(ws, p[k]);
      EndsAre(ws, p[k]);
    }
    var a :| 0 <= a < |p| && p[a] == 0;
    var b :| 0 <= b < |p| && p[b] == MAX_PERIOD;
  }

  predicate InSlot(p: seq<int>, i: int, t: int) { 0 <= i && i + 1 < |p| && p[i] <= t < p[i + 1] }

  /** No window begins or ends inside a slot: it holds all of it or nothing. */
  lemma SlotIsUniform(ws: seq<Window>, i: int, t: int, k: int)
    requires InSlot(CutPoints(ws), i, t) && 0 <= k < |ws|
    ensures Contains(ws[k], t) <==> Contains(ws[k], CutPoints(ws)[i])
  {
    hide CutPoints;
    var p := CutPoints(ws);
    CutPointsAre(ws, ws[k].lo);
    CutPointsAre(ws, ws[k].hi);
    EndsAre(ws, ws[k].lo);
    EndsAre(ws, ws[k].hi);
    var a :| 0 <= a < |p| && p[a] == ws[k].lo;
    var b :| 0 <= b < |p| && p[b] == ws[k].hi;
    assert a <= i || i + 1 <= a;
    assert b <= i || i + 1 <= b;
  }

  lemma SlotCoverage(ws: seq<Window>, i: int, t: int)
    requires InSlot(CutPoints(ws), i, t)
    ensures Covered(ws, t) <==> Covered(ws, CutPoints(ws)[i])
  {
    hide CutPoints, Contains;
    var p := CutPoints(ws)[i];
    if Covered(ws, t) {
      var k :| 0 <= k < |ws| && Contains(ws[k], t);
      SlotIsUniform(ws, i, t, k);
    }
    if Covered(ws, p) {
      var k :| 0 <= k < |ws| && Contains(ws[k], p);
      SlotIsUniform(ws, i, t, k);
    }
  }

  // ---- The compiled table, read the way the hardware does ----

  function SumTo(intervals: seq<int>, k: nat): int
    requires k <= |intervals|
  {
    if k == 0 then 0 else SumTo(intervals, k - 1) + intervals[k - 1]
  }

  /** Slot i is the active one at time t; intervals count eighths of a time unit. */
  predicate Active(intervals: seq<int>, i: int, t: int) {
    0 <= i < |intervals| && SumTo(intervals, i) <= 8 * t < SumTo(intervals, i + 1)
  }

  lemma {:induction false} SlotsBegin(p: seq<int>, starts: seq<int>, k: nat)
    requires |p| <= GCL_SIZE + 1 && k <= GCL_SIZE && p != [] && p[0] == 0
    ensures SumTo(Labelled(p, starts).intervals, k) == 8 * (if k < |p| then p[k] else p[|p| - 1])
  {
    if k > 0 {
      SlotsBegin(p, starts, k - 1);
    }
  }

  lemma ActiveIsSlot(p: seq<int>, starts: seq<int>, i: int, t: int)
    requires |p| <= GCL_SIZE + 1 && p != [] && p[0] == 0
    ensures Active(Labelled(p, starts).intervals, i, t) <==> InSlot(p, i, t)
  {
    if 0 <= i < GCL_SIZE {
      SlotsBegin(p, starts, i);
      SlotsBegin(p, starts, i + 1);
    }
  }

  /** The hyperperiod is filled: the intervals add up to it. */
  lemma IntervalsFillPeriod(items: seq<Item>)
    requires AllWellFormed(items) && Compile(items).Table?
    ensures SumTo(Compile(items).intervals, 16) == 2048 * 8
  {
    hide AllWindows, CutPoints;
    WindowsInHyperperiod(items);
    CutPointsSpan(AllWindows(items));
    SlotsBegin(CutPoints(AllWindows(items)), Starts(AllWindows(items)), GCL_SIZE);
  }

  // ---- When the list is right ----

  /** Bit 0 of a gate value opens the gate of queue 0, where the time-triggered frames wait. */
  predicate IsTriggered(value: int) { value % 2 == 1 }

  /** At every instant the active slot is a time-triggered one exactly if a flow is scheduled. */
  predicate FaithfulAt(items: seq<Item>, i: int, t: int)
    requires AllWellFormed(items) && Compile(items).Table? && 0 <= i < GCL_SIZE
  {
    IsTriggered(Compile(items).values[i]) <==> Scheduled(items, t)
  }

  ghost predicate Faithful(items: seq<Item>)
    requires AllWellFormed(items) && Compile(items).Table?
  {
    forall i, t :: 0 <= i < GCL_SIZE && 0 <= t < MAX_PERIOD && Active(Compile(items).intervals, i, t) ==> FaithfulAt(items, i, t)
  }

  /** No window ends strictly inside another one, unless one begins there too. */
  predicate NoEndInside(ws: seq<Window>) {
    forall j, k :: 0 <= j < |ws| && 0 <= k < |ws| && ws[j].lo < ws[k].hi < ws[j].hi ==> BeginsAt(ws, ws[k].hi)
  }

  predicate BeginsAt(ws: seq<Window>, y: int) { exists m :: 0 <= m < |ws| && ws[m].lo == y }

  lemma CoveredStartOrEnd(ws: seq<Window>, y: int)
    requires InHyperperiod(ws) && NoEndInside(ws) && y in CutPoints(ws) && Covered(ws, y)
    ensures BeginsAt(ws, y)
  {
    hide CutPoints;
    CutPointsAre(ws, y);
    EndsAre(ws, y);
    var j :| 0 <= j < |ws| && Contains(ws[j], y);
    if ws[j].lo != y {
      var k :| 0 <= k < |ws| && (ws[k].lo == y || ws[k].hi == y);
    }
  }

  lemma StartIsCovered(ws: seq<Window>, y: int)
    requires InHyperperiod(ws) && BeginsAt(ws, y)
    ensures Covered(ws, y)
  {
    var m :| 0 <= m < |ws| && ws[m].lo == y;
    assert Contains(ws[m], y);
  }

  /** A slot is labelled for time-triggered frames exactly if a window begins with it. */
  lemma LabelMeansStart(ws: seq<Window>, i: int)
    requires |CutPoints(ws)| <= GCL_SIZE + 1 && 0 <= i && i + 1 < |CutPoints(ws)|
    ensures Labelled(CutPoints(ws), Starts(ws)).values[i] == TT_GATE <==> BeginsAt(ws, CutPoints(ws)[i])
  {
    hide CutPoints, Starts;
    StartsAre(ws, CutPoints(ws)[i]);
  }

  lemma FaithfulSlot(items: seq<Item>, i: int, t: int)
    requires AllWellFormed(items) && Compile(items).Table? && 0 <= t < MAX_PERIOD
    requires Active(Compile(items).intervals, i, t)
    ensures var ws := AllWindows(items);
            && InSlot(CutPoints(ws), i, t)
            && (FaithfulAt(items, i, t) <==> (BeginsAt(ws, CutPoints(ws)[i]) <==> Covered(ws, CutPoints(ws)[i])))
  {
    hide AllWindows, CutPoints, Starts, Scheduled, Covered, BeginsAt;
    var ws := AllWindows(items);
    WindowsInHyperperiod(items);
    CutPointsSpan(ws);
    ActiveIsSlot(CutPoints(ws), Starts(ws), i, t);
    LabelMeansStart(ws, i);
    SlotCoverage(ws, i, t);
    CoverageIsSchedule(items, t);
  }

  /**
    The compiled list follows the schedule at every instant if and only if no window ends strictly
    inside another one without a window beginning there.
   */
  lemma FaithfulExactly(items: seq<Item>)
    requires AllWellFormed(items) && Compile(items).Table?
    ensures Faithful(items) <==> NoEndInside(AllWindows(items))
  {
    hide AllWindows, CutPoints, Starts, Scheduled, Covered, BeginsAt, Active, Compile, FaithfulAt;
    var ws := AllWindows(items);
    WindowsInHyperperiod(items);
    if NoEndInside(ws) {
      forall i, t | 0 <= i < GCL_SIZE && 0 <= t < MAX_PERIOD && Active(Compile(items).intervals, i, t)
        ensures FaithfulAt(items, i, t)
      {
        FaithfulSlot(items, i, t);
        var y := CutPoints(ws)[i];
        if Covered(ws, y) {
          CoveredStartOrEnd(ws, y);
        }
        if BeginsAt(ws, y) {
          StartIsCovered(ws, y);
        }
      }
    }
    if Faithful(items) {
      forall j, k | 0 <= j < |ws| && 0 <= k < |ws| && ws[j].lo < ws[k].hi < ws[j].hi ensures BeginsAt(ws, ws[k].hi) {
        EndInsideNeedsStart(items, j, k);
      }
    }
  }

  lemma EndInsideNeedsStart(items: seq<Item>, j: int, k: int)
    requires AllWellFormed(items) && Compile(items).Table? && Faithful(items)
    requires var ws := AllWindows(items); 0 <= j < |ws| && 0 <= k < |ws| && ws[j].lo < ws[k].hi < ws[j].hi
    ensures BeginsAt(AllWindows(items), AllWindows(items)[k].hi)
  {
    hide AllWindows, CutPoints, Starts, Scheduled, BeginsAt, Active, FaithfulAt;
    var ws := AllWindows(items);
    var y := ws[k].hi;
    WindowsInHyperperiod(items);
    CutPointsAre(ws, y);
    EndsAre(ws, y);
    CutPointsSpan(ws);
    var i :| 0 <= i < |CutPoints(ws)| && CutPoints(ws)[i] == y;
    ActiveIsSlot(CutPoints(ws), Starts(ws), i, y);
    assert InSlot(CutPoints(ws), i, y);
    assert FaithfulAt(items, i, y);
    FaithfulSlot(items, i, y);
    assert Contains(ws[j], y);
  }

  predicate DisjointOrIdentical(ws: seq<Window>) {
    forall j, k :: 0 <= j < |ws| && 0 <= k < |ws| ==> ws[j] == ws[k] || ws[j].hi <= ws[k].lo || ws[k].hi <= ws[j].lo
  }

  /** Windows that do not overlap, or coincide, are always compiled exactly. */
  lemma DisjointIsFaithful(items: seq<Item>)
    requires AllWellFormed(items) && Compile(items).Table? && DisjointOrIdentical(AllWindows(items))
    ensures Faithful(items)
  {
    hide AllWindows, Compile, Faithful;
    WindowsInHyperperiod(items);
    FaithfulExactly(items);
  }

  /** Even without that, a time-triggered slot never reaches outside one scheduled window. */
  lemma TriggeredSlotIsScheduled(items: seq<Item>, i: int, t: int)
    requires AllWellFormed(items) && Compile(items).Table? && 0 <= t < MAX_PERIOD
    requires Active(Compile(items).intervals, i, t) && IsTriggered(Compile(items).values[i])
    ensures Scheduled(items, t)
  {
    hide AllWindows, CutPoints, Starts, Scheduled, BeginsAt, Covered, Active;
    var ws := AllWindows(items);
    WindowsInHyperperiod(items);
    FaithfulSlot(items, i, t);
    LabelMeansStart(ws, i);
    StartIsCovered(ws, CutPoints(ws)[i]);
  }

  /** Two flows that overlap without coinciding: the second loses the gate where the first one ends. */
  lemma OverlapLosesGate()
    ensures var items := [Item(2048, 0, 100), Item(2048, 50, 150)];
            AllWellFormed(items) && Compile(items).Table? && !Faithful(items)
  {
    hide CutPoints, Faithful, Starts;
    var first, second := Item(2048, 0, 100), Item(2048, 50, 150);
    var items := [first, second];
    assert Unrolled(first, 2048) == [] && Unrolled(second, 2048) == [];
    assert Unrolled(first, 0) == [Window(0, 100)] && Unrolled(second, 0) == [Window(50, 150)];
    assert items[..1] == [first] && [first][..0] == [];
    assert AllWindows([first]) == AllWindows([]) + Unrolled(first, 0);
    var ws := AllWindows(items);
    assert ws == [Window(0, 100), Window(50, 150)];
    assert !BeginsAt(ws, 100) && ws[1].lo < ws[0].hi < ws[1].hi;
    FaithfulExactly(items);
  }

  // ---- When there is a table at all, and what it opens ----

  /** The slot opens the gate of queue 0, where time-triggered frames wait, or those of queues 1 and 8. */
  lemma SlotOpens(items: seq<Item>, i: nat)
    requires AllWellFormed(items) && Compile(items).Table? && i < |Compile(items).values|
    ensures var v := Compile(items).values[i];
            if IsTriggered(v) then v == 1 else v == 2 + 256
  {
  }

  /** A window of the flow begins or ends at y. */
  predicate IsEdge(item: Item, y: int)
    requires item.period > 0
  {
    (y - item.start) % item.period == 0 || (y - item.end) % item.period == 0
  }

  /** Where the hyperperiod is cut into slots. */
  ghost predicate IsCut(items: seq<Item>, y: int)
    requires AllWellFormed(items)
  {
    0 <= y <= MAX_PERIOD && (y == 0 || y == MAX_PERIOD || exists k :: 0 <= k < |items| && IsEdge(items[k], y))
  }

  lemma EdgeIsEnd(item: Item, y: int) returns (w: Window)
    requires WellFormed(item) && 0 < y < MAX_PERIOD && IsEdge(item, y)
    ensures w in Unrolled(item, 0) && (w.lo == y || w.hi == y)
  {
    var p := item.period;
    assert p % p == 0 by { RemainderUnique(p, 1, 0, p); }
    if (y - item.start) % p == 0 {
      var x := y - item.start;
      if x < 0 {
        SumOfMultiples(0, x, p);
        AtLeastOnePeriod(-x, p);
      }
      w := if x + item.end > MAX_PERIOD then Window(y, MAX_PERIOD) else Window(y, x + item.end);
      InstanceIsUnrolled(item, 0, x, w);
    } else {
      var x := y - item.end;
      if x >= 0 {
        w := Window(x + item.start, y);
        InstanceIsUnrolled(item, 0, x, w);
      } else {
        SumOfMultiples(MAX_PERIOD, x, p);
        SumOfMultiples(0, x, p);
        AtLeastOnePeriod(-x, p);
        if -x > p {
          SumOfMultiples(-x, p, p);
          AtLeastOnePeriod(-x - p, p);
        }
        AtLeastOnePeriod(MAX_PERIOD, p);
        w := Window(0, y);
        InstanceIsUnrolled(item, 0, MAX_PERIOD + x, w);
      }
    }
  }

  lemma EndIsEdge(item: Item, y: int, w: Window)
    requires WellFormed(item) && 0 < y < MAX_PERIOD && w in Unrolled(item, 0) && (w.lo == y || w.hi == y)
    ensures IsEdge(item, y)
  {
    var p := item.period;
    var x := UnrolledHasInstance(item, 0, w);
    SumOfMultiples(MAX_PERIOD, x, p);
    SumOfMultiples(0, MAX_PERIOD - x, p);
  }

  /** The cut points are the instants of the schedule, each once. */
  lemma CutPointsAreCuts(items: seq<Item>, y: int)
    requires AllWellFormed(items)
    ensures y in CutPoints(AllWindows(items)) <==> IsCut(items, y)
  {
    hide Unrolled, AllWindows, CutPoints, IsEdge;
    var ws := AllWindows(items);
    CutPointsAre(ws, y);
    EndsAre(ws, y);
    WindowsInHyperperiod(items);
    if 0 < y < MAX_PERIOD {
      if IsCut(items, y) {
        var k :| 0 <= k < |items| && IsEdge(items[k], y);
        var w := EdgeIsEnd(items[k], y);
        WindowsOfItems(items, w);
        var j :| 0 <= j < |ws| && ws[j] == w;
      }
      if y in Ends(ws) {
        var j :| 0 <= j < |ws| && (ws[j].lo == y || ws[j].hi == y);
        WindowsOfItems(items, ws[j]);
        var k :| 0 <= k < |items| && ws[j] in Unrolled(items[k], 0);
        EndIsEdge(items[k], y, ws[j]);
      }
    }
  }

  lemma {:induction false} DistinctElements(s: seq<int>)
    requires Increasing(s)
    ensures |set y | y in s| == |s|
  {
    if s != [] {
      var rest := s[1..];
      DistinctElements(rest);
      assert (set y | y in s) == {s[0]} + (set y | y in rest);
      assert s[0] !in rest;
    }
  }

  /** The code writes within its sixteen entries exactly if the schedule has at most seventeen cuts. */
  lemma FitsExactly(items: seq<Item>)
    requires AllWellFormed(items)
    ensures Compile(items).Table? <==> |set y: int | 0 <= y <= MAX_PERIOD && IsCut(items, y)| <= 17
  {
    hide CutPoints, AllWindows, Starts, IsCut;
    var p := CutPoints(AllWindows(items));
    DistinctElements(p);
    forall y: int ensures y in p <==> 0 <= y <= MAX_PERIOD && IsCut(items, y) {
      CutPointsAreCuts(items, y);
      CutInRange(items, y);
    }
    assert (set y | y in p) == (set y: int | 0 <= y <= MAX_PERIOD && IsCut(items, y));
  }

  lemma CutInRange(items: seq<Item>, y: int)
    requires AllWellFormed(items)
    ensures IsCut(items, y) ==> 0 <= y <= MAX_PERIOD
  {
  }
}
