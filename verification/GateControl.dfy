/**
  The gate-control-list compiler (scheduled traffic, section 8.6.8.4 of IEEE Std 802.1Q-2018): periodic
  windows are unrolled over the hyperperiod, their ends sorted into cut points, and the slots between
  cut points labelled.
 */
module GateControl {

  const MAX_PERIOD: int := 2048
  const GCL_SIZE: nat := 16

  /** Only time-triggered frames pass, or only the others. */
  const TT_GATE: int := 1
  const OPEN_GATE: int := 258  // 0b000000010 | 0b100000000

  datatype Item = Item(period: int, start: int, end: int)

  datatype Window = Window(lo: int, hi: int)

  /** Writing past the sixteenth entry is what the code does when there are more slots. */
  datatype Compiled = Overflow | Table(values: seq<int>, intervals: seq<int>)

  // ---- What the schedule means ----

  predicate WellFormed(item: Item) {
    && 0 < item.period && MAX_PERIOD % item.period == 0
    && 0 <= item.start < item.period && item.start < item.end <= item.start + item.period
  }

  predicate AllWellFormed(items: seq<Item>) {
    forall k :: 0 <= k < |items| ==> WellFormed(items[k])
  }

  /** The flow has the gate to itself at time t of every hyperperiod. */
  predicate InFlow(item: Item, t: int)
    requires item.period > 0
  {
    (t - item.start) % item.period < item.end - item.start
  }

  predicate Scheduled(items: seq<Item>, t: int)
    requires AllWellFormed(items)
  {
    exists k :: 0 <= k < |items| && InFlow(items[k], t)
  }

  // ---- What the compiler computes ----

  /** The windows of the instance of a flow that begins at x; one that runs over the end is split. */
  function WindowsAt(item: Item, x: int): seq<Window> {
    if x + item.end > MAX_PERIOD
    then [Window(0, x + item.end - MAX_PERIOD), Window(x + item.start, MAX_PERIOD)]
    else [Window(x + item.start, x + item.end)]
  }

  function Unrolled(item: Item, x: int): seq<Window>
    requires item.period > 0
    decreases MAX_PERIOD - x
  {
    if x < MAX_PERIOD then WindowsAt(item, x) + Unrolled(item, x + item.period) else []
  }

  function AllWindows(items: seq<Item>): seq<Window>
    requires forall k :: 0 <= k < |items| ==> items[k].period > 0
  {
    if items == [] then [] else AllWindows(items[..|items| - 1]) + Unrolled(items[|items| - 1], 0)
  }

  function Ends(ws: seq<Window>): (r: seq<int>)
    ensures |r| == 2 * |ws|
  {
    if ws == [] then [] else Ends(ws[..|ws| - 1]) + [ws[|ws| - 1].lo, ws[|ws| - 1].hi]
  }

  function Starts(ws: seq<Window>): seq<int> {
    if ws == [] then [] else Starts(ws[..|ws| - 1]) + [ws[|ws| - 1].lo]
  }

  predicate Increasing(s: seq<int>) {
    forall i, j :: 0 <= i < j < |s| ==> s[i] < s[j]
  }

  lemma FirstIsLeast(s: seq<int>, x: int, rest: seq<int>)
    requires s != [] && Increasing(s) && x > s[0] && Increasing(rest)
    requires forall y :: y in rest <==> y in s[1..] || y == x
    ensures Increasing([s[0]] + rest)
  {
    forall k | 0 <= k < |rest| ensures rest[k] > s[0] {
      assert rest[k] in rest;
    }
  }

  /** x put in its place, unless it is there already. */
  function Insert(s: seq<int>, x: int): (r: seq<int>)
    requires Increasing(s)
    ensures Increasing(r)
    ensures forall y :: y in r <==> y in s || y == x
    ensures |r| <= |s| + 1
  {
    if s == [] || x < s[0] then [x] + s
    else if x == s[0] then s
    else
      var rest := Insert(s[1..], x);
      assert forall y :: y in s <==> y == s[0] || y in s[1..];
      FirstIsLeast(s, x, rest);
      [s[0]] + rest
  }

  /** std::sort, then std::unique and erase. */
  function SortedUnique(s: seq<int>): (r: seq<int>)
    ensures Increasing(r)
    ensures forall y :: y in r <==> y in s
    ensures |r| <= |s|
  {
    if s == [] then []
    else
      assert s == s[..|s| - 1] + [s[|s| - 1]];
      Insert(SortedUnique(s[..|s| - 1]), s[|s| - 1])
  }

  function CutPoints(ws: seq<Window>): (r: seq<int>)
    ensures Increasing(r) && |r| <= 2 + 2 * |ws|
  {
    SortedUnique([0, MAX_PERIOD] + Ends(ws))
  }

  function SlotValue(points: seq<int>, starts: seq<int>, i: nat): int {
    if i + 1 < |points| && points[i] !in starts then OPEN_GATE else TT_GATE
  }

  function SlotInterval(points: seq<int>, i: nat): int {
    if i + 1 < |points| then (points[i + 1] - points[i]) * 8 else 0
  }

  function Labelled(points: seq<int>, starts: seq<int>): Compiled {
    if |points| > GCL_SIZE + 1 then Overflow
    else Table(seq(GCL_SIZE, i requires 0 <= i => SlotValue(points, starts, i)),
               seq(GCL_SIZE, i requires 0 <= i => SlotInterval(points, i)))
  }

  function Compile(items: seq<Item>): Compiled
    requires forall k :: 0 <= k < |items| ==> items[k].period > 0
  {
    Labelled(CutPoints(AllWindows(items)), Starts(AllWindows(items)))
  }

  // ---- The compiler, as it runs ----

  lemma EndsOfOneMore(ws: seq<Window>, w: Window)
    ensures Ends(ws + [w]) == Ends(ws) + [w.lo, w.hi]
    ensures Starts(ws + [w]) == Starts(ws) + [w.lo]
  {
    assert (ws + [w])[..|ws|] == ws;
  }

  /** The instance at x: its cut points and start times pushed onto the two vectors. */
  method PushInstance(item: Item, x: int, points: seq<int>, starts: seq<int>, ghost ws: seq<Window>)
    returns (points': seq<int>, starts': seq<int>)
    requires points == [0, MAX_PERIOD] + Ends(ws) && starts == Starts(ws)
    ensures points' == [0, MAX_PERIOD] + Ends(ws + WindowsAt(item, x))
    ensures starts' == Starts(ws + WindowsAt(item, x))
  {
    points', starts' := points, starts;
    if x + item.end > MAX_PERIOD {
      points' := points' + [0];
      points' := points' + [x + item.end - MAX_PERIOD];
      starts' := starts' + [0];
      points' := points' + [x + item.start];
      points' := points' + [MAX_PERIOD];
      starts' := starts' + [x + item.start];
      ghost var head, tail := Window(0, x + item.end - MAX_PERIOD), Window(x + item.start, MAX_PERIOD);
      EndsOfOneMore(ws, head);
      EndsOfOneMore(ws + [head], tail);
      assert ws + WindowsAt(item, x) == (ws + [head]) + [tail];
    } else {
      points' := points' + [x + item.start];
      points' := points' + [x + item.end];
      starts' := starts' + [x + item.start];
      EndsOfOneMore(ws, Window(x + item.start, x + item.end));
    }
  }

  method PushItem(item: Item, points: seq<int>, starts: seq<int>, ghost ws: seq<Window>)
    returns (points': seq<int>, starts': seq<int>)
    requires item.period > 0
    requires points == [0, MAX_PERIOD] + Ends(ws) && starts == Starts(ws)
    ensures points' == [0, MAX_PERIOD] + Ends(ws + Unrolled(item, 0))
    ensures starts' == Starts(ws + Unrolled(item, 0))
  {
    hide Ends, Starts, WindowsAt;
    points', starts' := points, starts;
    if item.period == MAX_PERIOD {
      points', starts' := PushInstance(item, 0, points', starts', ws);
      assert Unrolled(item, MAX_PERIOD) == [];
      assert Unrolled(item, 0) == WindowsAt(item, 0) + Unrolled(item, MAX_PERIOD) == WindowsAt(item, 0);
    } else {
      var x := 0;
      ghost var sofar := ws;
      while x < MAX_PERIOD
        invariant points' == [0, MAX_PERIOD] + Ends(sofar) && starts' == Starts(sofar)
        invariant sofar + Unrolled(item, x) == ws + Unrolled(item, 0)
        decreases MAX_PERIOD - x
      {
        points', starts' := PushInstance(item, x, points', starts', sofar);
        assert sofar + Unrolled(item, x) == (sofar + WindowsAt(item, x)) + Unrolled(item, x + item.period);
        sofar := sofar + WindowsAt(item, x);
        x := x + item.period;
      }
      assert Unrolled(item, x) == [] && sofar == sofar + [];
    }
  }

  /** The slots are written into the two sixteen-entry tables one after the other. */
  method FillTables(points: seq<int>, starts: seq<int>) returns (r: Compiled)
    ensures r == Labelled(points, starts)
  {
    if |points| > GCL_SIZE + 1 {
      return Overflow;
    }
    var values := new int[GCL_SIZE](_ => TT_GATE);
    var intervals := new int[GCL_SIZE](_ => 0);
    var gclIndex := 0;
    while gclIndex + 1 < |points|
      invariant 0 <= gclIndex && gclIndex <= GCL_SIZE && (points != [] ==> gclIndex + 1 <= |points|)
      invariant points == [] ==> gclIndex == 0
      invariant forall i :: 0 <= i < gclIndex ==> values[i] == SlotValue(points, starts, i)
      invariant forall i :: 0 <= i < gclIndex ==> intervals[i] == SlotInterval(points, i)
      invariant forall i :: gclIndex <= i < GCL_SIZE ==> values[i] == TT_GATE && intervals[i] == 0
    {
      var point := points[gclIndex];
      if point in starts {
        values[gclIndex] := TT_GATE;
        intervals[gclIndex] := (points[gclIndex + 1] - point) * 8;
      } else {
        values[gclIndex] := OPEN_GATE;
        intervals[gclIndex] := (points[gclIndex + 1] - point) * 8;
      }
      gclIndex := gclIndex + 1;
    }
    r := Table(values[..], intervals[..]);
  }

  /** apply_gcl, up to the writes into the hardware tables; a period of zero would not terminate. */
  method ApplyGcl(items: seq<Item>) returns (r: Compiled)
    requires forall k :: 0 <= k < |items| ==> items[k].period > 0
    ensures r == Compile(items)
  {
    var starts: seq<int> := [];
    var points := [0, MAX_PERIOD];
    for k := 0 to |items|
      invariant points == [0, MAX_PERIOD] + Ends(AllWindows(items[..k]))
      invariant starts == Starts(AllWindows(items[..k]))
    {
      points, starts := PushItem(items[k], points, starts, AllWindows(items[..k]));
      assert items[..k + 1][..k] == items[..k];
    }
    assert items[..|items|] == items;
    r := FillTables(SortedUnique(points), starts);
  }
}
