/**
  The circular list of paired timestamps behind both rate-ratio computations. The pdelay requester
  and the slave clock each hold two such arrays with the same index handling.
 */
module SampleRing {
  import opened Words
  import opened ScaledTime

  datatype Sample = Sample(first: UScaledNs, second: UScaledNs)

  // ---- Specification: a sliding window over the samples added so far ----

  function Pushed(window: seq<Sample>, capacity: nat, x: Sample): seq<Sample>
    requires capacity > 0
  {
    if |window| < capacity then window + [x] else window[1..] + [x]
  }

  function Restarted(window: seq<Sample>): seq<Sample> {
    if window == [] then [] else window[|window| - 1..]
  }

  datatype RingOp = Push(x: Sample) | Restart

  function WindowAfter(capacity: nat, ops: seq<RingOp>): seq<Sample>
    requires capacity > 0
  {
    if ops == [] then []
    else
      var window := WindowAfter(capacity, ops[..|ops| - 1]);
      match ops[|ops| - 1]
      case Push(x) => Pushed(window, capacity, x)
      case Restart => Restarted(window)
  }

  function AllSamples(ops: seq<RingOp>): seq<Sample> {
    if ops == [] then []
    else
      var samples := AllSamples(ops[..|ops| - 1]);
      match ops[|ops| - 1]
      case Push(x) => samples + [x]
      case Restart => samples
  }

  /** How many samples the last restart left, plus those added after it. */
  function SinceRestart(ops: seq<RingOp>): nat {
    if ops == [] then 0
    else
      var count := SinceRestart(ops[..|ops| - 1]);
      match ops[|ops| - 1]
      case Push(_) => count + 1
      case Restart => if count == 0 then 0 else 1
  }

  /** Any mix of pushes and restarts leaves exactly the most recent samples, oldest first. */
  lemma {:induction false} WindowIsRecent(capacity: nat, ops: seq<RingOp>)
    requires capacity > 0
    ensures SinceRestart(ops) <= |AllSamples(ops)|
    ensures var n := if SinceRestart(ops) <= capacity then SinceRestart(ops) else capacity;
            WindowAfter(capacity, ops) == AllSamples(ops)[|AllSamples(ops)| - n..]
  {
    if ops != [] {
      WindowIsRecent(capacity, ops[..|ops| - 1]);
    }
  }

  function NextIndex(k: nat, capacity: nat): (n: nat)
    requires k < capacity
    ensures n == if k + 1 < capacity then k + 1 else 0
  {
    WrapIndex(k + 1, capacity);
    (k + 1) % capacity
  }

  lemma WrapIndex(k: nat, capacity: nat)
    requires 0 < capacity && k < 2 * capacity
    ensures k % capacity == if k < capacity then k else k - capacity
  {
    assert k == k / capacity * capacity + k % capacity;
    MultipleBounds(k / capacity, capacity);
  }

  lemma MultipleBounds(q: int, c: nat)
    ensures q >= 2 ==> q * c >= 2 * c
    ensures q < 0 ==> q * c + c <= 0
    ensures q == 1 ==> q * c == c
  {
  }

  // ---- The arrays and indices ----

  /** The part of a circular array from index `head` to index `tail`. */
  function InOrder(a: seq<UScaledNs>, head: nat, tail: nat, isEmpty: bool): (r: seq<UScaledNs>)
    requires head < |a| && tail < |a|
    ensures |r| == if isEmpty then 0 else if head <= tail then tail - head + 1 else tail + |a| - head + 1
  {
    if isEmpty then [] else if head <= tail then a[head..tail + 1] else a[head..] + a[..tail + 1]
  }

  function Zip(a: seq<UScaledNs>, b: seq<UScaledNs>): seq<Sample>
    requires |a| == |b|
  {
    seq(|a|, i requires 0 <= i < |a| => Sample(a[i], b[i]))
  }

  function WindowOf(a: seq<UScaledNs>, b: seq<UScaledNs>, head: nat, tail: nat, isEmpty: bool): seq<Sample>
    requires |a| == |b| && head < |a| && tail < |a|
  {
    Zip(InOrder(a, head, tail, isEmpty), InOrder(b, head, tail, isEmpty))
  }

  lemma PushWindow(a: seq<UScaledNs>, b: seq<UScaledNs>, head: nat, tail: nat, isEmpty: bool, x: UScaledNs, y: UScaledNs)
    requires |a| == |b| >= 2 && head < |a| && tail < |a| && (isEmpty ==> head == 0 && tail == |a| - 1)
    ensures var next := NextIndex(tail, |a|);
            var head' := if isEmpty || head != next then head else NextIndex(head, |a|);
            WindowOf(a[next := x], b[next := y], head', next, false)
            == Pushed(WindowOf(a, b, head, tail, isEmpty), |a|, Sample(x, y))
  {
    hide Zip, InOrder, Pushed;
    PushInOrder(a, head, tail, isEmpty, x);
    PushInOrder(b, head, tail, isEmpty, y);
    PushZip(InOrder(a, head, tail, isEmpty), InOrder(b, head, tail, isEmpty), |a|, x, y);
  }

  lemma PushZip(a: seq<UScaledNs>, b: seq<UScaledNs>, capacity: nat, x: UScaledNs, y: UScaledNs)
    requires |a| == |b| && capacity > 0
    ensures Zip(if |a| < capacity then a + [x] else a[1..] + [x], if |b| < capacity then b + [y] else b[1..] + [y])
            == Pushed(Zip(a, b), capacity, Sample(x, y))
  {
  }

  /** Writing behind `tail`, and moving `head` on when the array was full. */
  lemma PushInOrder(a: seq<UScaledNs>, head: nat, tail: nat, isEmpty: bool, x: UScaledNs)
    requires |a| >= 2 && head < |a| && tail < |a| && (isEmpty ==> head == 0 && tail == |a| - 1)
    ensures var next := if tail + 1 < |a| then tail + 1 else 0;
            var head' := if isEmpty || head != next then head else if head + 1 < |a| then head + 1 else 0;
            var w := InOrder(a, head, tail, isEmpty);
            InOrder(a[next := x], head', next, false) == (if |w| < |a| then w + [x] else w[1..] + [x])
  {
    var next := if tail + 1 < |a| then tail + 1 else 0;
    var b, w := a[next := x], InOrder(a, head, tail, isEmpty);
    if isEmpty {
      assert b[0..1] == [x];
    } else if head != next {
      if head <= tail < |a| - 1 {
        assert b[head..next + 1] == w + [x];
      } else if head <= tail {
        assert b[head..] == w && b[..1] == [x];
      } else {
        assert b[head..] + b[..next + 1] == w + [x];
      }
    } else if head == 0 {
      assert b[1..] == w[1..] && b[..1] == [x];
    } else if head < |a| - 1 {
      assert b[head + 1..] + b[..next + 1] == w[1..] + [x];
    } else {
      assert b[0..next + 1] == w[1..] + [x];
    }
  }

  class Ring {
    const capacity: nat
    const first: array<UScaledNs>
    const second: array<UScaledNs>
    var head: nat
    var tail: nat
    var isEmpty: bool
    ghost var Window: seq<Sample>  // the samples between head and tail, oldest first

    ghost predicate Valid()
      reads this, first, second
    {
      && capacity >= 2 && first.Length == capacity && second.Length == capacity && first != second
      && head < capacity && tail < capacity
      && (isEmpty ==> head == 0 && tail == capacity - 1)
      && Window == WindowOf(first[..], second[..], head, tail, isEmpty)
    }

    constructor (capacity: nat)
      requires capacity >= 2
      ensures Valid() && this.capacity == capacity && Window == []
      ensures fresh(first) && fresh(second)
    {
      this.capacity := capacity;
      first := new UScaledNs[capacity](_ => ZERO);
      second := new UScaledNs[capacity](_ => ZERO);
      head, tail, isEmpty := 0, capacity - 1, true;
      Window := [];
    }

    method Add(a: UScaledNs, b: UScaledNs)
      requires Valid()
      modifies this, first, second
      ensures Valid()
      ensures Window == Pushed(old(Window), capacity, Sample(a, b))
    {
      var next := NextIndex(tail, capacity);
      first[next] := a;
      second[next] := b;
      if isEmpty {
        isEmpty := false;
      } else if head == next {
        head := NextIndex(head, capacity);
      }
      tail := next;
      ghost var f, s := old(first[..]), old(second[..]);
      assert first[..] == f[next := a] && second[..] == s[next := b];
      Window := Pushed(Window, capacity, Sample(a, b));
      PushWindow(f, s, old(head), old(tail), old(isEmpty), a, b);
    }

    /** head := tail, reached only when the list is not empty. */
    method DropOlder()
      requires Valid() && !isEmpty
      modifies `head, `Window
      ensures Valid() && !isEmpty
      ensures Window == Restarted(old(Window))
    {
      head := tail;
      Window := Restarted(Window);
    }

    /** The two samples a rate ratio is taken between; none while there is only one. */
    method Ends() returns (has: bool, oldest: Sample, newest: Sample)
      requires Valid()
      ensures has <==> |Window| >= 2
      ensures has ==> !isEmpty
      ensures has ==> oldest == Window[0] && newest == Window[|Window| - 1]
    {
      has := !(isEmpty || tail == head);
      oldest := Sample(first[head], second[head]);
      newest := Sample(first[tail], second[tail]);
    }
  }
}
