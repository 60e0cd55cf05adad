/**
  Received frames and their ingress timestamps. Frames wait in a ring that all ports share; each
  port's timestamping unit queues an entry for every event frame it saw, also for those that were
  lost on their way to the ring.
 */
module TimestampQueue {
  import opened Words
  import opened ScaledTime

  const FIFO_SIZE: nat := 64
  const MAX_PKT_LEN: nat := 1600

  // ---- The ring ----

  /** The part of a circular array that begins at `front`. */
  function InOrder<T>(a: seq<T>, front: nat, size: nat): (r: seq<T>)
    requires front < |a| && size <= |a|
    ensures |r| == size
  {
    if front + size <= |a| then a[front..front + size] else a[front..] + a[..front + size - |a|]
  }

  lemma AppendInOrder<T>(a: seq<T>, front: nat, size: nat, x: T)
    requires front < |a| && size < |a|
    ensures var rear := if front + size < |a| then front + size else front + size - |a|;
            InOrder(a[rear := x], front, size + 1) == InOrder(a, front, size) + [x]
  {
  }

  lemma RemoveInOrder<T>(a: seq<T>, front: nat, size: nat)
    requires front < |a| && 0 < size <= |a|
    ensures InOrder(a, front, size)[0] == a[front]
    ensures InOrder(a, if front + 1 < |a| then front + 1 else 0, size - 1) == InOrder(a, front, size)[1..]
  {
  }

  /** buffer_queue; a slot holds the bytes that were copied into it, `lens` how many they are. */
  class BufferQueue {
    const slots: array<seq<u8>>
    const lens: array<nat>
    var front: nat
    var rear: nat
    var size: nat
    ghost var Frames: seq<seq<u8>>
    ghost var Lengths: seq<nat>

    ghost predicate Valid()
      reads this, slots, lens
    {
      && slots.Length == FIFO_SIZE && lens.Length == FIFO_SIZE
      && front < FIFO_SIZE && rear < FIFO_SIZE && size <= FIFO_SIZE
      && rear == (if front + size < FIFO_SIZE then front + size else front + size - FIFO_SIZE)
      && Frames == InOrder(slots[..], front, size) && Lengths == InOrder(lens[..], front, size)
      && forall k :: 0 <= k < size ==> Lengths[k] == |Frames[k]|
    }

    constructor ()
      ensures Valid() && Frames == [] && fresh(slots) && fresh(lens)
    {
      slots := new seq<u8>[FIFO_SIZE](_ => []);
      lens := new nat[FIFO_SIZE](_ => 0);
      front, rear, size, Frames, Lengths := 0, 0, 0, [], [];
    }

    /** push_queue: a full ring or an oversized frame ends the process. */
    method Push(buf: seq<u8>) returns (exited: bool)
      requires Valid()
      modifies this, slots, lens
      ensures Valid() && (exited <==> |old(Frames)| == 64 || |buf| > 1600)
      ensures Frames == if exited then old(Frames) else old(Frames) + [buf]
    {
      hide InOrder;
      if size >= FIFO_SIZE || |buf| > MAX_PKT_LEN {
        return true;
      }
      exited := false;
      ghost var s, l := slots[..], lens[..];
      var n: nat := |buf|;
      slots[rear] := buf;
      lens[rear] := n;
      assert slots[..] == s[rear := buf];
      assert lens[..] == l[rear := n];
      AppendInOrder(s, front, size, buf);
      AppendInOrder(l, front, size, n);
      rear := (rear + 1) % FIFO_SIZE;
      size := size + 1;
      Frames := Frames + [buf];
      Lengths := Lengths + [n];
    }

    /** pop_queue: the length it reports is the next frame's, because `front` has moved on by then. */
    method Pop() returns (exited: bool, buf: seq<u8>, len: nat)
      requires Valid()
      modifies this
      ensures Valid() && (exited <==> old(Frames) == [])
      ensures !exited ==> buf == old(Frames)[0] && Frames == old(Frames)[1..]
      ensures |old(Frames)| > 1 ==> len == |old(Frames)[1]|
      ensures exited ==> Frames == old(Frames)
    {
      hide InOrder;
      buf, len, exited := [], 0, size <= 0;
      if exited {
        return;
      }
      buf := slots[front];
      RemoveInOrder(slots[..], front, size);
      RemoveInOrder(lens[..], front, size);
      front := (front + 1) % FIFO_SIZE;
      size := size - 1;
      len := lens[front];
      if size > 0 {
        RemoveInOrder(lens[..], front, size);
      }
      Frames := Frames[1..];
      Lengths := Lengths[1..];
    }
  }

  // ---- Frames and timestamp entries ----

  datatype MsgType = SYNC | PDELAY_REQ | PDELAY_RESP | FOLLOW_UP | PDELAY_RESP_FOLLOW_UP | ANNOUNCE | OTHER

  predicate IsEvent(t: MsgType) { t == SYNC || t == PDELAY_REQ || t == PDELAY_RESP }

  /** Event messages, which are timestamped, are those with a type below 8 (section 13.3.2.3 of IEEE Std 1588-2019). */
  function TypeCode(t: MsgType): int
    requires t != OTHER
  {
    match t
    case SYNC => 0
    case PDELAY_REQ => 2
    case PDELAY_RESP => 3
    case FOLLOW_UP => 8
    case PDELAY_RESP_FOLLOW_UP => 10
    case ANNOUNCE => 11
  }

  lemma EventsAreBelow8(t: MsgType)
    requires t != OTHER
    ensures IsEvent(t) <==> TypeCode(t) < 8
  {
  }

  datatype Key = Key(msgType: MsgType, sequenceId: u16)

  /** `ts` is what the timestamping unit of the port records when the frame arrives; the frame itself has no room for it. */
  datatype Frame = Frame(port: u16, key: Key, ts: UScaledNs)

  datatype Entry = Entry(key: Key, ts: UScaledNs)

  predicate IsPort(p: u16) { 1 <= p <= 4 }

  /** The entries that belong to the event frames of one port, in order. */
  function OwnEntries(frames: seq<Frame>, port: u16): seq<Entry> {
    if frames == [] then []
    else if frames[0].port == port && IsEvent(frames[0].key.msgType)
    then [Entry(frames[0].key, frames[0].ts)] + OwnEntries(frames[1..], port)
    else OwnEntries(frames[1..], port)
  }

  /** They are all there, in the same order. */
  predicate Covered(own: seq<Entry>, entries: seq<Entry>) {
    if own == [] then true
    else if entries == [] then false
    else if entries[0] == own[0] then Covered(own[1..], entries[1..])
    else Covered(own, entries[1..])
  }

  /** The skip loop: entries are dropped up to and including the first with the key. */
  function Skip(key: Key, entries: seq<Entry>): seq<Entry> {
    if entries == [] then [] else if entries[0].key == key then entries[1..] else Skip(key, entries[1..])
  }

  predicate HasKey(key: Key, entries: seq<Entry>) {
    exists k :: 0 <= k < |entries| && entries[k].key == key
  }

  /** The first entry with the key, and its position. */
  predicate IsFirst(key: Key, entries: seq<Entry>, e: Entry, k: nat) {
    k < |entries| && entries[k] == e && e.key == key && forall j :: 0 <= j < k ==> entries[j].key != key
  }

  lemma {:induction false} SkipAfterFirst(key: Key, entries: seq<Entry>, e: Entry, k: nat)
    requires IsFirst(key, entries, e, k)
    ensures Skip(key, entries) == entries[k + 1..]
  {
    if k > 0 {
      SkipAfterFirst(key, entries[1..], e, k - 1);
    }
  }

  /** The loop: entries as the unit hands them out, until one matches; it needs one that does. */
  method TakeTimestamp(key: Key, entries: seq<Entry>) returns (e: Entry, rest: seq<Entry>)
    requires HasKey(key, entries)
    ensures exists k: nat :: IsFirst(key, entries, e, k) && rest == entries[k + 1..]
    ensures rest == Skip(key, entries)
  {
    e, rest := entries[0], entries[1..];
    ghost var k := 0;
    while e.key != key
      invariant k < |entries| && e == entries[k] && rest == entries[k + 1..]
      invariant forall j :: 0 <= j < k ==> entries[j].key != key
      decreases |rest|
    {
      e, rest := rest[0], rest[1..];
      k := k + 1;
    }
    assert IsFirst(key, entries, e, k);
    SkipAfterFirst(key, entries, e, k);
  }

  // ---- Covered, seen from both ends ----

  /** The list covered can lose any element. */
  lemma {:induction false} CoveredWithout(own: seq<Entry>, entries: seq<Entry>, k: nat)
    requires Covered(own, entries) && k < |own|
    ensures Covered(own[..k] + own[k + 1..], entries)
    decreases |entries|, k
  {
    var shorter := own[..k] + own[k + 1..];
    if entries[0] == own[0] {
      if k == 0 {
        assert shorter == own[1..];
        CoveredLater(own[1..], entries);
      } else {
        CoveredWithout(own[1..], entries[1..], k - 1);
        assert shorter[1..] == own[1..][..k - 1] + own[1..][k..];
      }
    } else {
      CoveredWithout(own, entries[1..], k);
      if shorter != [] && entries[0] == shorter[0] {
        CoveredTail(shorter, entries[1..]);
      }
    }
  }

  /** What later entries cover, all entries cover. */
  lemma {:induction false} CoveredLater(own: seq<Entry>, entries: seq<Entry>)
    requires entries != [] && Covered(own, entries[1..])
    ensures Covered(own, entries)
    decreases |entries|, 0
  {
    if own != [] && entries[0] == own[0] {
      CoveredTail(own, entries[1..]);
    }
  }

  lemma {:induction false} CoveredTail(own: seq<Entry>, entries: seq<Entry>)
    requires own != [] && Covered(own, entries)
    ensures Covered(own[1..], entries)
    decreases |entries|, 1
  {
    if entries[0] == own[0] {
      CoveredLater(own[1..], entries);
    } else {
      CoveredTail(own, entries[1..]);
      CoveredLater(own[1..], entries);
    }
  }

  /** An entry more at the end covers itself there. */
  lemma {:induction false} CoveredAppend(own: seq<Entry>, entries: seq<Entry>, e: Entry)
    requires Covered(own, entries)
    ensures Covered(own, entries + [e]) && Covered(own + [e], entries + [e])
    decreases |entries|
  {
    if entries == [] {
      assert [e][1..] == [];
    } else {
      assert (entries + [e])[1..] == entries[1..] + [e];
      if own == [] {
        CoveredAppend(own, entries[1..], e);
        if entries[0] == e {
          assert (own + [e])[1..] == [];
        }
      } else if entries[0] == own[0] {
        CoveredAppend(own[1..], entries[1..], e);
        assert (own + [e])[1..] == own[1..] + [e];
      } else {
        CoveredAppend(own, entries[1..], e);
      }
    }
  }

  /** Taking the first entry with the key of the first one leaves the others covered. */
  lemma {:induction false} SkipKeepsCovered(own: seq<Entry>, entries: seq<Entry>)
    requires own != [] && Covered(own, entries)
    ensures own[0] in entries && HasKey(own[0].key, entries) && Covered(own[1..], Skip(own[0].key, entries))
    decreases |entries|
  {
    if entries[0] == own[0] {
    } else if entries[0].key == own[0].key {
      SkipKeepsCovered(own, entries[1..]);
      CoveredTail(own, entries[1..]);
    } else {
      SkipKeepsCovered(own, entries[1..]);
      var k :| 0 <= k < |entries[1..]| && entries[1..][k].key == own[0].key;
      assert entries[k + 1].key == own[0].key;
    }
  }

  // ---- The system: switch, link to the processor, ring ----

  /** `transit` are frames past the timestamping units but not yet in the ring. */
  datatype System = System(queue: seq<Frame>, transit: seq<Frame>, entries: map<u16, seq<Entry>>)

  datatype Step =
    | Arrive(f: Frame)
    | StampOnly(port: u16, e: Entry)
    | Lose(k: nat)
    | Push
    | Receive

  predicate WellFormed(s: System) {
    && (forall p: u16 :: IsPort(p) ==> p in s.entries)
    && (forall f :: f in s.queue + s.transit ==> IsPort(f.port))
  }

  /** Per port, the frames that can still be received are a subsequence of the entries left. */
  predicate InStep(s: System) {
    WellFormed(s) && forall p: u16 :: IsPort(p) ==> Covered(OwnEntries(s.queue + s.transit, p), s.entries[p])
  }

  predicate Enabled(s: System, step: Step) {
    match step
    case Arrive(f) => IsPort(f.port)
    case StampOnly(port, _) => IsPort(port)
    case Lose(k) => k < |s.transit|
    case Push => s.transit != [] && |s.queue| < FIFO_SIZE
    case Receive => s.queue != []
  }

  function Next(s: System, step: Step): System
    requires WellFormed(s) && Enabled(s, step)
  {
    match step
    case Arrive(f) =>
      var s := s.(transit := s.transit + [f]);
      if IsEvent(f.key.msgType) then s.(entries := s.entries[f.port := s.entries[f.port] + [Entry(f.key, f.ts)]]) else s
    case StampOnly(port, e) => s.(entries := s.entries[port := s.entries[port] + [e]])
    case Lose(k) => s.(transit := s.transit[..k] + s.transit[k + 1..])
    case Push => s.(queue := s.queue + [s.transit[0]], transit := s.transit[1..])
    case Receive =>
      var f := s.queue[0];
      var s := s.(queue := s.queue[1..]);
      if IsEvent(f.key.msgType) then s.(entries := s.entries[f.port := Skip(f.key, s.entries[f.port])]) else s
  }

  lemma {:induction false} OwnEntriesAppend(frames: seq<Frame>, f: Frame, p: u16)
    ensures OwnEntries(frames + [f], p) ==
            OwnEntries(frames, p) + if f.port == p && IsEvent(f.key.msgType) then [Entry(f.key, f.ts)] else []
  {
    if frames == [] {
      assert [f][1..] == [];
    } else {
      OwnEntriesAppend(frames[1..], f, p);
      assert (frames + [f])[1..] == frames[1..] + [f];
    }
  }

  /** Losing a frame loses at most its own key. */
  lemma {:induction false} LossKeepsCovered(frames: seq<Frame>, k: nat, p: u16, entries: seq<Entry>)
    requires k < |frames| && Covered(OwnEntries(frames, p), entries)
    ensures Covered(OwnEntries(frames[..k] + frames[k + 1..], p), entries)
  {
    var j := KeyPosition(frames, k, p);
    if frames[k].port == p && IsEvent(frames[k].key.msgType) {
      CoveredWithout(OwnEntries(frames, p), entries, j);
    }
  }

  lemma {:induction false} KeyPosition(frames: seq<Frame>, k: nat, p: u16) returns (j: nat)
    requires k < |frames|
    ensures var own, less := OwnEntries(frames, p), OwnEntries(frames[..k] + frames[k + 1..], p);
            if frames[k].port == p && IsEvent(frames[k].key.msgType)
            then j < |own| && less == own[..j] + own[j + 1..]
            else less == own
  {
    if k == 0 {
      j := 0;
      assert frames[..0] + frames[1..] == frames[1..];
    } else {
      var i := KeyPosition(frames[1..], k - 1, p);
      var shorter := frames[..k] + frames[k + 1..];
      assert shorter[1..] == frames[1..][..k - 1] + frames[1..][k..];
      j := if frames[0].port == p && IsEvent(frames[0].key.msgType) then i + 1 else i;
    }
  }

  lemma StepKeepsInStep(s: System, step: Step)
    requires InStep(s) && Enabled(s, step)
    ensures InStep(Next(s, step))
  {
    hide OwnEntries, Covered, Skip;
    var r := Next(s, step);
    var all := s.queue + s.transit;
    forall p: u16 | IsPort(p) ensures Covered(OwnEntries(r.queue + r.transit, p), r.entries[p]) {
      match step
      case Arrive(f) =>
        assert r.queue + r.transit == all + [f];
        OwnEntriesAppend(all, f, p);
        CoveredAppend(OwnEntries(all, p), s.entries[p], Entry(f.key, f.ts));
        assert OwnEntries(all, p) + [] == OwnEntries(all, p);
      case StampOnly(_, e) => CoveredAppend(OwnEntries(all, p), s.entries[p], e);
      case Lose(k) =>
        assert r.queue + r.transit == all[..|s.queue| + k] + all[|s.queue| + k + 1..];
        LossKeepsCovered(all, |s.queue| + k, p, s.entries[p]);
      case Push => assert r.queue + r.transit == all;
      case Receive => ReceiveKeeps(s, p);
    }
    NextWellFormed(s, step);
  }

  lemma NextWellFormed(s: System, step: Step)
    requires WellFormed(s) && Enabled(s, step)
    ensures WellFormed(Next(s, step))
  {
    hide IsPort, IsEvent, Skip;
    var r := Next(s, step);
    forall f | f in r.queue + r.transit ensures IsPort(f.port) {
      assert f in s.queue + s.transit || (step.Arrive? && f == step.f);
    }
  }

  lemma ReceiveKeeps(s: System, p: u16)
    requires InStep(s) && s.queue != [] && IsPort(p)
    ensures var r := Next(s, Receive); Covered(OwnEntries(r.queue + r.transit, p), r.entries[p])
  {
    hide Covered, Skip, IsEvent;
    var f := s.queue[0];
    var all := s.queue + s.transit;
    assert all[0] == f && all[1..] == s.queue[1..] + s.transit;
    if f.port == p && IsEvent(f.key.msgType) {
      var own := OwnEntries(all, p);
      assert own[0] == Entry(f.key, f.ts) && own[1..] == OwnEntries(all[1..], p);
      SkipKeepsCovered(own, s.entries[p]);
    }
  }

  /** In step, the frame at the head of the ring is sure to find an entry with its own type and id. */
  lemma HeadHasEntry(s: System)
    requires InStep(s) && s.queue != [] && IsEvent(s.queue[0].key.msgType)
    ensures var f := s.queue[0]; HasKey(f.key, s.entries[f.port]) && Entry(f.key, f.ts) in s.entries[f.port]
  {
    hide Covered, IsEvent, Skip;
    var f := s.queue[0];
    var all := s.queue + s.transit;
    assert f in all;
    assert all[0] == f && OwnEntries(all, f.port)[0] == Entry(f.key, f.ts);
    SkipKeepsCovered(OwnEntries(all, f.port), s.entries[f.port]);
  }

  /** And the one it finds is its own, unless an entry of the same type and id is left over before it. */
  lemma FindsItsOwn(s: System, e: Entry, k: nat)
    requires InStep(s) && s.queue != [] && IsEvent(s.queue[0].key.msgType)
    requires IsFirst(s.queue[0].key, s.entries[s.queue[0].port], e, k)
    ensures var f := s.queue[0];
            var entries := s.entries[f.port];
            e.ts == f.ts || exists j :: k < j < |entries| && entries[j] == Entry(f.key, f.ts)
  {
    HeadHasEntry(s);
    var f := s.queue[0];
    var j :| 0 <= j < |s.entries[f.port]| && s.entries[f.port][j] == Entry(f.key, f.ts);
  }

  predicate Possible(s: System, steps: seq<Step>)
    requires InStep(s)
    decreases |steps|, 0
  {
    steps != [] ==>
      var before := steps[..|steps| - 1];
      Possible(s, before) && Enabled(After(s, before), steps[|steps| - 1])
  }

  /** The state after any interleaving of arrivals, losses, pushes and receptions: still in step. */
  function After(s: System, steps: seq<Step>): (r: System)
    requires InStep(s) && Possible(s, steps)
    ensures InStep(r)
    decreases |steps|, 1
  {
    hide InStep, Next, Enabled;
    if steps == [] then s
    else
      var before := After(s, steps[..|steps| - 1]);
      StepKeepsInStep(before, steps[|steps| - 1]);
      NextAfter(before, steps[|steps| - 1])
  }

  function NextAfter(s: System, step: Step): System
    requires InStep(s) && Enabled(s, step)
  {
    Next(s, step)
  }
}
