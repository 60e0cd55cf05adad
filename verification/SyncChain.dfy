/**
  Grandmaster time carried by the Sync senders and receivers of a chain of nodes, over any runs of
  these machines and over links that lose, delay and reorder what is sent.

  Each link has a sender in the node before it and a receiver in the node after it; the nodes in
  between copy the data from the receiver of one link to the sender of the next.
 */
module SyncChain {
  import opened Words
  import opened ScaledTime
  import opened PtpMessages
  import opened TimeTransfer
  import M = ClockMasterSender
  import S = SyncSender
  import R = SyncReceiver
  import C = ClockSlave

  /**
    What a piece of data goes back to: the source time, the true time of its last transmission, and
    how often the clock of the node that holds it had then started over.
   */
  datatype Tag = Tag(src: Source, at: int, cycle: int)

  predicate Told(tag: Tag, d: MDSync, offset: int) {
    Carries(tag.src, d, offset - CLOCK_PERIOD * tag.cycle, tag.at)
  }

  /**
    `from` and `to` are the clock offsets at the two ends, `egress` the true times at which the frames
    sent left, `delay` how long frames travel. `tags` and `origin` say what the data handed to the
    sender goes back to, and which emission of the link before it was; `syncOf` and `followUpOf`,
    which frames sent the receiver's Syncs and Follow_Ups are.
   */
  datatype Link = Link(from: int, sender: S.Log, tags: seq<Tag>, origin: seq<nat>, egress: seq<int>, delay: nat,
                       to: int, receiver: R.Log, syncOf: seq<nat>, followUpOf: seq<nat>)

  ghost predicate SenderRan(log: S.Log) {
    exists created: S.Machine, config: S.Config, random: u16, events: seq<S.Event> ::
      S.Created(created, config) && log == S.After(S.RunToRest(created, random), events).log
  }

  ghost predicate ReceiverRan(log: R.Log) {
    exists created: R.Machine, config: R.Config, now: UScaledNs, events: seq<R.Event> ::
      R.Created(created, config) && log == R.After(R.RunToRest(created, now), events).log
  }

  lemma RanWell(l: Link)
    requires SenderRan(l.sender) && ReceiverRan(l.receiver)
    ensures S.WellSent(l.sender) && R.WellPaired(l.receiver)
  {
    hide S.WellSent, R.WellPaired;
    var created: S.Machine, config: S.Config, random: u16, events: seq<S.Event> :|
      S.Created(created, config) && l.sender == S.After(S.RunToRest(created, random), events).log;
    S.SenderSafety(created, config, random, events);
    var created': R.Machine, config': R.Config, now: UScaledNs, events': seq<R.Event> :|
      R.Created(created', config') && l.receiver == R.After(R.RunToRest(created', now), events').log;
    R.ReceiverSafety(created', config', now, events');
  }

  /** No two Syncs of the sender have the same id. */
  predicate DistinctIds(sent: seq<S.Sent>) {
    forall j, k :: 0 <= j < k < |sent| && sent[j].SyncSent? && sent[k].SyncSent? ==>
      sent[j].sync.sequenceId != sent[k].sync.sequenceId
  }

  /** The timestamp taken for a Sync is the reading of the sender's clock when it left. */
  predicate StampsTrue(l: Link)
    requires |l.egress| == |l.sender.sent|
  {
    forall a :: 0 <= a < |l.sender.accepted| && 0 <= l.sender.accepted[a].sync < |l.egress| ==>
      var reading := ClockAt(l.egress[l.sender.accepted[a].sync], l.from);
      l.sender.accepted[a].stamp.ts == reading && Even(reading)
  }

  /** What arrives was sent, in any order and number; a Sync is timed by the receiver's clock. */
  predicate FramesArrive(l: Link)
    requires |l.egress| == |l.sender.sent|
  {
    && |l.syncOf| == |l.receiver.syncs| && |l.followUpOf| == |l.receiver.followUps|
    && (forall j :: 0 <= j < |l.syncOf| ==>
          && l.syncOf[j] < |l.sender.sent| && l.sender.sent[l.syncOf[j]].SyncSent?
          && Even(ClockAt(Arrival(l, l.syncOf[j]), l.to))
          && l.receiver.syncs[j] == R.Arrival(l.sender.sent[l.syncOf[j]].sync, ClockAt(Arrival(l, l.syncOf[j]), l.to)))
    && (forall j :: 0 <= j < |l.followUpOf| ==>
          && l.followUpOf[j] < |l.sender.sent| && l.sender.sent[l.followUpOf[j]].FollowUpSent?
          && l.receiver.followUps[j] == l.sender.sent[l.followUpOf[j]].followUp)
  }

  /** When frame k arrives. */
  function Arrival(l: Link, k: nat): int
    requires k < |l.egress|
  {
    l.egress[k] + l.delay
  }

  predicate DelayKnown(l: Link) {
    && Even(OfValue(l.delay))
    && forall e :: 0 <= e < |l.receiver.emitted| ==> l.receiver.emitted[e].delay == OfValue(l.delay)
  }

  ghost predicate Works(l: Link) {
    && SenderRan(l.sender) && ReceiverRan(l.receiver) && DistinctIds(l.sender.sent)
    && |l.egress| == |l.sender.sent| && |l.tags| == |l.sender.received|
    && StampsTrue(l) && FramesArrive(l) && DelayKnown(l)
  }

  // ---- One link ----

  /** Frame k is a Follow_Up; its Sync went out just before it, and the data may be newer. */
  predicate IsFollowUp(l: Link, k: int) {
    0 < k < |l.sender.sent| && l.sender.sent[k].FollowUpSent?
  }

  /** The data Follow_Up k was built from: its source time, and whether it was in time for the Sync. */
  function TagOf(l: Link, k: int): Tag
    requires 0 <= k < |l.sender.sent|
  {
    var i := l.sender.sent[k].source;
    if 0 <= i < |l.tags| then l.tags[i] else Tag(Source(ZERO, 0), 0, 0)
  }

  predicate FollowUpInTime(l: Link, k: int)
    requires |l.egress| == |l.sender.sent| && IsFollowUp(l, k)
  {
    var tag := TagOf(l, k);
    InTime(tag.src, l.egress[k - 1], Cycle(l.egress[k - 1], l.from) - tag.cycle)
  }

  /**
    Follow_Up k of any run, built from data that carries grandmaster time, tells the grandmaster's time
    at the egress of its Sync exactly if that data was in time.
   */
  lemma SentFollowUpTells(l: Link, k: int)
    requires Works(l) && IsFollowUp(l, k)
    ensures 0 <= l.sender.sent[k].source < |l.sender.received|
    ensures Told(TagOf(l, k), l.sender.received[l.sender.sent[k].source], l.from) ==>
              var f, egress := l.sender.sent[k].followUp, l.egress[k - 1];
              && (TellsEgress(TagOf(l, k).src, f, egress) <==> FollowUpInTime(l, k))
              && (FollowUpInTime(l, k) ==> f.correction == egress - TagOf(l, k).src.at)
              && f.correction % 2 == 0
  {
    hide OfValue, TellsEgress, Carries, InTime, S.MakeFollowUp, S.WellSent, Cycle, Even, SenderRan, ReceiverRan, R.WellPaired;
    RanWell(l);
    S.SyncWasSent(l.sender, k);
    var sent, egress, tag := l.sender.sent[k], l.egress[k - 1], TagOf(l, k);
    assert l.sender.accepted[sent.stamp].sync == k - 1;
    var d := l.sender.received[sent.source];
    if Told(tag, d, l.from) {
      var offset, cycles := l.from - CLOCK_PERIOD * tag.cycle, Cycle(egress, l.from) - tag.cycle;
      assert egress + offset - CLOCK_PERIOD * cycles == egress + l.from - CLOCK_PERIOD * Cycle(egress, l.from);
      FollowUpTells(tag.src, d, l.sender.sent[k - 1].sync.sequenceId, egress, offset, tag.at, cycles);
    }
  }

  /** The Follow_Up emission e was made from, and that it is one. */
  function FollowUpOf(l: Link, e: nat): int
    requires e < |l.receiver.emitted|
  {
    var j := l.receiver.emitted[e].followUp;
    if 0 <= j < |l.followUpOf| then l.followUpOf[j] else 0
  }

  /** The pair an emission is made from was sent as a pair. */
  lemma PairedAsSent(l: Link, e: nat)
    requires Works(l) && e < |l.receiver.emitted|
    ensures var x, k := l.receiver.emitted[e], FollowUpOf(l, e);
            && IsFollowUp(l, k) && l.sender.sent[k - 1].SyncSent?
            && l.sender.sent[k - 1].sync.correction == 0
            && x.data == R.MakeMDSync(l.sender.sent[k - 1].sync, l.sender.sent[k].followUp,
                                      ClockAt(Arrival(l, k - 1), l.to), OfValue(l.delay))
            && Even(ClockAt(Arrival(l, k - 1), l.to))
  {
    hide S.MakeFollowUp, S.WellSent, R.MakeMDSync, ClockAt, SenderRan, ReceiverRan, StampsTrue, Even, OfValue;
    RanWell(l);
    var x := l.receiver.emitted[e];
    assert R.FromPair(l.receiver, x);
    var k := l.followUpOf[x.followUp];
    S.SyncWasSent(l.sender, k);
    S.SyncWasSent(l.sender, k - 1);
    SameId(l, k);
    assert l.sender.sent[l.syncOf[x.sync]].sync.sequenceId == l.sender.sent[k - 1].sync.sequenceId;
  }

  lemma SameId(l: Link, k: int)
    requires S.WellSent(l.sender) && 0 <= k < |l.sender.sent| && l.sender.sent[k].FollowUpSent?
    ensures k > 0 && l.sender.sent[k - 1].SyncSent?
    ensures l.sender.sent[k].followUp.sequenceId == l.sender.sent[k - 1].sync.sequenceId
  {
    hide Add, Subtract, ToUint64;
    S.SyncWasSent(l.sender, k);
  }

  /** What an emission goes back to: the source of its Follow_Up's data, sent when its Sync left. */
  function EmissionTag(l: Link, e: nat): Tag
    requires |l.egress| == |l.sender.sent| && e < |l.receiver.emitted| && IsFollowUp(l, FollowUpOf(l, e))
  {
    var k := FollowUpOf(l, e);
    Tag(TagOf(l, k).src, l.egress[k - 1], Cycle(Arrival(l, k - 1), l.to))
  }

  lemma EmissionTells(l: Link, e: nat)
    requires Works(l) && e < |l.receiver.emitted|
    ensures IsFollowUp(l, FollowUpOf(l, e))
    ensures var k := FollowUpOf(l, e);
            && 0 <= l.sender.sent[k].source < |l.sender.received|
            && (Told(TagOf(l, k), l.sender.received[l.sender.sent[k].source], l.from) && FollowUpInTime(l, k)
                ==> Told(EmissionTag(l, e), l.receiver.emitted[e].data, l.to))
  {
    hide OfValue, TellsEgress, Carries, InTime, R.MakeMDSync, Cycle, Even;
    hide SenderRan, ReceiverRan, DistinctIds, StampsTrue, FramesArrive;
    PairedAsSent(l, e);
    var k := FollowUpOf(l, e);
    SentFollowUpTells(l, k);
    var tag, d := TagOf(l, k), l.sender.received[l.sender.sent[k].source];
    if Told(tag, d, l.from) && FollowUpInTime(l, k) {
      var offset := l.to - CLOCK_PERIOD * Cycle(Arrival(l, k - 1), l.to);
      assert l.egress[k - 1] + l.delay + offset == Arrival(l, k - 1) + l.to - CLOCK_PERIOD * Cycle(Arrival(l, k - 1), l.to);
      InEraOf(tag, d, l.from);
      HopCarries(tag.src, l.sender.sent[k - 1].sync, l.sender.sent[k].followUp, l.egress[k - 1], l.delay, offset);
    }
  }

  lemma InEraOf(tag: Tag, d: MDSync, offset: int)
    requires Told(tag, d, offset)
    ensures tag.src.InEra()
  {
  }

  // ---- Ids ----

  lemma {:induction false} EpochIds(log: S.Log, k: int)
    requires S.WellSent(log) && 0 <= k < |log.sent|
    requires forall j :: 0 < j < |log.sent| && log.sent[j].SyncSent? ==> !log.sent[j].first
    ensures log.sent[0].SyncSent? && (log.sent[k].SyncSent? <==> k % 2 == 0)
    ensures (if log.sent[k].SyncSent? then log.sent[k].sync.sequenceId else log.sent[k].followUp.sequenceId)
            == (log.sent[0].sync.sequenceId + k / 2) % TWO16
    decreases k
  {
    hide S.WellSent, S.MakeSync, Add, Subtract, ToUint64;
    S.SyncWasSent(log, 0);
    S.SyncWasSent(log, k);
    if k > 0 {
      EpochIds(log, k - 1);
      NextId(log.sent[0].sync.sequenceId, k);
    }
  }

  lemma NextId(first: u16, k: nat)
    requires k > 0
    ensures k % 2 == 0 ==> (first + k / 2) % TWO16 == ((first + (k - 1) / 2) % TWO16 + 1) % TWO16
    ensures k % 2 == 1 ==> k / 2 == (k - 1) / 2
  {
  }

  /** The ids of up to 2^16 Syncs are distinct while the sender is not initialized again. */
  lemma EpochIdsDistinct(log: S.Log)
    requires S.WellSent(log) && |log.sent| <= 2 * TWO16
    requires forall j :: 0 < j < |log.sent| && log.sent[j].SyncSent? ==> !log.sent[j].first
    ensures DistinctIds(log.sent)
  {
    hide S.WellSent;
    forall j, k | 0 <= j < k < |log.sent| && log.sent[j].SyncSent? && log.sent[k].SyncSent?
      ensures log.sent[j].sync.sequenceId != log.sent[k].sync.sequenceId
    {
      EpochIds(log, j);
      EpochIds(log, k);
    }
  }

  // ---- Chains of any length ----

  /** The timing fields, which every machine between a receiver and a sender copies. */
  predicate Copied(d: MDSync, to: MDSync) {
    && to.preciseOrigin == d.preciseOrigin && to.correction == d.correction
    && to.upstreamTxTime == d.upstreamTxTime
  }

  /** The sender's data i is an indication the master clock made at true time `at`. */
  predicate Indicated(l: Link, i: int, c: M.Config, at: int)
    requires |l.tags| == |l.sender.received| && 0 <= i < |l.tags|
  {
    var src := l.tags[i].src;
    && c.masterTime == src.time == c.localTime == ClockAt(src.at, l.from)
    && Even(src.time) && Even(ClockAt(at, l.from))
    && l.tags[i] == Tag(src, at - CLOCK_PERIOD * (Cycle(at, l.from) - Cycle(src.at, l.from)), Cycle(src.at, l.from))
    && Copied(M.MakeIndication(c, ClockAt(at, l.from)).data, l.sender.received[i])
  }

  ghost predicate FromGrandmaster(l: Link)
    requires |l.tags| == |l.sender.received|
  {
    forall i :: 0 <= i < |l.tags| ==> IsIndication(l, i)
  }

  ghost predicate IsIndication(l: Link, i: int)
    requires |l.tags| == |l.sender.received| && 0 <= i < |l.tags|
  {
    exists c: M.Config, at: int :: Indicated(l, i, c, at)
  }

  /** The node between two links hands on what it received, any of it, any number of times. */
  predicate Follows(l: Link, next: Link)
    requires |l.egress| == |l.sender.sent| && |next.tags| == |next.sender.received|
  {
    && next.from == l.to && |next.origin| == |next.tags|
    && forall i :: 0 <= i < |next.tags| ==>
         && next.origin[i] < |l.receiver.emitted|
         && Copied(l.receiver.emitted[next.origin[i]].data, next.sender.received[i])
         && (IsFollowUp(l, FollowUpOf(l, next.origin[i])) ==> next.tags[i] == EmissionTag(l, next.origin[i]))
  }

  /** The first link begins at the grandmaster, every other one at the node the link before it ends at. */
  ghost predicate Connected(links: seq<Link>, n: nat)
    requires n < |links| && Works(links[n]) && (n > 0 ==> Works(links[n - 1]))
  {
    if n == 0 then FromGrandmaster(links[0]) else Follows(links[n - 1], links[n])
  }

  ghost predicate Chain(links: seq<Link>) {
    && (forall n :: 0 <= n < |links| ==> Works(links[n]))
    && (forall n :: 0 <= n < |links| ==> Connected(links, n))
  }

  /** Data i of the sender of link n descends from Follow_Ups that were all in time. */
  ghost predicate DataInTime(links: seq<Link>, n: nat, i: int)
    requires Chain(links) && n < |links| && 0 <= i < |links[n].sender.received|
    decreases n, 0
  {
    n == 0 || (assert Connected(links, n); EmissionInTime(links, n - 1, links[n].origin[i]))
  }

  /** Emission e of the receiver of link n does. */
  ghost predicate EmissionInTime(links: seq<Link>, n: nat, e: nat)
    requires Chain(links) && n < |links| && e < |links[n].receiver.emitted|
    decreases n, 1
  {
    EmissionTells(links[n], e);
    var k := FollowUpOf(links[n], e);
    FollowUpInTime(links[n], k) && DataInTime(links, n, links[n].sender.sent[k].source)
  }

  lemma CopiedCarries(tag: Tag, d: MDSync, to: MDSync, offset: int)
    requires Told(tag, d, offset) && Copied(d, to)
    ensures Told(tag, to, offset)
  {
  }

  lemma {:induction false} DataIsTold(links: seq<Link>, n: nat, i: int)
    requires Chain(links) && n < |links| && 0 <= i < |links[n].sender.received| && DataInTime(links, n, i)
    ensures Told(links[n].tags[i], links[n].sender.received[i], links[n].from)
    decreases n, 0
  {
    hide SenderRan, ReceiverRan, DistinctIds, StampsTrue, FramesArrive, DelayKnown, Told, Copied, ClockAt, M.MakeIndication;
    var l := links[n];
    if n == 0 {
      assert Connected(links, n);
      assert IsIndication(l, i);
      var c: M.Config, at: int :| Indicated(l, i, c, at);
      IndicationTold(l, i, c, at);
      CopiedCarries(l.tags[i], M.MakeIndication(c, ClockAt(at, l.from)).data, l.sender.received[i], l.from);
    } else {
      assert Connected(links, n);
      EmissionIsTold(links, n - 1, l.origin[i]);
      CopiedCarries(l.tags[i], links[n - 1].receiver.emitted[l.origin[i]].data, l.sender.received[i], l.from);
    }
  }

  lemma IndicationTold(l: Link, i: int, c: M.Config, at: int)
    requires |l.tags| == |l.sender.received| && 0 <= i < |l.tags| && Indicated(l, i, c, at)
    ensures Told(l.tags[i], M.MakeIndication(c, ClockAt(at, l.from)).data, l.from)
    ensures Copied(M.MakeIndication(c, ClockAt(at, l.from)).data, l.sender.received[i])
  {
    hide Carries, ClockAt, M.MakeIndication, Cycle, Even, Copied;
    IndicationCarries(l.tags[i].src, c, l.from, at);
  }

  lemma {:induction false} EmissionIsTold(links: seq<Link>, n: nat, e: nat)
    requires Chain(links) && n < |links| && e < |links[n].receiver.emitted| && EmissionInTime(links, n, e)
    ensures IsFollowUp(links[n], FollowUpOf(links[n], e))
    ensures Told(EmissionTag(links[n], e), links[n].receiver.emitted[e].data, links[n].to)
    decreases n, 1
  {
    hide SenderRan, ReceiverRan, DistinctIds, StampsTrue, FramesArrive, DelayKnown, Told, FollowUpInTime, DataInTime;
    var l := links[n];
    EmissionTells(l, e);
    DataIsTold(links, n, l.sender.sent[FollowUpOf(l, e)].source);
    assert TagOf(l, FollowUpOf(l, e)) == l.tags[l.sender.sent[FollowUpOf(l, e)].source];
  }

  /**
    From the grandmaster's indications over any number of nodes, whatever their runs: a Follow_Up whose
    data came in time so far tells the grandmaster's time at its own Sync's egress, less the fraction
    of a nanosecond of the source time, exactly if the data was in time for that Sync too.
   */
  lemma GrandmasterTimeIsCarried(links: seq<Link>, n: nat, k: int)
    requires Chain(links) && n < |links| && IsFollowUp(links[n], k)
    ensures 0 <= links[n].sender.sent[k].source < |links[n].sender.received|
    ensures DataInTime(links, n, links[n].sender.sent[k].source) ==>
              (TellsEgress(TagOf(links[n], k).src, links[n].sender.sent[k].followUp, links[n].egress[k - 1])
               <==> FollowUpInTime(links[n], k))
  {
    hide SenderRan, ReceiverRan, DistinctIds, StampsTrue, FramesArrive, DelayKnown, Told, FollowUpInTime, DataInTime, TellsEgress;
    var l := links[n];
    SentFollowUpTells(l, k);
    var i := l.sender.sent[k].source;
    if DataInTime(links, n, i) {
      DataIsTold(links, n, i);
      assert TagOf(l, k) == l.tags[i];
    }
  }

  // ---- The slave clock at the end ----

  /** A clock reading with the offset written for it applied. */
  function Corrected(reading: UScaledNs, o: C.Offset): int {
    if o.add then Value(reading) + Value(o.amount) else Value(reading) - Value(o.amount)
  }

  /**
    The receipt pairs the clock's reading at the arrival of the Sync with the grandmaster's time of
    that instant, so the offset written turns the one into the other: exactly up to the source time's
    fraction, which is less than one nanosecond.
   */
  lemma SlaveOffsetIsTrue(src: Source, p: PortSyncSync, offset: int, at: int, delay: nat, rate: C.Rate)
    requires Carries(src, p.data, offset, at) && src.at <= at && Even(OfValue(delay))
    requires p.localPort != 0 && src.Gm(at + delay) < TWO96
    ensures var receipt := C.Receipt(p, C.Inputs(OfValue(delay), rate));
            && receipt.second == OfValue(at + delay + offset)
            && Corrected(receipt.second, C.OffsetOf(receipt.first, receipt.second)) == src.Gm(at + delay) - src.Fraction()
            && src.Gm(at + delay) - TWO16 < src.Gm(at + delay) - src.Fraction() <= src.Gm(at + delay)
  {
    hide Add, Value, OfValue, FromPtp, C.OffsetOf;
    ValueRange(src.time);
    EvenPtp(p.data.preciseOrigin);
    SmallRemainder(at - src.at);
    AddEven(FromPtp(p.data.preciseOrigin), p.data.correction);
    SmallRemainder(delay);
    AddEven(Add(FromPtp(p.data.preciseOrigin), p.data.correction), OfValue(delay));
    SumOfCounts(at + offset, delay);
    assert at + offset + delay == at + delay + offset;
  }

  lemma ValueRange(t: UScaledNs)
    ensures Value(t) >= t.subns
  {
  }

  lemma EvenPtp(p: PtpTimestamp)
    ensures Even(FromPtp(p))
  {
  }

  /** What a slave at rest does with data it takes: one more offset, that of the receipt. */
  lemma OffsetIsWritten(m: C.Machine, i: C.Inputs, p: PortSyncSync)
    requires C.AtRest(m) && !C.Lost(m)
    ensures C.Handle(m, C.RecvPss(i, p)).log.offsets
            == m.log.offsets + [C.OffsetOf(C.Receipt(p, i).first, C.Receipt(p, i).second)]
  {
    hide C.Receipt, C.OffsetOf, C.AtRest, C.Indicated, C.Handle;
    C.PssTakenOnce(m, i, p);
    C.IndicatedEffects(m.(pss := p, rcvdPss := true), i);
  }

  /**
    The whole way, over any number of nodes: a slave given an emission of the last receiver, whose
    data was in time on every link, writes an offset that makes its clock's reading, at the moment
    the Sync arrived, the grandmaster's time within 1 ns.
   */
  lemma SlaveFollowsGrandmaster(links: seq<Link>, n: nat, e: nat, m: C.Machine, p: PortSyncSync, rate: C.Rate)
    requires Chain(links) && n < |links| && e < |links[n].receiver.emitted| && EmissionInTime(links, n, e)
    requires C.AtRest(m) && !C.Lost(m) && p.localPort != 0 && Copied(links[n].receiver.emitted[e].data, p.data)
    requires links[n].delay < TWO80
    ensures IsFollowUp(links[n], FollowUpOf(links[n], e))
    ensures var k := FollowUpOf(links[n], e);
            var arrival, src := Arrival(links[n], k - 1), TagOf(links[n], k).src;
            var offsets := C.Handle(m, C.RecvPss(C.Inputs(OfValue(links[n].delay), rate), p)).log.offsets;
            && |offsets| == |m.log.offsets| + 1 && m.log.offsets <= offsets
            && src.Gm(arrival) - TWO16 < Corrected(ClockAt(arrival, links[n].to), offsets[|m.log.offsets|]) <= src.Gm(arrival)
  {
    hide SenderRan, ReceiverRan, DistinctIds, StampsTrue, FramesArrive, Told, DataInTime, Carries, OfValue, Cycle;
    hide C.Receipt, C.OffsetOf, Corrected, C.Handle, C.AtRest;
    var l := links[n];
    EmissionIsTold(links, n, e);
    var k := FollowUpOf(l, e);
    var tag := EmissionTag(l, e);
    CopiedCarries(tag, l.receiver.emitted[e].data, p.data, l.to);
    var offset := l.to - CLOCK_PERIOD * tag.cycle;
    assert tag.at + l.delay + offset == Arrival(l, k - 1) + l.to - CLOCK_PERIOD * Cycle(Arrival(l, k - 1), l.to);
    InEraOf(tag, p.data, l.to);
    EraIsSmall(tag.src, tag.at + l.delay);
    SlaveOffsetIsTrue(tag.src, p, offset, tag.at, l.delay, rate);
    OffsetIsWritten(m, C.Inputs(OfValue(l.delay), rate), p);
  }

  lemma EraIsSmall(src: Source, t: int)
    requires src.InEra() && t < src.at + TWO64 + TWO80
    ensures src.Gm(t) < TWO96
  {
  }
}
