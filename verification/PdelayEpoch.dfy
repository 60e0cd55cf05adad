/**
  One enabled epoch of the peer-delay requester, seen against what really happened on the link.

  `physics` says what the timestamping units of the two nodes record for the exchange with a given
  sequence id: departure and arrival of the request (t1, t2), departure and arrival of the response
  (t3, t4). Within one enabled epoch of fewer than 2^16 requests every id belongs to one exchange.
 */
module PdelayEpoch {
  import opened Words
  import opened ScaledTime
  import opened PtpMessages
  import Q = PdelayRequester
  import R = PdelayRequesterRuns

  type Physics = u16 -> Q.Stamps

  /** A timestamp after it has travelled in a message. */
  function OnWire(t: UScaledNs): UScaledNs { FromPtp(ToPtp(t)) }

  /** What the requester ought to compute with for exchange `id`. */
  function Expected(physics: Physics, id: u16): Q.Stamps {
    var s := physics(id);
    Q.Stamps(s.t1, OnWire(s.t2), OnWire(s.t3), s.t4)
  }

  /** The epoch: who asks, the id it drew for its first request, and where its logs stood then. */
  datatype Epoch = Epoch(self: PortIdentity, firstId: u16, sent0: nat, measured0: nat)
  {
    /** Sequence id of the k-th request of the epoch. */
    function Id(k: int): u16 { (firstId + k) % TWO16 }

    /** Position of a sequence id in the epoch. */
    function Ordinal(id: u16): (k: u16) { (id - firstId) % TWO16 }
  }

  lemma OrdinalOfId(e: Epoch, k: int)
    requires 0 <= k < TWO16
    ensures e.Ordinal(e.Id(k)) == k
  {
  }

  // ---- The invariant ----

  /** What a run of the requester may rely on; `stale` while t4 is not yet that of the last response. */
  datatype View = View(epoch: Epoch, physics: Physics, seenResp: int, seenFollowUp: int, stale: bool)

  function Count(e: Epoch, a: Q.Machine): int { |a.log.sent| - e.sent0 }

  predicate IdsConsecutive(e: Epoch, sent: seq<Q.SentReq>) {
    forall k :: e.sent0 <= k < |sent| ==> sent[k].id == e.Id(k - e.sent0)
  }

  predicate RespKnown(v: View, a: Q.Machine) {
    v.seenResp >= 0 ==>
      var id := v.epoch.Id(v.seenResp);
      && a.inbox.resp.sequenceId == id && a.inbox.resp.requesting == v.epoch.self
      && a.stamps.t2 == OnWire(v.physics(id).t2)
      && (!v.stale ==> a.stamps.t4 == v.physics(id).t4)
  }

  predicate FollowUpKnown(v: View, a: Q.Machine) {
    v.seenFollowUp >= 0 ==>
      var id := v.epoch.Id(v.seenFollowUp);
      a.inbox.followUp.sequenceId == id && a.stamps.t3 == OnWire(v.physics(id).t3)
  }

  predicate AllMeasuredRight(e: Epoch, physics: Physics, measured: seq<Q.Measurement>) {
    forall k :: e.measured0 <= k < |measured| ==>
      measured[k].stamps == Expected(physics, measured[k].id) && R.Computed(measured[k])
  }

  predicate ConfigOfEpoch(e: Epoch, c: Q.Config) {
    c.Enabled() && PortIdentity(c.thisClock, c.thisPort) == e.self
  }

  predicate Sequencing(v: View, a: Q.Machine) {
    var n := Count(v.epoch, a);
    && 1 <= n && -1 <= v.seenResp < n && -1 <= v.seenFollowUp < n && v.epoch.measured0 <= |a.log.measured|
    && (v.stale ==> v.seenFollowUp < v.seenResp)
    && IdsConsecutive(v.epoch, a.log.sent)
    && a.request.sequenceId == a.request.txSequenceId == v.epoch.Id(n - 1)
    && (a.inbox.rcvdResp ==> v.seenResp >= 0) && (a.inbox.rcvdFollowUp ==> v.seenFollowUp >= 0)
    && (a.state == Q.WaitingForFollowUp ==> v.seenResp == n - 1)
    && (a.state == Q.WaitingForInterval && R.Entering(a) ==> v.seenResp == v.seenFollowUp == n - 1)
  }

  predicate T1Known(v: View, a: Q.Machine) {
    a.stamps.t1 == v.physics(a.request.txSequenceId).t1
  }

  predicate StateOfEpoch(v: View, a: Q.Machine) {
    && (R.PastSend(a.state) || a.state == Q.SendReq || (a.state == Q.InitialSend && !R.Entering(a)))
    && (R.PastSend(a.state) ==> T1Known(v, a))
    && (a.inbox.rcvdTxTimestamp ==>
          || ((a.state == Q.SendReq || a.state == Q.InitialSend) && !R.Entering(a) && T1Known(v, a))
          || (a.state == Q.WaitingForResp && R.Entering(a)))
  }

  /** The process has ended: it is over the outstanding exchange's own timestamps. */
  predicate Ended(v: View, a: Q.Machine) {
    && !v.stale && 1 <= Count(v.epoch, a) && v.epoch.measured0 <= |a.log.measured|
    && IdsConsecutive(v.epoch, a.log.sent) && AllMeasuredRight(v.epoch, v.physics, a.log.measured)
    && a.stamps == Expected(v.physics, a.request.txSequenceId) && R.ExitExplained(a)
  }

  predicate Body(v: View, a: Q.Machine) {
    && Sequencing(v, a) && StateOfEpoch(v, a)
    && RespKnown(v, a) && FollowUpKnown(v, a)
    && AllMeasuredRight(v.epoch, v.physics, a.log.measured)
  }

  /** In the middle of a run, as long as no sequence id of the epoch has been used twice. */
  predicate RequesterInv(v: View, a: Q.Machine) {
    ConfigOfEpoch(v.epoch, a.config) && (Count(v.epoch, a) <= TWO16 ==> if a.report.exited then Ended(v, a) else Body(v, a))
  }

  predicate RequesterAtRest(v: View, a: Q.Machine) {
    RequesterInv(v, a) && !R.Entering(a) && (Count(v.epoch, a) <= TWO16 ==> a.report.exited || !a.inbox.rcvdTxTimestamp)
  }

  lemma NextId(e: Epoch, k: int)
    requires 0 <= k
    ensures (e.Id(k) + 1) % TWO16 == e.Id(k + 1)
  {
  }

  lemma SendKeeps(v: View, a: Q.Machine, now: UScaledNs)
    requires Body(v, a) && !a.report.exited && a.state == Q.SendReq && R.Entering(a) && Count(v.epoch, a) < TWO16
    ensures var r := Q.SendReqAction(a.(lastState := a.state), now);
            Body(v, r) && !r.inbox.rcvdTxTimestamp && r.report == a.report && r.config == a.config
  {
    NextId(v.epoch, Count(v.epoch, a) - 1);
  }

  /** A measurement is entered only with all four timestamps of the outstanding exchange in place. */
  lemma MeasureKeeps(v: View, a: Q.Machine, e: Q.RateEstimate)
    requires Body(v, a) && !a.report.exited && a.state == Q.WaitingForInterval && R.Entering(a)
    ensures var r := Q.IntervalAction(a.(lastState := a.state), e);
            Body(v, r) && (r.report.exited ==> Ended(v, r)) && r.config == a.config
  {
    hide Q.IntervalAction, Q.ComputePropTime, OnWire;
    var m := a.(lastState := a.state);
    R.IntervalActionEffects(m, e);
    assert a.stamps == Expected(v.physics, a.request.txSequenceId);
  }

  lemma OtherActionKeeps(v: View, a: Q.Machine, i: Q.Inputs)
    requires Body(v, a) && !a.report.exited && R.Entering(a)
    requires a.state == Q.WaitingForResp || a.state == Q.WaitingForFollowUp || a.state == Q.Reset
    ensures var r := Q.EntryAction(a.(lastState := a.state), i);
            Body(v, r) && r.report.exited == a.report.exited && r.config == a.config
            && (a.state == Q.WaitingForResp ==> !r.inbox.rcvdTxTimestamp)
  {
    hide OnWire;
  }

  lemma ActionKeeps(v: View, a: Q.Machine, i: Q.Inputs)
    requires Body(v, a) && ConfigOfEpoch(v.epoch, a.config) && !a.report.exited
    requires a.state == Q.SendReq && R.Entering(a) ==> Count(v.epoch, a) < TWO16
    ensures var r := if R.Entering(a) then Q.EntryAction(a.(lastState := a.state), i) else a;
            Body(v, r) && (r.report.exited ==> Ended(v, r)) && r.config == a.config && !R.Entering(r)
  {
    hide Q.IntervalAction, Q.SendReqAction, Sequencing, RespKnown, FollowUpKnown, AllMeasuredRight, Expected, R.ExitExplained;
    if R.Entering(a) {
      var entered := a.(lastState := a.state);
      R.EntryActionState(entered, i);
      if a.state == Q.SendReq {
        SendKeeps(v, a, i.now);
        assert Q.EntryAction(entered, i) == Q.SendReqAction(entered, i.now);
      } else if a.state == Q.WaitingForInterval {
        MeasureKeeps(v, a, i.estimate);
        assert Q.EntryAction(entered, i) == Q.IntervalAction(entered, i.estimate);
      } else {
        OtherActionKeeps(v, a, i);
      }
    }
  }

  /** Equal ids within the epoch are the same request: this is where 2^16 requests are the limit. */
  lemma SameIdSameRequest(v: View, a: Q.Machine, k: int)
    requires 0 <= k < Count(v.epoch, a) <= TWO16 && v.epoch.Id(k) == v.epoch.Id(Count(v.epoch, a) - 1)
    ensures k == Count(v.epoch, a) - 1
  {
    OrdinalOfId(v.epoch, k);
    OrdinalOfId(v.epoch, Count(v.epoch, a) - 1);
  }

  lemma SuccessorKeeps(v: View, a: Q.Machine, now: UScaledNs)
    requires Body(v, a) && !R.Entering(a) && Count(v.epoch, a) <= TWO16 && ConfigOfEpoch(v.epoch, a.config)
    ensures Body(v, a.(state := Q.Successor(a, now)))
    ensures Q.Successor(a, now) == a.state ==> !a.inbox.rcvdTxTimestamp
    ensures a.state == Q.SendReq || Q.Successor(a, now) != Q.SendReq || !a.inbox.rcvdTxTimestamp
  {
    hide OnWire, Q.IntervalElapsed, IdsConsecutive, AllMeasuredRight, Epoch.Id;
    var next := Q.Successor(a, now);
    if a.state == Q.WaitingForResp && next == Q.WaitingForFollowUp {
      SameIdSameRequest(v, a, v.seenResp);
    }
    if a.state == Q.WaitingForFollowUp && next == Q.WaitingForInterval {
      SameIdSameRequest(v, a, v.seenFollowUp);
    }
  }

  lemma SendCounts(a: Q.Machine, i: Q.Inputs)
    requires a.state == Q.SendReq && R.Entering(a)
    ensures |Q.Turn(a, i).log.sent| == |a.log.sent| + 1
  {
  }

  lemma TurnKeepsRequester(v: View, a: Q.Machine, i: Q.Inputs)
    requires RequesterInv(v, a) && !a.report.exited
    ensures RequesterInv(v, Q.Turn(a, i))
    ensures Q.Quiescent(Q.Turn(a, i)) ==> RequesterAtRest(v, Q.Turn(a, i))
  {
    hide Q.EntryAction, Q.Successor, Body, Ended;
    R.TurnGrows(a, i);
    R.EntryActionState(a.(lastState := a.state), i);
    if Count(v.epoch, Q.Turn(a, i)) <= TWO16 {
      if a.state == Q.SendReq && R.Entering(a) {
        SendCounts(a, i);
      }
      ActionKeeps(v, a, i);
      var acted := if R.Entering(a) then Q.EntryAction(a.(lastState := a.state), i) else a;
      assert Q.Turn(a, i) == if acted.report.exited then acted else acted.(state := Q.Successor(acted, i.now));
      if !acted.report.exited {
        SuccessorKeeps(v, acted, i.now);
      }
    }
  }

  lemma {:induction false} RunLoopKeepsRequester(v: View, a: Q.Machine, i: Q.Inputs)
    requires RequesterInv(v, a) && !a.report.exited
    ensures RequesterAtRest(v, Q.RunLoop(a, i))
    decreases Q.Measure(a)
  {
    hide Q.Turn, RequesterInv, RequesterAtRest;
    TurnKeepsRequester(v, a, i);
    Q.TurnMakesProgress(a, i);
    if !Q.Quiescent(Q.Turn(a, i)) {
      RunLoopKeepsRequester(v, Q.Turn(a, i), i);
    }
  }

  lemma RunKeepsRequester(v: View, a: Q.Machine, i: Q.Inputs)
    requires RequesterInv(v, a) && !a.report.exited
    ensures RequesterAtRest(v, Q.RunToRest(a, i))
  {
    hide Q.RunLoop, Body;
    RunLoopKeepsRequester(v, a, i);
  }

  // ---- Events ----

  lemma TickKeepsRequester(v: View, a: Q.Machine, i: Q.Inputs)
    requires RequesterAtRest(v, a)
    ensures RequesterAtRest(v, Q.Handle(a, Q.Tick(i)))
  {
    hide Q.RunToRest, RequesterInv;
    if !a.report.exited {
      RunKeepsRequester(v, a, i);
    }
  }

  /** The timestamping unit reports when the request with this id left; the machine may refuse it. */
  lemma StampKeepsRequester(v: View, a: Q.Machine, i: Q.Inputs, id: u16)
    requires RequesterAtRest(v, a)
    ensures RequesterAtRest(v, Q.Handle(a, Q.TxTimestamp(i, TsuTimestamp(v.physics(id).t1, id))))
  {
    hide Q.RunToRest, OnWire, IdsConsecutive, AllMeasuredRight, Epoch.Id;
    var stamp := TsuTimestamp(v.physics(id).t1, id);
    if !a.report.exited && Q.Awaits(a, stamp) {
      RunKeepsRequester(v, Q.Accept(a, stamp), i);
    }
  }

  /** The response to the k-th request, with the receipt time the responder's unit recorded. */
  predicate RespOf(v: View, resp: PdelayResp, k: int) {
    && resp.sequenceId == v.epoch.Id(k) && resp.requesting == v.epoch.self
    && resp.requestReceipt == ToPtp(v.physics(v.epoch.Id(k)).t2)
  }

  lemma TakeRespKeeps(v: View, a: Q.Machine, resp: PdelayResp, k: int)
    requires RequesterAtRest(v, a) && !v.stale && !a.report.exited && RespOf(v, resp, k)
    requires v.seenResp < k && v.seenFollowUp < k && 0 <= k < Count(v.epoch, a)
    ensures RequesterInv(v.(seenResp := k, stale := true), Q.TakeResp(a, resp))
  {
    hide ToPtp, FromPtp, IdsConsecutive, AllMeasuredRight, Epoch.Id;
  }

  /** t4 is stored after the run that the response started, in time for any later one. */
  lemma StoreT4Keeps(v: View, a: Q.Machine)
    requires RequesterAtRest(v, a) && v.stale && v.seenResp >= 0
    requires Count(v.epoch, a) <= TWO16
    ensures !a.report.exited
    ensures RequesterAtRest(v.(stale := false), a.(stamps := a.stamps.(t4 := v.physics(v.epoch.Id(v.seenResp)).t4)))
  {
    hide IdsConsecutive, AllMeasuredRight, Epoch.Id, OnWire;
  }

  lemma RespKeepsRequester(v: View, a: Q.Machine, i: Q.Inputs, resp: PdelayResp, k: int)
    requires RequesterAtRest(v, a) && !v.stale && RespOf(v, resp, k)
    requires v.seenResp < k && v.seenFollowUp < k && 0 <= k < Count(v.epoch, a)
    ensures RequesterAtRest(v.(seenResp := k),
                            Q.Handle(a, Q.RecvResp(i, v.physics(v.epoch.Id(k)).t4, resp)))
  {
    hide Q.RunToRest, RespOf, Body, AllMeasuredRight, IdsConsecutive, Expected, R.ExitExplained;
    if !a.report.exited {
      var during := v.(seenResp := k, stale := true);
      TakeRespKeeps(v, a, resp, k);
      RunKeepsRequester(during, Q.TakeResp(a, resp), i);
      var r := Q.RunToRest(Q.TakeResp(a, resp), i);
      if Count(v.epoch, r) <= TWO16 {
        StoreT4Keeps(during, r);
        assert during.(stale := false) == v.(seenResp := k);
      }
    }
  }

  predicate FollowUpOf(v: View, followUp: PdelayRespFollowUp, k: int) {
    followUp.sequenceId == v.epoch.Id(k) && followUp.responseOrigin == ToPtp(v.physics(v.epoch.Id(k)).t3)
  }

  lemma FollowUpKeepsRequester(v: View, a: Q.Machine, i: Q.Inputs, followUp: PdelayRespFollowUp, k: int)
    requires RequesterAtRest(v, a) && !v.stale && FollowUpOf(v, followUp, k)
    requires v.seenFollowUp < k && 0 <= k < Count(v.epoch, a)
    ensures RequesterAtRest(v.(seenFollowUp := k), Q.Handle(a, Q.RecvFollowUp(i, followUp)))
  {
    hide Q.RunToRest, ToPtp, FromPtp, IdsConsecutive, AllMeasuredRight, Epoch.Id;
    if !a.report.exited {
      RunKeepsRequester(v.(seenFollowUp := k), Q.TakeFollowUp(a, followUp), i);
    }
  }

  // ---- Where an epoch comes from ----

  /** Enabling the port starts an epoch, whatever messages and flags the last one left behind. */
  lemma EpochBegins(a: Q.Machine, i: Q.Inputs, physics: Physics)
    requires a.state == Q.NotEnabled && !a.report.exited && a.config.Enabled()
    ensures var r := Q.RunToRest(a, i);
            var e := Epoch(PortIdentity(a.config.thisClock, a.config.thisPort), i.random,
                           |a.log.sent|, |a.log.measured|);
            r.log.sent == a.log.sent + [Q.SentReq(i.random, i.now, true)]
            && RequesterAtRest(View(e, physics, -1, -1, false), r)
  {
    hide Q.Turn;
    var m := a.(lastState := Q.NotEnabled, state := Q.InitialSend);
    var sending := m.(lastState := Q.InitialSend);
    var r := Q.InitialSendAction(sending, i);
    EpochTurns(a, i);
    assert Q.RunToRest(a, i) == Q.RunLoop(a, i);
    assert Q.RunLoop(a, i) == Q.RunLoop(m, i);
    assert Q.RunLoop(m, i) == r;
  }

  lemma EpochTurns(a: Q.Machine, i: Q.Inputs)
    requires a.state == Q.NotEnabled && !a.report.exited && a.config.Enabled()
    ensures var m := a.(lastState := Q.NotEnabled, state := Q.InitialSend);
            && Q.Turn(a, i) == m
            && Q.Turn(m, i) == Q.InitialSendAction(m.(lastState := Q.InitialSend), i)
  {
    hide Q.IntervalElapsed;
  }
}
