/**
  Whole exchanges of the peer-delay requester: which prompt ones yield a measurement, and what
  happens over many rounds.

  rcvdPdelayResp is not cleared when a request is sent, so a response that arrives while the
  machine waits to send is taken for an answer to the next request.
 */
module PdelayExchanges {
  import opened Words
  import opened ScaledTime
  import opened PtpMessages
  import opened PdelayRequester
  import Steps = PdelaySteps

  /** At rest with a request out whose departure is still to be reported. */
  predicate RequestOut(m: Machine) {
    && m.config.Enabled() && !m.report.exited && m.state == m.lastState
    && (m.state == SendReq || m.state == InitialSend)
    && !m.inbox.rcvdTxTimestamp && m.request.sequenceId == m.request.txSequenceId
  }

  /** No follow-up is held that claims to belong to a request still unanswered. */
  predicate NoEarlyFollowUp(m: Machine) {
    m.inbox.rcvdFollowUp ==> m.inbox.followUp.sequenceId != m.request.txSequenceId
  }

  /** The receive flag announces the response to an earlier request. */
  predicate Belated(m: Machine) {
    RequestOut(m) && m.inbox.rcvdResp && m.inbox.resp.sequenceId != m.request.txSequenceId
  }

  /** Waiting in RESET for the interval to end. */
  predicate InReset(m: Machine) {
    && m.config.Enabled() && !m.report.exited && m.state == m.lastState == Reset && !m.inbox.rcvdTxTimestamp
    && m.request.sequenceId == m.request.txSequenceId
  }

  predicate OnTime(m: Machine, now: UScaledNs) { !IntervalElapsed(m.request, m.config, now) }

  /** The events of an exchange: the request's departure, its answers, the end of the interval. */
  datatype Exchange = Exchange(
    stamped: Inputs, t1: UScaledNs,
    answered: Inputs, ingress: UScaledNs, resp: PdelayResp,
    followed: Inputs, followUp: PdelayRespFollowUp,
    due: Inputs)

  /** Every message has the request's id and comes within the interval. */
  predicate Timely(m: Machine, x: Exchange) {
    && x.resp.sequenceId == m.request.txSequenceId == x.followUp.sequenceId
    && OnTime(m, x.stamped.now) && OnTime(m, x.answered.now) && OnTime(m, x.followed.now)
    && !OnTime(m, x.due.now)
  }

  /** And the response is addressed to this port. */
  predicate Answers(m: Machine, x: Exchange) {
    Timely(m, x) && x.resp.requesting == PortIdentity(m.config.thisClock, m.config.thisPort)
  }

  function Stamped(m: Machine, x: Exchange): Machine {
    Handle(m, TxTimestamp(x.stamped, TsuTimestamp(x.t1, m.request.txSequenceId)))
  }

  /** The exchange up to its follow-up. */
  function Completed(m: Machine, x: Exchange): Machine {
    Handle(Handle(Stamped(m, x), RecvResp(x.answered, x.ingress, x.resp)), RecvFollowUp(x.followed, x.followUp))
  }

  /** The whole exchange, to the next request. */
  function Round(m: Machine, x: Exchange): Machine { Handle(Completed(m, x), Tick(x.due)) }

  predicate SameRequest(m: Machine, r: Machine) {
    && r.config == m.config && r.log.measured == m.log.measured
    && r.request == m.request.(lostResponses := r.request.lostResponses)
  }

  /** A run ends where Outcome says, and the interval is over when it says so. */
  lemma RunEndsAs(m: Machine, i: Inputs)
    requires Steps.Received(m)
    ensures RunToRest(m, i) == Steps.Outcome(m, i) && (Steps.Late(m, i.now) <==> !OnTime(m, i.now))
  {
    Steps.RunIsOutcome(m, i);
    Steps.LateMeansElapsed(m, i.now);
  }

  // ---- With a response held from before ----

  lemma StampLeadsToReset(m: Machine, i: Inputs, t1: UScaledNs)
    requires RequestOut(m) && m.inbox.rcvdResp && !RespIsOurs(m) && OnTime(m, i.now)
    ensures var r := Handle(m, TxTimestamp(i, TsuTimestamp(t1, m.request.txSequenceId)));
            InReset(r) && SameRequest(m, r)
  {
    hide RunToRest, Value, IntervalElapsed, IntervalAction, FromPtp;
    RunEndsAs(Accept(m, TsuTimestamp(t1, m.request.txSequenceId)), i);
  }

  lemma MessagesWaitInReset(m: Machine, i: Inputs, ingress: UScaledNs, resp: PdelayResp, followUp: PdelayRespFollowUp)
    requires InReset(m) && OnTime(m, i.now)
    ensures var r := Handle(m, RecvResp(i, ingress, resp));
            InReset(r) && SameRequest(m, r) && r.inbox.rcvdResp && r.inbox.resp == resp
    ensures var r := Handle(m, RecvFollowUp(i, followUp));
            InReset(r) && SameRequest(m, r) && r.inbox.rcvdResp == m.inbox.rcvdResp && r.inbox.resp == m.inbox.resp
  {
    hide RunToRest, Value, IntervalElapsed, IntervalAction, FromPtp;
    RunEndsAs(TakeResp(m, resp), i);
    RunEndsAs(TakeFollowUp(m, followUp), i);
  }

  lemma DueSendsAgain(m: Machine, i: Inputs)
    requires InReset(m) && !OnTime(m, i.now)
    requires m.inbox.rcvdResp && m.inbox.resp.sequenceId == m.request.txSequenceId
    ensures Belated(Handle(m, Tick(i))) && Handle(m, Tick(i)).log.measured == m.log.measured
  {
    hide RunToRest, Value, IntervalElapsed, IntervalAction, FromPtp;
    RunEndsAs(m, i);
  }

  function AfterRounds(m: Machine, exchanges: seq<Exchange>): Machine
    decreases |exchanges|
  {
    if exchanges == [] then m else AfterRounds(Round(m, exchanges[0]), exchanges[1..])
  }

  predicate AllTimely(m: Machine, exchanges: seq<Exchange>)
    decreases |exchanges|
  {
    hide Round;
    exchanges != [] ==> Timely(m, exchanges[0]) && AllTimely(Round(m, exchanges[0]), exchanges[1..])
  }

  lemma RoundStaysBelated(m: Machine, x: Exchange)
    requires Belated(m) && Timely(m, x)
    ensures Belated(Round(m, x)) && Round(m, x).log.measured == m.log.measured
  {
    hide Handle, Compare, Subtract;
    StampLeadsToReset(m, x.stamped, x.t1);
    var stamped := Stamped(m, x);
    MessagesWaitInReset(stamped, x.answered, x.ingress, x.resp, x.followUp);
    var answered := Handle(stamped, RecvResp(x.answered, x.ingress, x.resp));
    MessagesWaitInReset(answered, x.followed, x.ingress, x.resp, x.followUp);
    DueSendsAgain(Handle(answered, RecvFollowUp(x.followed, x.followUp)), x.due);
  }

  /** While an old response is held no exchange yields a measurement, as long as all are answered in time. */
  lemma {:induction false} BelatedForever(m: Machine, exchanges: seq<Exchange>)
    requires Belated(m) && AllTimely(m, exchanges)
    ensures Belated(AfterRounds(m, exchanges))
    ensures AfterRounds(m, exchanges).log.measured == m.log.measured
    decreases |exchanges|
  {
    hide Belated, Round, Timely;
    if exchanges != [] {
      RoundStaysBelated(m, exchanges[0]);
      BelatedForever(Round(m, exchanges[0]), exchanges[1..]);
    }
  }

  // ---- How a late response starts it ----

  /** The response to an earlier request arrives while a later one is out: it is held for it. */
  lemma LateWhileSending(m: Machine, i: Inputs, ingress: UScaledNs, resp: PdelayResp)
    requires RequestOut(m) && resp.sequenceId != m.request.txSequenceId
    ensures var r := Handle(m, RecvResp(i, ingress, resp)); Belated(r) && r.log.measured == m.log.measured
  {
    hide RunToRest, Value, IntervalElapsed, IntervalAction, FromPtp;
    RunEndsAs(TakeResp(m, resp), i);
  }

  /** It arrives while the response to the later one is awaited: the exchange is given up. */
  lemma LateWhileWaiting(m: Machine, i: Inputs, ingress: UScaledNs, resp: PdelayResp)
    requires m.config.Enabled() && !m.report.exited && m.state == m.lastState == WaitingForResp
    requires !m.inbox.rcvdTxTimestamp && m.request.sequenceId == m.request.txSequenceId
    requires resp.sequenceId != m.request.txSequenceId && OnTime(m, i.now)
    ensures var r := Handle(m, RecvResp(i, ingress, resp)); InReset(r) && SameRequest(m, r)
  {
    hide RunToRest, Value, IntervalElapsed, IntervalAction, FromPtp;
    RunEndsAs(TakeResp(m, resp), i);
  }

  /** One response to an earlier request, from rest with the next request out, and nothing is measured any more. */
  lemma OneLateResponse(m: Machine, late: Inputs, ingress: UScaledNs, resp: PdelayResp, exchanges: seq<Exchange>)
    requires RequestOut(m) && resp.sequenceId != m.request.txSequenceId
    requires AllTimely(Handle(m, RecvResp(late, ingress, resp)), exchanges)
    ensures AfterRounds(Handle(m, RecvResp(late, ingress, resp)), exchanges).log.measured == m.log.measured
  {
    hide Handle, Round, Timely;
    LateWhileSending(m, late, ingress, resp);
    BelatedForever(Handle(m, RecvResp(late, ingress, resp)), exchanges);
  }

  /** The same when it arrives a little later, while the next response is awaited and then comes in time. */
  lemma OneLateResponseWhileWaiting(m: Machine, late: Inputs, ingress: UScaledNs, resp: PdelayResp,
      x: Exchange, exchanges: seq<Exchange>)
    requires m.config.Enabled() && !m.report.exited && m.state == m.lastState == WaitingForResp
    requires !m.inbox.rcvdTxTimestamp && m.request.sequenceId == m.request.txSequenceId
    requires resp.sequenceId != m.request.txSequenceId && OnTime(m, late.now) && Timely(m, x)
    requires AllTimely(AfterLate(m, late, ingress, resp, x), exchanges)
    ensures AfterRounds(AfterLate(m, late, ingress, resp, x), exchanges).log.measured == m.log.measured
  {
    hide Handle, Round, Compare, Subtract;
    LateWhileWaiting(m, late, ingress, resp);
    var reset := Handle(m, RecvResp(late, ingress, resp));
    MessagesWaitInReset(reset, x.answered, x.ingress, x.resp, x.followUp);
    var answered := Handle(reset, RecvResp(x.answered, x.ingress, x.resp));
    MessagesWaitInReset(answered, x.followed, x.ingress, x.resp, x.followUp);
    DueSendsAgain(Handle(answered, RecvFollowUp(x.followed, x.followUp)), x.due);
    BelatedForever(AfterLate(m, late, ingress, resp, x), exchanges);
  }

  /** The late response, then the rest of the present exchange and the next request. */
  function AfterLate(m: Machine, late: Inputs, ingress: UScaledNs, resp: PdelayResp, x: Exchange): Machine {
    var reset := Handle(m, RecvResp(late, ingress, resp));
    var answered := Handle(reset, RecvResp(x.answered, x.ingress, x.resp));
    Handle(Handle(answered, RecvFollowUp(x.followed, x.followUp)), Tick(x.due))
  }

  // ---- Without one ----

  lemma StampAccepted(m: Machine, i: Inputs, t1: UScaledNs)
    requires RequestOut(m) && !m.inbox.rcvdResp && OnTime(m, i.now)
    ensures Handle(m, TxTimestamp(i, TsuTimestamp(t1, m.request.txSequenceId)))
            == Accept(m, TsuTimestamp(t1, m.request.txSequenceId))
               .(state := WaitingForResp, lastState := WaitingForResp, inbox := m.inbox)
  {
    hide RunToRest, Value, IntervalElapsed, IntervalAction, FromPtp;
    RunEndsAs(Accept(m, TsuTimestamp(t1, m.request.txSequenceId)), i);
  }

  lemma RespAccepted(m: Machine, i: Inputs, ingress: UScaledNs, resp: PdelayResp)
    requires m.config.Enabled() && !m.report.exited && m.state == m.lastState == WaitingForResp && OnTime(m, i.now)
    requires resp.sequenceId == m.request.txSequenceId && resp.requesting == PortIdentity(m.config.thisClock, m.config.thisPort)
    requires NoEarlyFollowUp(m) && !m.inbox.rcvdTxTimestamp
    ensures Handle(m, RecvResp(i, ingress, resp))
            == m.(state := WaitingForFollowUp, lastState := WaitingForFollowUp,
                  inbox := m.inbox.(rcvdResp := false, resp := resp),
                  stamps := m.stamps.(t2 := FromPtp(resp.requestReceipt), t4 := ingress))
  {
    hide RunToRest, Value, IntervalElapsed, IntervalAction, FromPtp;
    RunEndsAs(TakeResp(m, resp), i);
  }

  predicate AwaitsFollowUp(m: Machine) {
    && m.config.Enabled() && !m.report.exited && m.state == m.lastState == WaitingForFollowUp
    && !m.inbox.rcvdResp && !m.inbox.rcvdTxTimestamp
    && m.inbox.resp.requesting == PortIdentity(m.config.thisClock, m.config.thisPort)
  }

  /** The Follow_Up's run enters the interval state and leaves the entry action's result standing. */
  lemma FollowUpAccepted(m: Machine, i: Inputs, followUp: PdelayRespFollowUp)
    requires AwaitsFollowUp(m) && OnTime(m, i.now) && followUp.sequenceId == m.request.txSequenceId
    ensures Handle(m, RecvFollowUp(i, followUp))
            == IntervalAction(TakeFollowUp(m, followUp).(state := WaitingForInterval, lastState := WaitingForInterval), i.estimate)
  {
    hide RunToRest, Value, IntervalElapsed, IntervalAction, FromPtp;
    RunEndsAs(TakeFollowUp(m, followUp), i);
  }

  function StampsOf(x: Exchange): Stamps {
    Stamps(x.t1, FromPtp(x.resp.requestReceipt), FromPtp(x.followUp.responseOrigin), x.ingress)
  }

  /** The machine in which the answers of the exchange are judged. */
  function Answered(m: Machine, x: Exchange): Machine {
    m.(state := WaitingForInterval, lastState := WaitingForInterval, stamps := StampsOf(x),
       inbox := m.inbox.(rcvdResp := false, resp := x.resp, rcvdFollowUp := true, followUp := x.followUp),
       log := m.log.(accepted := m.log.accepted + [Accepted(TsuTimestamp(x.t1, m.request.txSequenceId), |m.log.sent| - 1)]))
  }

  lemma CompletedIs(m: Machine, x: Exchange)
    requires RequestOut(m) && !m.inbox.rcvdResp && NoEarlyFollowUp(m) && Answers(m, x)
    ensures Completed(m, x) == IntervalAction(Answered(m, x), x.followed.estimate)
  {
    hide Handle, IntervalElapsed, IntervalAction, FromPtp;
    StampAccepted(m, x.stamped, x.t1);
    RespAccepted(Stamped(m, x), x.answered, x.ingress, x.resp);
    var answered := Handle(Stamped(m, x), RecvResp(x.answered, x.ingress, x.resp));
    FollowUpAccepted(answered, x.followed, x.followUp);
  }

  /**
    A prompt, correct exchange that no old response interferes with is measured, once, with its own
    four timestamps; or they are ones computePropTime refuses, and the process ends.
   */
  lemma PromptExchangeMeasures(m: Machine, x: Exchange)
    requires RequestOut(m) && !m.inbox.rcvdResp && NoEarlyFollowUp(m) && Answers(m, x)
    requires m.config.computeMeanLinkDelay && !m.config.asymmetryMeasurementMode
    ensures var r := Completed(m, x);
            if r.report.exited then ComputePropTime(StampsOf(x), r.report.neighborRateRatio) == FatalExit
            else r.log.measured == m.log.measured + [Measurement(m.request.txSequenceId, StampsOf(x),
                                                                 r.report.neighborRateRatio, r.report.meanLinkDelay)]
                 && ComputePropTime(StampsOf(x), r.report.neighborRateRatio) == Delay(r.report.meanLinkDelay)
  {
    hide Completed, IntervalElapsed, IntervalAction, ComputePropTime, FromPtp;
    CompletedIs(m, x);
    IntervalMeasures(Answered(m, x), x.followed.estimate);
  }

  lemma IntervalMeasures(m: Machine, e: RateEstimate)
    requires !m.report.exited && m.config.computeMeanLinkDelay && !m.config.asymmetryMeasurementMode
    ensures var r := IntervalAction(m, e);
            if r.report.exited then ComputePropTime(m.stamps, r.report.neighborRateRatio) == FatalExit
            else r.log.measured == m.log.measured + [Measurement(m.request.txSequenceId, m.stamps,
                                                                 r.report.neighborRateRatio, r.report.meanLinkDelay)]
                 && ComputePropTime(m.stamps, r.report.neighborRateRatio) == Delay(r.report.meanLinkDelay)
  {
    hide ComputePropTime, UpdateRatio;
    var a := AddSample(m.(inbox := m.inbox.(rcvdFollowUp := false), request := m.request.(lostResponses := 0)));
    RatioKeeps(a, e);
  }

  // ---- Exactly when ----

  /** An old response that passes for the answer: the true answer then looks like a second one. */
  lemma HeldAnswerLeadsToReset(m: Machine, x: Exchange)
    requires RequestOut(m) && m.inbox.rcvdResp && RespIsOurs(m) && NoEarlyFollowUp(m) && Timely(m, x)
    ensures var r := Handle(Stamped(m, x), RecvResp(x.answered, x.ingress, x.resp)); InReset(r) && SameRequest(m, r)
  {
    hide Handle, Compare, Subtract;
    HeldAnswerAccepted(m, x.stamped, x.t1);
    SecondAnswerResets(Stamped(m, x), x.answered, x.ingress, x.resp);
  }

  lemma HeldAnswerAccepted(m: Machine, i: Inputs, t1: UScaledNs)
    requires RequestOut(m) && m.inbox.rcvdResp && RespIsOurs(m) && NoEarlyFollowUp(m) && OnTime(m, i.now)
    ensures Handle(m, TxTimestamp(i, TsuTimestamp(t1, m.request.txSequenceId)))
            == Accept(m, TsuTimestamp(t1, m.request.txSequenceId))
               .(state := WaitingForFollowUp, lastState := WaitingForFollowUp, inbox := m.inbox.(rcvdResp := false))
  {
    hide RunToRest, Value, IntervalElapsed, IntervalAction, FromPtp;
    RunEndsAs(Accept(m, TsuTimestamp(t1, m.request.txSequenceId)), i);
  }

  lemma SecondAnswerResets(m: Machine, i: Inputs, ingress: UScaledNs, resp: PdelayResp)
    requires AwaitsFollowUp(m) && !m.inbox.rcvdTxTimestamp && m.request.sequenceId == m.request.txSequenceId
    requires resp.sequenceId == m.request.txSequenceId && OnTime(m, i.now)
    ensures var r := Handle(m, RecvResp(i, ingress, resp)); InReset(r) && SameRequest(m, r)
  {
    hide RunToRest, Value, IntervalElapsed, IntervalAction, FromPtp;
    RunEndsAs(TakeResp(m, resp), i);
  }

  lemma HeldResponsePreventsMeasuring(m: Machine, x: Exchange)
    requires RequestOut(m) && m.inbox.rcvdResp && NoEarlyFollowUp(m) && Timely(m, x)
    ensures InReset(Completed(m, x)) && SameRequest(m, Completed(m, x))
  {
    hide Handle, Compare, Subtract;
    var answered := Handle(Stamped(m, x), RecvResp(x.answered, x.ingress, x.resp));
    if RespIsOurs(m) {
      HeldAnswerLeadsToReset(m, x);
    } else {
      StampLeadsToReset(m, x.stamped, x.t1);
      MessagesWaitInReset(Stamped(m, x), x.answered, x.ingress, x.resp, x.followUp);
    }
    MessagesWaitInReset(answered, x.followed, x.ingress, x.resp, x.followUp);
  }

  /**
    A prompt, correct exchange is measured, or ends the process over its timestamps, exactly if no
    response was held when its request's departure was reported, whatever that response is.
   */
  lemma MeasuredExactly(m: Machine, x: Exchange)
    requires RequestOut(m) && NoEarlyFollowUp(m) && Answers(m, x)
    requires m.config.computeMeanLinkDelay && !m.config.asymmetryMeasurementMode
    ensures var r := Completed(m, x); r.report.exited || r.log.measured != m.log.measured <==> !m.inbox.rcvdResp
  {
    hide Completed, Timely, ComputePropTime, RequestOut;
    if m.inbox.rcvdResp {
      HeldResponsePreventsMeasuring(m, x);
    } else {
      PromptExchangeMeasures(m, x);
    }
  }
}
