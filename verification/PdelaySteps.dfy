/**
  What one event makes of a peer-delay requester at rest, in one step: how far it gets before it has
  to wait again, and what it has counted, sent or measured on the way.
 */
module PdelaySteps {
  import opened Words
  import opened ScaledTime
  import opened SampleRing
  import opened PtpMessages
  import opened PdelayRequester
  import R = PdelayRequesterRuns

  predicate Up(c: Config) { !c.begin && c.portOper && c.portEnabled0 }

  /** The time since the last request has reached the interval; readings start over after 2^96 units. */
  predicate Late(m: Machine, now: UScaledNs) {
    (Value(now) - Value(m.request.intervalTimer)) % TWO96 >= Value(m.config.interval)
  }

  /** The machine waits, and what it holds is not what it waits for. */
  predicate Settled(m: Machine) {
    && !m.report.exited && m.lastState == m.state
    && match m.state
       case BeforeInit => false
       case Init => false
       case NotEnabled => true
       case WaitingForResp => !m.inbox.rcvdTxTimestamp && !m.inbox.rcvdResp
       case WaitingForFollowUp =>
         !m.inbox.rcvdTxTimestamp && !SecondAnswer(m) && !(m.inbox.rcvdFollowUp && Completes(m))
       case _ => !m.inbox.rcvdTxTimestamp
  }

  /** The response held has the id of the request out, and names this port as the one that asked. */
  predicate Answers(m: Machine) {
    var resp := m.inbox.resp;
    && resp.sequenceId == m.request.txSequenceId
    && resp.requesting.clock == m.config.thisClock && resp.requesting.port == m.config.thisPort
  }

  predicate SecondAnswer(m: Machine) {
    m.inbox.rcvdResp && m.inbox.resp.sequenceId == m.request.txSequenceId
  }

  /** The follow-up held has that id too, and is by the responder or to a response for this port. */
  predicate Completes(m: Machine) {
    var resp, followUp := m.inbox.resp, m.inbox.followUp;
    && followUp.sequenceId == m.request.txSequenceId
    && (|| followUp.source == resp.source
        || (resp.requesting.clock == m.config.thisClock && resp.requesting.port == m.config.thisPort))
  }

  /** The exchange is given up: tolerated so often, then the link is not capable. */
  function GivenUp(m: Machine): Machine {
    var lost := m.request.lostResponses;
    m.(state := Reset, lastState := Reset, inbox := m.inbox.(rcvdResp := false),
       request := if lost <= m.config.allowedLostResponses then m.request.(lostResponses := lost + 1) else m.request,
       report := if lost <= m.config.allowedLostResponses then m.report
                 else m.report.(isMeasuringDelay := false, asCapableAcrossDomains := false))
  }

  /** The next request leaves. */
  function Asked(m: Machine, now: UScaledNs): Machine {
    var id := (m.request.sequenceId + 1) % TWO16;
    m.(state := SendReq, lastState := SendReq,
       request := Request(id, id, now, m.request.lostResponses),
       log := m.log.(sent := m.log.sent + [SentReq(id, now, false)]))
  }

  /** The first request of an epoch leaves, under a random id, and everything starts anew. */
  function AskedFirst(m: Machine, i: Inputs): Machine {
    m.(state := InitialSend, lastState := InitialSend,
       inbox := m.inbox.(rcvdResp := false, rcvdFollowUp := false, rcvdTxTimestamp := false),
       request := Request(i.random, i.random, i.now, 0),
       report := Report(RATIO_ONE, m.report.meanLinkDelay, false, false, 0, m.report.exited),
       log := m.log.(sent := m.log.sent + [SentReq(i.random, i.now, true)]))
  }

  /** The exchange is complete. */
  function Evaluated(m: Machine, i: Inputs): Machine {
    IntervalAction(m.(state := WaitingForInterval, lastState := WaitingForInterval), i.estimate)
  }

  function AfterFollowUp(m: Machine, i: Inputs): Machine {
    if Late(m, i.now) then Asked(GivenUp(m), i.now)
    else if SecondAnswer(m) then GivenUp(m)
    else if m.inbox.rcvdFollowUp && Completes(m) then Evaluated(m, i)
    else m.(state := WaitingForFollowUp, lastState := WaitingForFollowUp)
  }

  function AfterResp(m: Machine, i: Inputs): Machine {
    if Late(m, i.now) then Asked(GivenUp(m), i.now)
    else if !m.inbox.rcvdResp then m.(state := WaitingForResp, lastState := WaitingForResp)
    else if !Answers(m) then GivenUp(m)
    else AfterFollowUp(m.(inbox := m.inbox.(rcvdResp := false)), i)
  }

  /** Where a run from one waiting state ends, with what has just been received. */
  function Outcome(m: Machine, i: Inputs): Machine {
    if m.config.begin && m.config.portOper && m.config.portEnabled0 then AskedFirst(m, i)
    else if !Up(m.config) then m.(state := NotEnabled, lastState := NotEnabled)
    else
      match m.state
      case NotEnabled => AskedFirst(m, i)
      case InitialSend => if m.inbox.rcvdTxTimestamp then AfterResp(m.(inbox := m.inbox.(rcvdTxTimestamp := false)), i) else m
      case SendReq => if m.inbox.rcvdTxTimestamp then AfterResp(m.(inbox := m.inbox.(rcvdTxTimestamp := false)), i) else m
      case WaitingForResp => AfterResp(m, i)
      case WaitingForFollowUp => AfterFollowUp(m, i)
      case Reset => if Late(m, i.now) then Asked(m, i.now) else m
      case WaitingForInterval => if Late(m, i.now) then Asked(m, i.now) else m
      case _ => m
  }

  // ---- The turns of the run loop add up to that ----

  lemma LateMeansElapsed(m: Machine, now: UScaledNs)
    ensures Late(m, now) <==> IntervalElapsed(m.request, m.config, now)
  {
    hide Value, Subtract, Compare;
    DifferenceWraps(Value(now), Value(m.request.intervalTimer));
  }

  /** Neither looks at anything but the interval and its timer. */
  lemma SameTimer(m: Machine, n: Machine, now: UScaledNs)
    requires m.request.intervalTimer == n.request.intervalTimer && m.config.interval == n.config.interval
    ensures Late(m, now) == Late(n, now)
    ensures IntervalElapsed(m.request, m.config, now) == IntervalElapsed(n.request, n.config, now) == Late(n, now)
  {
    hide Value, Subtract, Compare;
    LateMeansElapsed(m, now);
    LateMeansElapsed(n, now);
  }

  lemma DifferenceWraps(x: int, y: int)
    requires 0 <= x < TWO96 && 0 <= y < TWO96
    ensures (x - y) % TWO96 == if x >= y then x - y else x - y + TWO96
  {
  }

  lemma OneTurn(m: Machine, i: Inputs)
    ensures RunLoop(m, i) == if Quiescent(Turn(m, i)) then Turn(m, i) else RunLoop(Turn(m, i), i)
  {
    hide Turn;
  }

  lemma EntersSendReq(m: Machine, i: Inputs)
    requires !m.report.exited && m.state == SendReq && m.lastState != SendReq && !m.inbox.rcvdTxTimestamp
    ensures RunLoop(m, i) == Asked(m, i.now)
  {
    hide IntervalElapsed;
    OneTurn(m, i);
  }

  lemma ResetTurn(m: Machine, i: Inputs)
    requires !m.report.exited && m.state == Reset && m.lastState != Reset
    ensures Turn(m, i) == GivenUp(m).(state := if Late(m, i.now) then SendReq else Reset)
  {
    hide Late, IntervalElapsed;
    SameTimer(m, GivenUp(m), i.now);
  }

  lemma EntersReset(m: Machine, i: Inputs)
    requires !m.report.exited && m.state == Reset && m.lastState != Reset && !m.inbox.rcvdTxTimestamp
    ensures RunLoop(m, i) == if Late(m, i.now) then Asked(GivenUp(m), i.now) else GivenUp(m)
  {
    hide Late, Turn;
    ResetTurn(m, i);
    OneTurn(m, i);
    if Late(m, i.now) {
      EntersSendReq(GivenUp(m).(state := SendReq), i);
    }
  }

  lemma EntersInterval(m: Machine, i: Inputs)
    requires !m.report.exited && m.state == WaitingForInterval && m.lastState != WaitingForInterval && !Late(m, i.now)
    ensures RunLoop(m, i) == Evaluated(m, i)
  {
    hide Late, IntervalElapsed, UpdateRatio, UpdateDelay, JudgedReport, Pushed, IntervalAction;
    EvaluationKeeps(m.(lastState := m.state), i.estimate);
    SameTimer(m, Evaluated(m, i), i.now);
    OneTurn(m, i);
  }

  lemma EvaluationKeeps(m: Machine, e: RateEstimate)
    ensures var r := IntervalAction(m, e);
            && r.state == m.state && r.lastState == m.lastState && r.config == m.config
            && r.request == m.request.(lostResponses := 0)
  {
    hide UpdateRatio, UpdateDelay, JudgedReport, Pushed;
    var a := AddSample(m.(inbox := m.inbox.(rcvdFollowUp := false), request := m.request.(lostResponses := 0)));
    RatioKeeps(a, e);
    DelayKeeps(UpdateRatio(a, e));
  }

  lemma FollowUpTurn(m: Machine, i: Inputs)
    requires !m.report.exited && m.state == WaitingForFollowUp
    ensures var a := m.(lastState := m.state,
                        inbox := if m.lastState == m.state then m.inbox else m.inbox.(rcvdResp := false));
            Turn(m, i) == a.(state := if Late(m, i.now) || SecondAnswer(a) then Reset
                                      else if a.inbox.rcvdFollowUp && Completes(a) then WaitingForInterval
                                      else WaitingForFollowUp)
  {
    hide Late, IntervalElapsed;
    LateMeansElapsed(m, i.now);
  }

  lemma AwaitsFollowUp(m: Machine, i: Inputs)
    requires !m.report.exited && m.state == WaitingForFollowUp && !m.inbox.rcvdTxTimestamp
    ensures RunLoop(m, i) ==
            AfterFollowUp(if m.lastState == m.state then m else m.(inbox := m.inbox.(rcvdResp := false)), i)
  {
    hide Late, IntervalElapsed, IntervalAction, Turn, SecondAnswer, Completes;
    FollowUpTurn(m, i);
    OneTurn(m, i);
    var n := Turn(m, i);
    SameTimer(m, n, i.now);
    var a := if m.lastState == m.state then m else m.(inbox := m.inbox.(rcvdResp := false));
    SameTimer(m, a, i.now);
    SameFlags(a, n);
    SameFlags(a, a.(lastState := m.state));
    if n.state == Reset {
      EntersReset(n, i);
    } else if n.state == WaitingForInterval {
      EntersInterval(n, i);
    }
  }

  lemma SameFlags(m: Machine, n: Machine)
    requires m.inbox == n.inbox && m.request == n.request && m.config == n.config
    ensures SecondAnswer(m) == SecondAnswer(n) && Completes(m) == Completes(n)
  {
  }

  lemma RespTurn(m: Machine, i: Inputs)
    requires !m.report.exited && m.state == WaitingForResp
    ensures var a := m.(lastState := m.state,
                        inbox := if m.lastState == m.state then m.inbox else m.inbox.(rcvdTxTimestamp := false));
            Turn(m, i) == a.(state := if Late(m, i.now) then Reset else if !m.inbox.rcvdResp then WaitingForResp
                                      else if Answers(m) then WaitingForFollowUp else Reset)
  {
    hide Late, IntervalElapsed;
    LateMeansElapsed(m, i.now);
  }

  lemma AwaitsResp(m: Machine, i: Inputs)
    requires !m.report.exited && m.state == WaitingForResp
    requires m.lastState == m.state ==> !m.inbox.rcvdTxTimestamp
    ensures RunLoop(m, i) == AfterResp(m.(inbox := m.inbox.(rcvdTxTimestamp := false)), i)
  {
    hide Late, IntervalElapsed, AfterFollowUp, Turn, Answers;
    var a := m.(inbox := m.inbox.(rcvdTxTimestamp := false));
    RespTurn(m, i);
    OneTurn(m, i);
    var n := Turn(m, i);
    SameTimer(m, n, i.now);
    SameTimer(m, a, i.now);
    SameAnswer(m, a);
    if n.state == Reset {
      EntersReset(n, i);
    } else if n.state == WaitingForFollowUp {
      AwaitsFollowUp(n, i);
      FollowUpFrom(n.(inbox := n.inbox.(rcvdResp := false)), m.state, m.lastState, i);
    }
  }

  lemma SameAnswer(m: Machine, n: Machine)
    requires m.inbox.resp == n.inbox.resp && m.request == n.request && m.config == n.config
    ensures Answers(m) == Answers(n)
  {
  }

  /** What follows does not look at the states. */
  lemma FollowUpFrom(m: Machine, state: State, lastState: State, i: Inputs)
    ensures AfterFollowUp(m, i) == AfterFollowUp(m.(state := state, lastState := lastState), i)
  {
    hide Value, IntervalAction;
  }

  lemma RespFrom(m: Machine, state: State, lastState: State, i: Inputs)
    ensures AfterResp(m, i) == AfterResp(m.(state := state, lastState := lastState), i)
  {
    hide Value, AfterFollowUp;
    FollowUpFrom(m.(inbox := m.inbox.(rcvdResp := false)), state, lastState, i);
  }

  lemma EntersInitialSend(m: Machine, i: Inputs)
    requires !m.report.exited && m.state == InitialSend && m.lastState != InitialSend
    ensures RunLoop(m, i) == AskedFirst(m, i)
  {
    hide IntervalElapsed;
    OneTurn(m, i);
  }

  /** Something may just have been received. */
  predicate Received(m: Machine) {
    && !m.report.exited && m.lastState == m.state && m.state != BeforeInit && m.state != Init
    && (m.inbox.rcvdTxTimestamp ==> m.state == NotEnabled || m.state == InitialSend || m.state == SendReq)
  }

  lemma RunIsOutcome(m: Machine, i: Inputs)
    requires Received(m)
    ensures RunToRest(m, i) == Outcome(m, i)
  {
    hide RunLoop, IntervalElapsed, Late, AfterResp, AfterFollowUp;
    LateMeansElapsed(m, i.now);
    var b := if m.config.Enabled() then m else m.(state := NotEnabled);
    if b.state == WaitingForResp {
      AwaitsResp(b, i);
    } else if b.state == WaitingForFollowUp {
      AwaitsFollowUp(b, i);
    } else {
      OneTurn(b, i);
      var n := Turn(b, i);
      SameTimer(m, n, i.now);
      if n.lastState == n.state {
      } else if n.state == WaitingForResp {
        AwaitsResp(n, i);
        RespFrom(n.(inbox := n.inbox.(rcvdTxTimestamp := false)), m.state, m.state, i);
      } else if n.state == SendReq {
        EntersSendReq(n, i);
      } else if n.state == InitialSend {
        EntersInitialSend(n, i);
      }
    }
  }

  // ---- Every event from rest ----

  function Result(m: Machine, e: Event): Machine {
    match e
    case Tick(i) => Outcome(m, i)
    case TxTimestamp(i, stamp) => if Awaits(m, stamp) then Outcome(Accept(m, stamp), i) else m
    case RecvResp(i, ingress, resp) =>
      var r := Outcome(TakeResp(m, resp), i);
      if r.report.exited then r else r.(stamps := r.stamps.(t4 := ingress))
    case RecvFollowUp(i, followUp) => Outcome(TakeFollowUp(m, followUp), i)
    case SetPort(begin, portOper, portEnabled0) =>
      m.(config := m.config.(begin := begin, portOper := portOper, portEnabled0 := portEnabled0))
  }

  lemma HandleIsResult(m: Machine, e: Event)
    requires Settled(m)
    ensures Handle(m, e) == Result(m, e)
    ensures Settled(Handle(m, e)) || Handle(m, e).report.exited
  {
    hide RunToRest, Outcome, IntervalAction;
    match e
    case Tick(i) =>
      RunIsOutcome(m, i);
      OutcomeSettles(m, i);
    case TxTimestamp(i, stamp) =>
      if Awaits(m, stamp) {
        RunIsOutcome(Accept(m, stamp), i);
        OutcomeSettles(Accept(m, stamp), i);
      }
    case RecvResp(i, ingress, resp) =>
      RunIsOutcome(TakeResp(m, resp), i);
      OutcomeSettles(TakeResp(m, resp), i);
    case RecvFollowUp(i, followUp) =>
      RunIsOutcome(TakeFollowUp(m, followUp), i);
      OutcomeSettles(TakeFollowUp(m, followUp), i);
    case SetPort(_, _, _) =>
  }

  predicate Rests(m: Machine) { Settled(m) || m.report.exited }

  lemma OutcomeSettles(m: Machine, i: Inputs)
    requires Received(m)
    ensures Rests(Outcome(m, i))
  {
    hide Late, AfterResp, AfterFollowUp;
    var n := m.(inbox := m.inbox.(rcvdTxTimestamp := false));
    RespSettles(n, i);
    FollowUpSettles(n, i);
  }

  lemma RespSettles(m: Machine, i: Inputs)
    requires !m.report.exited && !m.inbox.rcvdTxTimestamp
    ensures Rests(AfterResp(m, i))
  {
    hide Late, AfterFollowUp;
    FollowUpSettles(m.(inbox := m.inbox.(rcvdResp := false)), i);
  }

  lemma FollowUpSettles(m: Machine, i: Inputs)
    requires !m.report.exited && !m.inbox.rcvdTxTimestamp
    ensures Rests(AfterFollowUp(m, i))
  {
    hide Late, Evaluated;
    EvaluationSettles(m, i);
  }

  lemma EvaluationSettles(m: Machine, i: Inputs)
    ensures var r := Evaluated(m, i);
            r.state == r.lastState == WaitingForInterval && r.inbox.rcvdTxTimestamp == m.inbox.rcvdTxTimestamp
  {
    hide UpdateRatio, UpdateDelay, JudgedReport, Pushed;
    var a := AddSample(m.(state := WaitingForInterval, lastState := WaitingForInterval,
                          inbox := m.inbox.(rcvdFollowUp := false), request := m.request.(lostResponses := 0)));
    RatioKeeps(a, i.estimate);
    DelayKeeps(UpdateRatio(a, i.estimate));
  }

  lemma {:induction false} EventsSettle(m: Machine, events: seq<Event>)
    requires Settled(m)
    ensures Settled(R.After(m, events)) || R.After(m, events).report.exited
  {
    hide Settled, Handle;
    if events != [] {
      EventsSettle(m, events[..|events| - 1]);
      var before := R.After(m, events[..|events| - 1]);
      if Settled(before) {
        HandleIsResult(before, events[|events| - 1]);
      } else {
        ExitedStays(before, events[|events| - 1]);
      }
    }
  }

  lemma ExitedStays(m: Machine, e: Event)
    requires m.report.exited
    ensures Handle(m, e) == m
  {
  }

  lemma CreatedSettles(m: Machine, config: Config, i: Inputs)
    requires Created(m, config)
    ensures Settled(RunToRest(m, i))
    ensures RunToRest(m, i).log.sent == if config.portOper && config.portEnabled0 then [SentReq(i.random, i.now, true)] else []
  {
    hide RunLoop, IntervalElapsed;
    var b := if m.config.Enabled() then m else m.(state := NotEnabled);
    OneTurn(b, i);
    var n := Turn(b, i);
    if n.state == NotEnabled {
      OneTurn(n, i);
      if Turn(n, i).state == InitialSend {
        EntersInitialSend(Turn(n, i), i);
      }
    } else {
      EntersInitialSend(n, i);
    }
  }

  // ---- The evaluation of a complete exchange ----

  /** The rate ratio after it: 1.0 while there is one sample, and for a quotient too far from it. */
  function RatioAfter(m: Machine, e: RateEstimate): UScaledNs {
    if !m.config.computeNeighborRateRatio then m.report.neighborRateRatio
    else if m.samples == [] || e.Outlier? then UScaledNs(0, 1, 0)
    else e.ratio
  }

  /** The samples: (t4, t3) is added, and an outlier leaves that one alone. */
  function SamplesAfter(m: Machine, e: RateEstimate): seq<Sample> {
    var x := Sample(m.stamps.t4, m.stamps.t3);
    if m.config.computeNeighborRateRatio && m.samples != [] && e.Outlier? then [x]
    else if |m.samples| < 64 then m.samples + [x] else m.samples[1..] + [x]
  }

  predicate Refused(m: Machine, e: RateEstimate) {
    m.config.computeMeanLinkDelay && ComputePropTime(m.stamps, RatioAfter(m, e)) == FatalExit
  }

  /** The link is judged by the responder's clock, the delay and the ratio's validity. */
  predicate Judged(m: Machine, r: Report) {
    if m.inbox.resp.source.clock != m.config.thisClock then
      && r.isMeasuringDelay && r.detectedFaults == 0
      && (r.asCapableAcrossDomains <==>
            Value(r.meanLinkDelay) <= Value(m.config.meanLinkDelayThresh) && m.config.neighborRateRatioValid)
    else if m.report.detectedFaults <= m.config.allowedFaults then
      && r.isMeasuringDelay && r.detectedFaults == m.report.detectedFaults + 1
      && r.asCapableAcrossDomains == m.report.asCapableAcrossDomains
    else !r.isMeasuringDelay && !r.asCapableAcrossDomains && r.detectedFaults == 0
  }

  /** The measuring entry action: sample, ratio, delay and judgement, in asymmetry mode none of them. */
  lemma EvaluationIs(m: Machine, e: RateEstimate)
    requires !m.report.exited
    ensures var r := IntervalAction(m, e);
            && !r.inbox.rcvdFollowUp && r.request.lostResponses == 0
            && if m.config.asymmetryMeasurementMode then
                 r.samples == m.samples && r.report == m.report && r.log == m.log
               else
                 && r.samples == SamplesAfter(m, e) && r.report.neighborRateRatio == RatioAfter(m, e)
                 && (r.report.exited <==> Refused(m, e))
                 && (r.report.exited ==>
                       r.log == m.log && r.report == m.report.(neighborRateRatio := RatioAfter(m, e), exited := true))
                 && (!r.report.exited ==> Judged(m, r.report) && DelayTaken(m, e, r))
  {
    hide ComputePropTime, Value;
    var a := AddSample(m.(inbox := m.inbox.(rcvdFollowUp := false), request := m.request.(lostResponses := 0)));
    RatioIs(m, a, e);
    DelayKeeps(UpdateRatio(a, e));
  }

  /** The delay is computed anew and recorded, if it is to be computed at all. */
  predicate DelayTaken(m: Machine, e: RateEstimate, r: Machine) {
    var id, d := m.request.txSequenceId, r.report.meanLinkDelay;
    if m.config.computeMeanLinkDelay then
      && ComputePropTime(m.stamps, RatioAfter(m, e)) == Delay(d)
      && r.log == m.log.(measured := m.log.measured + [Measurement(id, m.stamps, RatioAfter(m, e), d)])
    else d == m.report.meanLinkDelay && r.log == m.log
  }

  lemma RatioIs(m: Machine, a: Machine, e: RateEstimate)
    requires a == AddSample(m.(inbox := m.inbox.(rcvdFollowUp := false), request := m.request.(lostResponses := 0)))
    ensures UpdateRatio(a, e) == a.(samples := SamplesAfter(m, e),
                                    report := a.report.(neighborRateRatio := RatioAfter(m, e)))
  {
  }

  // ---- The requester goes on ----

  /** It waits for an answer or for the end of the interval, not for the departure of a request. */
  predicate PastSend(m: Machine) {
    m.state == WaitingForResp || m.state == WaitingForFollowUp || m.state == WaitingForInterval || m.state == Reset
  }

  /**
    Over every run from creation: once the request has left, the first tick at or past the interval
    sends the next one, under the next id, whatever of the exchange has been lost; giving up the answer
    or the follow-up counts as a loss.
   */
  lemma NextRequestIsSent(created: Machine, config: Config, i0: Inputs, events: seq<Event>, i: Inputs)
    requires Created(created, config)
    ensures var m := R.After(RunToRest(created, i0), events);
            var r := Handle(m, Tick(i));
            !m.report.exited && Up(m.config) && PastSend(m) ==>
              if (Value(i.now) - Value(m.request.intervalTimer)) % TWO96 >= Value(m.config.interval) then
                && r.state == SendReq
                && r.log.sent == m.log.sent + [SentReq((m.request.sequenceId + 1) % TWO16, i.now, false)]
                && r == Asked(if m.state == WaitingForResp || m.state == WaitingForFollowUp then GivenUp(m) else m, i.now)
              else r == m
  {
    hide RunToRest, R.After, Handle, Value;
    CreatedSettles(created, config, i0);
    EventsSettle(RunToRest(created, i0), events);
    var m := R.After(RunToRest(created, i0), events);
    if !m.report.exited {
      HandleIsResult(m, Tick(i));
    }
  }

  /** Neither the departure of the request out, nor a change of the port. */
  predicate NoDeparture(m: Machine, e: Event) {
    match e
    case TxTimestamp(_, stamp) => stamp.sequenceId != m.request.sequenceId
    case SetPort(_, _, _) => false
    case _ => true
  }

  /**
    If the departure of a request is never reported, no event whatever makes the requester send
    another one: neither sending state has a timeout.
   */
  lemma {:induction false} WaitsForDeparture(m: Machine, events: seq<Event>)
    requires Settled(m) && Up(m.config) && (m.state == SendReq || m.state == InitialSend)
    requires forall k :: 0 <= k < |events| ==> NoDeparture(m, events[k])
    ensures var r := R.After(m, events);
            Settled(r) && r.state == m.state && r.config == m.config && r.request == m.request && r.log == m.log
  {
    hide Handle, Value;
    if events != [] {
      WaitsForDeparture(m, events[..|events| - 1]);
      HandleIsResult(R.After(m, events[..|events| - 1]), events[|events| - 1]);
    }
  }
}
