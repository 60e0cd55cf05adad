/**
  What the peer-delay requester keeps over every interleaving of ticks, transmit timestamps,
  responses, follow-ups and port changes.
 */
module PdelayRequesterRuns {
  import opened Words
  import opened ScaledTime
  import opened PtpMessages
  import opened PdelayRequester

  /** Within an enabled epoch, ids are consecutive and requests are at least an interval apart. */
  predicate Paced(sent: seq<SentReq>, interval: UScaledNs) {
    forall k :: 0 < k < |sent| && !sent[k].first ==>
      && sent[k].id == (sent[k - 1].id + 1) % TWO16
      && Value(sent[k].at) - Value(sent[k - 1].at) >= Value(interval)
  }

  predicate PastSend(s: State) {
    s == WaitingForResp || s == WaitingForFollowUp || s == WaitingForInterval || s == Reset
  }

  /** t1 is the transmit timestamp taken for the request that is outstanding. */
  predicate T1IsOutstanding(m: Machine) {
    && m.log.accepted != []
    && m.log.accepted[|m.log.accepted| - 1]
       == Accepted(TsuTimestamp(m.stamps.t1, m.request.txSequenceId), |m.log.sent| - 1)
  }

  predicate Outstanding(m: Machine, now: int) {
    m.log.sent != [] ==>
      var last := m.log.sent[|m.log.sent| - 1];
      && last.id == m.request.sequenceId == m.request.txSequenceId
      && last.at == m.request.intervalTimer && Value(last.at) <= now
  }

  predicate Entering(m: Machine) { m.state != m.lastState }

  predicate FlagExplained(m: Machine) {
    m.inbox.rcvdTxTimestamp ==>
      || m.state == Init || m.state == NotEnabled || (m.state == InitialSend && Entering(m))
      || ((m.state == SendReq || m.state == InitialSend) && !Entering(m) && T1IsOutstanding(m))
      || (m.state == WaitingForResp && Entering(m))
  }

  predicate EnteringSendIsDue(m: Machine, now: UScaledNs) {
    m.state == SendReq && Entering(m) ==>
      IntervalElapsed(m.request, m.config, now) && !m.inbox.rcvdTxTimestamp && m.log.sent != []
  }

  /** The invariant, in the middle of a run as well as between runs. */
  predicate Inv(m: Machine, now: UScaledNs) {
    && Paced(m.log.sent, m.config.interval)
    && Outstanding(m, Value(now))
    && FlagExplained(m)
    && EnteringSendIsDue(m, now)
    && (PastSend(m.state) ==> T1IsOutstanding(m))
    && (m.log.sent == [] ==> m.state == Init || m.state == NotEnabled || (m.state == InitialSend && Entering(m)))
    && m.state != BeforeInit
  }

  lemma Extended(sent: seq<SentReq>, interval: UScaledNs, x: SentReq)
    requires Paced(sent, interval)
    requires x.first || (sent != [] && x.id == (sent[|sent| - 1].id + 1) % TWO16 &&
                         Value(x.at) - Value(sent[|sent| - 1].at) >= Value(interval))
    ensures Paced(sent + [x], interval)
  {
    hide Value;
  }

  lemma ElapsedMeansLater(r: Request, c: Config, now: UScaledNs)
    requires IntervalElapsed(r, c, now) && Value(r.intervalTimer) <= Value(now)
    ensures Value(now) - Value(r.intervalTimer) >= Value(c.interval)
  {
  }

  /** The actions that send nothing leave the request, the timestamps and the logs of both alone. */
  lemma QuietActionEffects(m: Machine, i: Inputs)
    requires m.state != InitialSend && m.state != SendReq
    ensures var r := EntryAction(m, i);
            && r.state == m.state && r.config == m.config && r.stamps == m.stamps && r.lastState == m.lastState
            && r.log.accepted == m.log.accepted && r.log.sent == m.log.sent
            && r.request == m.request.(lostResponses := r.request.lostResponses)
            && r.inbox.rcvdTxTimestamp == (m.inbox.rcvdTxTimestamp && m.state != WaitingForResp)
            && (r.report.exited ==> m.report.exited || m.state == WaitingForInterval)
  {
    hide InitialSendAction, SendReqAction, IntervalAction;
    if m.state == WaitingForInterval {
      IntervalActionEffects(m, i.estimate);
    }
  }

  lemma EntryActionState(m: Machine, i: Inputs)
    ensures EntryAction(m, i).state == m.state && EntryAction(m, i).lastState == m.lastState
    ensures EntryAction(m, i).config == m.config
  {
    hide IntervalAction;
    if m.state != InitialSend && m.state != SendReq {
      QuietActionEffects(m, i);
    }
  }

  lemma IntervalActionEffects(m: Machine, e: RateEstimate)
    ensures var r := IntervalAction(m, e);
            r == m.(inbox := m.inbox.(rcvdFollowUp := false), request := m.request.(lostResponses := 0),
                    samples := r.samples, report := r.report, log := m.log.(measured := r.log.measured))
    ensures MeasuresOnce(m, IntervalAction(m, e))
    ensures !m.report.exited ==> ExitExplained(IntervalAction(m, e))
  {
    hide UpdateRatio, UpdateDelay, ComputePropTime, Computed;
    var a := AddSample(m.(inbox := m.inbox.(rcvdFollowUp := false), request := m.request.(lostResponses := 0)));
    RatioKeeps(a, e);
    DelayKeeps(UpdateRatio(a, e));
    UpdateDelayEffects(UpdateRatio(a, e));
  }

  /** At most one measurement is added, of the timestamps and the id the machine holds. */
  predicate MeasuresOnce(m: Machine, r: Machine) {
    || r.log.measured == m.log.measured
    || (&& |r.log.measured| == |m.log.measured| + 1
        && r.log.measured[..|m.log.measured|] == m.log.measured
        && r.log.measured[|m.log.measured|].stamps == m.stamps
        && r.log.measured[|m.log.measured|].id == m.request.txSequenceId
        && Computed(r.log.measured[|m.log.measured|]))
  }

  predicate Computed(x: Measurement) {
    ComputePropTime(x.stamps, x.ratio) == Delay(x.delay)
  }

  /** The fatal exits are taken only on timestamps computePropTime rejects. */
  predicate ExitExplained(m: Machine) {
    m.report.exited ==> ComputePropTime(m.stamps, m.report.neighborRateRatio) == FatalExit
  }


  lemma UpdateDelayEffects(m: Machine)
    ensures MeasuresOnce(m, UpdateDelay(m))
    ensures !m.report.exited ==> ExitExplained(UpdateDelay(m))
  {
    hide ComputePropTime;
  }

  lemma ActionKeepsInv(m: Machine, i: Inputs)
    requires Inv(m, i.now) && !m.report.exited
    ensures var r := if Entering(m) then EntryAction(m.(lastState := m.state), i) else m;
            && r.state == m.state && r.lastState == m.state && r.config == m.config
            && Paced(r.log.sent, r.config.interval) && Outstanding(r, Value(i.now))
            && (PastSend(r.state) ==> T1IsOutstanding(r))
            && (r.inbox.rcvdTxTimestamp ==>
                  || r.state == Init || r.state == NotEnabled
                  || ((r.state == SendReq || r.state == InitialSend) && T1IsOutstanding(r)))
            && (r.log.sent == [] ==> r.state == Init || r.state == NotEnabled)
            && (r.report.exited ==> r.state == WaitingForInterval)
  {
    hide IntervalAction, IntervalElapsed, Value, Paced;
    if Entering(m) {
      if m.state == InitialSend {
        Extended(m.log.sent, m.config.interval, SentReq(i.random, i.now, true));
      } else if m.state == SendReq {
        ElapsedMeansLater(m.request, m.config, i.now);
        Extended(m.log.sent, m.config.interval, SentReq((m.request.sequenceId + 1) % TWO16, i.now, false));
      } else {
        QuietActionEffects(m.(lastState := m.state), i);
      }
    }
  }

  predicate FlagWaits(m: Machine) {
    m.inbox.rcvdTxTimestamp ==> m.state == Init || m.state == NotEnabled
  }

  lemma TurnKeepsInv(m: Machine, i: Inputs)
    requires Inv(m, i.now) && !m.report.exited
    ensures Inv(Turn(m, i), i.now)
    ensures Turn(m, i).config == m.config
    ensures Quiescent(Turn(m, i)) ==> !Entering(Turn(m, i)) && FlagWaits(Turn(m, i))
  {
    hide EntryAction, IntervalElapsed, Value, Paced;
    ActionKeepsInv(m, i);
  }

  /** The invariant between runs: nothing is about to be entered, no timestamp is left over. */
  predicate AtRest(m: Machine, now: UScaledNs) {
    Inv(m, now) && !Entering(m) && FlagWaits(m)
  }

  lemma {:induction false} RunLoopKeepsInv(m: Machine, i: Inputs)
    requires Inv(m, i.now) && !m.report.exited
    ensures AtRest(RunLoop(m, i), i.now)
    ensures RunLoop(m, i).config == m.config
    decreases Measure(m)
  {
    hide Inv, Turn, FlagWaits;
    TurnKeepsInv(m, i);
    TurnMakesProgress(m, i);
    if !Quiescent(Turn(m, i)) {
      RunLoopKeepsInv(Turn(m, i), i);
    }
  }

  lemma RunKeepsInv(m: Machine, i: Inputs)
    requires Inv(m, i.now) && !m.report.exited
    ensures AtRest(RunToRest(m, i), i.now)
    ensures RunToRest(m, i).config == m.config
  {
    hide RunLoop, IntervalElapsed, Value, Paced;
    RunLoopKeepsInv(if m.config.Enabled() then m else m.(state := NotEnabled), i);
  }

  function NowOf(e: Event, before: UScaledNs): UScaledNs {
    if e.SetPort? then before else e.i.now
  }

  lemma HandleKeepsInv(m: Machine, before: UScaledNs, e: Event)
    requires AtRest(m, before) && Value(before) <= Value(NowOf(e, before))
    ensures AtRest(Handle(m, e), NowOf(e, before))
    ensures Handle(m, e).config.interval == m.config.interval
  {
    hide RunToRest, IntervalElapsed, Value, Paced;
    if !m.report.exited {
      match e
      case Tick(i) => RunKeepsInv(m, i);
      case TxTimestamp(i, stamp) => if Awaits(m, stamp) { RunKeepsInv(Accept(m, stamp), i); }
      case RecvResp(i, ingress, resp) => RunKeepsInv(TakeResp(m, resp), i);
      case RecvFollowUp(i, followUp) => RunKeepsInv(TakeFollowUp(m, followUp), i);
      case SetPort(_, _, _) =>
    }
  }

  /** Nothing sent is ever taken back. */
  lemma {:induction false} RunLoopGrows(m: Machine, i: Inputs)
    ensures m.log.sent <= RunLoop(m, i).log.sent
    decreases Measure(m)
  {
    hide Turn;
    TurnGrows(m, i);
    TurnMakesProgress(m, i);
    if !Quiescent(Turn(m, i)) {
      RunLoopGrows(Turn(m, i), i);
    }
  }

  lemma TurnGrows(m: Machine, i: Inputs)
    ensures m.log.sent <= Turn(m, i).log.sent
  {
    hide IntervalAction;
    if m.state != InitialSend && m.state != SendReq {
      QuietActionEffects(m.(lastState := m.state), i);
    }
  }

  lemma HandleGrows(m: Machine, e: Event)
    ensures m.log.sent <= Handle(m, e).log.sent
  {
    hide RunLoop;
    if !m.report.exited && !e.SetPort? {
      var a := match e
        case Tick(_) => m
        case TxTimestamp(_, stamp) => Accept(m, stamp)
        case RecvResp(_, _, resp) => TakeResp(m, resp)
        case RecvFollowUp(_, followUp) => TakeFollowUp(m, followUp);
      RunLoopGrows(if a.config.Enabled() then a else a.(state := NotEnabled), e.i);
    }
  }

  // ---- Whole runs ----

  function After(m: Machine, events: seq<Event>): Machine {
    if events == [] then m else Handle(After(m, events[..|events| - 1]), events[|events| - 1])
  }

  function NowAfter(start: UScaledNs, events: seq<Event>): UScaledNs {
    if events == [] then start else NowOf(events[|events| - 1], NowAfter(start, events[..|events| - 1]))
  }

  /** The clock that times the runs does not go back. */
  predicate ClockMonotone(start: UScaledNs, events: seq<Event>) {
    events != [] ==>
      && ClockMonotone(start, events[..|events| - 1])
      && Value(NowAfter(start, events[..|events| - 1])) <= Value(NowAfter(start, events))
  }

  lemma {:induction false} EventsKeepInv(m: Machine, start: UScaledNs, events: seq<Event>)
    requires AtRest(m, start) && ClockMonotone(start, events)
    ensures AtRest(After(m, events), NowAfter(start, events))
    ensures After(m, events).config.interval == m.config.interval
  {
    hide AtRest, Handle, Value;
    if events != [] {
      EventsKeepInv(m, start, events[..|events| - 1]);
      HandleKeepsInv(After(m, events[..|events| - 1]), NowAfter(start, events[..|events| - 1]), events[|events| - 1]);
    }
  }

  /**
    Every run of the requester, from its creation: consecutive requests of one enabled epoch have
    consecutive ids and are at least pdelayReqInterval apart; past the sending states t1 is the
    timestamp of the outstanding request; and no timestamp flag is left set that a later SEND could
    mistake for its own.
   */
  lemma RequesterSafety(created: Machine, config: Config, i: Inputs, events: seq<Event>)
    requires Created(created, config) && i.now == ZERO && ClockMonotone(ZERO, events)
    ensures var m := After(RunToRest(created, i), events);
            && Paced(m.log.sent, config.interval)
            && (PastSend(m.state) ==> T1IsOutstanding(m))
            && (m.state == SendReq || m.state == InitialSend ==> !m.inbox.rcvdTxTimestamp)
  {
    hide RunToRest, Handle;
    RunKeepsInv(created, i);
    EventsKeepInv(RunToRest(created, i), ZERO, events);
  }

  /** The machines a run passes through, one per turn of its loop. */
  function AfterTurns(m: Machine, i: Inputs, k: nat): Machine {
    if k == 0 then m
    else
      var before := AfterTurns(m, i, k - 1);
      if before.report.exited || (k > 1 && Quiescent(before)) then before else Turn(before, i)
  }

  lemma {:induction false} TurnsKeepInv(m: Machine, i: Inputs, k: nat)
    requires Inv(m, i.now)
    ensures Inv(AfterTurns(m, i, k), i.now)
  {
    hide Turn, Inv;
    if k > 0 {
      TurnsKeepInv(m, i, k - 1);
      if !AfterTurns(m, i, k - 1).report.exited {
        TurnKeepsInv(AfterTurns(m, i, k - 1), i);
      }
    }
  }

  /** The machine with which the run an event starts begins: flags set, then all_state_transition. */
  function Begun(m: Machine, e: Event): Machine {
    var a := match e
      case TxTimestamp(_, stamp) => if Awaits(m, stamp) then Accept(m, stamp) else m
      case RecvResp(_, _, resp) => TakeResp(m, resp)
      case RecvFollowUp(_, followUp) => TakeFollowUp(m, followUp)
      case _ => m;
    if a.config.Enabled() then a else a.(state := NotEnabled)
  }

  /** Handling the event is that run; t4 alone is stored after it. */
  predicate HandledBy(m: Machine, e: Event, r: Machine) {
    Handle(m, e) == if e.RecvResp? && !r.report.exited then r.(stamps := r.stamps.(t4 := e.ingress)) else r
  }

  lemma BegunRuns(m: Machine, e: Event)
    requires !m.report.exited && !e.SetPort? && (e.TxTimestamp? ==> Awaits(m, e.stamp))
    ensures HandledBy(m, e, RunLoop(Begun(m, e), e.i))
  {
    hide RunLoop;
  }

  lemma BegunKeepsInv(m: Machine, before: UScaledNs, e: Event)
    requires AtRest(m, before) && !e.SetPort? && Value(before) <= Value(e.i.now)
    ensures Inv(Begun(m, e), e.i.now)
  {
    hide IntervalElapsed, Value, Paced;
  }

  /**
    In no turn of any run, over all events from creation, is SEND entered before the interval is over
    or with the timestamp flag already set; and these turns are the ones the event is handled by.
   */
  lemma SendIsEnteredClean(created: Machine, config: Config, i: Inputs, events: seq<Event>, e: Event, k: nat)
    requires Created(created, config) && i.now == ZERO && !e.SetPort?
    requires ClockMonotone(ZERO, events) && Value(NowAfter(ZERO, events)) <= Value(e.i.now)
    ensures var r := AfterTurns(Begun(After(RunToRest(created, i), events), e), e.i, k);
            r.state == SendReq && Entering(r) ==>
              !r.inbox.rcvdTxTimestamp && IntervalElapsed(r.request, r.config, e.i.now)
    ensures var m := After(RunToRest(created, i), events);
            !m.report.exited && (e.TxTimestamp? ==> Awaits(m, e.stamp)) ==> HandledBy(m, e, RunLoop(Begun(m, e), e.i))
  {
    hide RunToRest, Handle, Turn, Begun, AtRest, HandledBy, RunLoop;
    RunKeepsInv(created, i);
    EventsKeepInv(RunToRest(created, i), ZERO, events);
    var m := After(RunToRest(created, i), events);
    BegunKeepsInv(m, NowAfter(ZERO, events), e);
    if !m.report.exited && (e.TxTimestamp? ==> Awaits(m, e.stamp)) {
      BegunRuns(m, e);
    }
    TurnsKeepInv(Begun(m, e), e.i, k);
    CleanByInv(AfterTurns(Begun(m, e), e.i, k), e.i.now);
  }

  lemma CleanByInv(m: Machine, now: UScaledNs)
    requires Inv(m, now)
    ensures m.state == SendReq && Entering(m) ==> !m.inbox.rcvdTxTimestamp && IntervalElapsed(m.request, m.config, now)
  {
  }
}
