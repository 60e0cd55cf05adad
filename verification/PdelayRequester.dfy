/**
  The peer-delay requester (MDPdelayReq, section 11.2.19 of IEEE Std 802.1AS-2020).

  The first half gives one run of the machine as functions on its state; class MDPdelayReqSM is the
  machine with its fields updated in place, proved against them.
 */
module PdelayRequester {
  import opened Words
  import opened ScaledTime
  import opened SampleRing
  import opened PtpMessages

  const MAXLENGTH: nat := 64

  datatype State =
    | BeforeInit | Init | NotEnabled | InitialSend | WaitingForResp | WaitingForFollowUp
    | WaitingForInterval | Reset | SendReq

  /** The per-port and per-instance globals the machine reads. */
  datatype Config = Config(
    begin: bool, portOper: bool, portEnabled0: bool,
    thisClock: u64, thisPort: u16,
    interval: UScaledNs, meanLinkDelayThresh: UScaledNs,
    allowedLostResponses: u8, allowedFaults: u8,
    asymmetryMeasurementMode: bool, computeNeighborRateRatio: bool, computeMeanLinkDelay: bool,
    neighborRateRatioValid: bool)
  {
    predicate Enabled() { !begin && portOper && portEnabled0 }
  }

  /** The floating-point quotient of two sample differences: unusable, or a ratio in fixed point. */
  datatype RateEstimate = Outlier | Usable(ratio: UScaledNs)

  /** Inputs of one run: current time, rand() & 0xFFFF, and the rate quotient should one be taken. */
  datatype Inputs = Inputs(now: UScaledNs, random: u16, estimate: RateEstimate)

  /** The receive flags and the messages they announce. */
  datatype Inbox = Inbox(rcvdResp: bool, resp: PdelayResp, rcvdFollowUp: bool, followUp: PdelayRespFollowUp,
                         rcvdTxTimestamp: bool)

  /** The outstanding request: the sequence counter, the id in the message sent, and when it was sent. */
  datatype Request = Request(sequenceId: u16, txSequenceId: u16, intervalTimer: UScaledNs, lostResponses: u16)

  datatype Stamps = Stamps(t1: UScaledNs, t2: UScaledNs, t3: UScaledNs, t4: UScaledNs)

  /** What the machine reports about the link. `exited` means one of the fatal exits was taken. */
  datatype Report = Report(neighborRateRatio: UScaledNs, meanLinkDelay: UScaledNs,
                           isMeasuringDelay: bool, asCapableAcrossDomains: bool, detectedFaults: u16,
                           exited: bool)

  /** A Pdelay_Req handed to the network. `first` marks the first one after the port was enabled. */
  datatype SentReq = SentReq(id: u16, at: UScaledNs, first: bool)

  /** A transmit timestamp the machine took, and the index in `sent` of the request it belongs to. */
  datatype Accepted = Accepted(stamp: TsuTimestamp, request: int)

  /** A recomputation of meanLinkDelay and everything that went into it. */
  datatype Measurement = Measurement(id: u16, stamps: Stamps, ratio: UScaledNs, delay: UScaledNs)

  datatype Log = Log(sent: seq<SentReq>, accepted: seq<Accepted>, measured: seq<Measurement>)

  datatype Machine = Machine(
    config: Config, state: State, lastState: State,
    inbox: Inbox, request: Request, stamps: Stamps,
    samples: seq<Sample>, report: Report, log: Log)

  // ---- Specification of one run ----

  /** computePropTime; the two error exits end the whole process. */
  datatype PropTime = Delay(d: UScaledNs) | FatalExit

  function ComputePropTime(s: Stamps, ratio: UScaledNs): PropTime {
    var roundTrip := Multiply(Subtract(s.t4, s.t1), ratio);
    var residence := Subtract(s.t3, s.t2);
    if Compare(s.t4, s.t1) < 0 || Compare(roundTrip, residence) < 0 then FatalExit
    else Delay(DivideBy2(Subtract(roundTrip, residence)))
  }

  predicate IntervalElapsed(r: Request, c: Config, now: UScaledNs) {
    Compare(Subtract(now, r.intervalTimer), c.interval) >= 0
  }

  function Transmitted(m: Machine, id: u16, now: UScaledNs, first: bool): Machine {
    m.(request := m.request.(sequenceId := id, txSequenceId := id, intervalTimer := now),
       log := m.log.(sent := m.log.sent + [SentReq(id, now, first)]))
  }

  function InitialSendAction(m: Machine, i: Inputs): Machine {
    Transmitted(m.(inbox := m.inbox.(rcvdResp := false, rcvdFollowUp := false, rcvdTxTimestamp := false),
                   request := m.request.(lostResponses := 0),
                   report := m.report.(neighborRateRatio := RATIO_ONE, detectedFaults := 0,
                                       isMeasuringDelay := false, asCapableAcrossDomains := false)),
                i.random, i.now, true)
  }

  function ResetAction(m: Machine): Machine {
    var m := m.(inbox := m.inbox.(rcvdResp := false));
    if m.request.lostResponses <= m.config.allowedLostResponses
    then m.(request := m.request.(lostResponses := m.request.lostResponses + 1))
    else m.(report := m.report.(isMeasuringDelay := false, asCapableAcrossDomains := false))
  }

  function SendReqAction(m: Machine, now: UScaledNs): Machine {
    Transmitted(m, (m.request.sequenceId + 1) % TWO16, now, false)
  }

  function UpdateRatio(m: Machine, estimate: RateEstimate): Machine {
    if !m.config.computeNeighborRateRatio then m
    else if |m.samples| < 2 then m.(report := m.report.(neighborRateRatio := RATIO_ONE))
    else match estimate
      case Outlier => m.(samples := Restarted(m.samples), report := m.report.(neighborRateRatio := RATIO_ONE))
      case Usable(ratio) => m.(report := m.report.(neighborRateRatio := ratio))
  }

  function UpdateDelay(m: Machine): Machine {
    if !m.config.computeMeanLinkDelay then m
    else
      match ComputePropTime(m.stamps, m.report.neighborRateRatio)
      case FatalExit => m.(report := m.report.(exited := true))
      case Delay(d) =>
        var measurement := Measurement(m.request.txSequenceId, m.stamps, m.report.neighborRateRatio, d);
        m.(report := m.report.(meanLinkDelay := d), log := m.log.(measured := m.log.measured + [measurement]))
  }

  function JudgedReport(r: Report, c: Config, responder: u64): Report {
    if Compare(r.meanLinkDelay, c.meanLinkDelayThresh) <= 0 && responder != c.thisClock && c.neighborRateRatioValid
    then r.(isMeasuringDelay := true, asCapableAcrossDomains := true, detectedFaults := 0)
    else if responder != c.thisClock
    then r.(isMeasuringDelay := true, asCapableAcrossDomains := false, detectedFaults := 0)
    else if r.detectedFaults <= c.allowedFaults
    then r.(isMeasuringDelay := true, detectedFaults := r.detectedFaults + 1)
    else r.(isMeasuringDelay := false, asCapableAcrossDomains := false, detectedFaults := 0)
  }

  function JudgeLink(m: Machine): Machine {
    m.(report := JudgedReport(m.report, m.config, m.inbox.resp.source.clock))
  }

  function AddSample(m: Machine): Machine {
    m.(samples := Pushed(m.samples, MAXLENGTH, Sample(m.stamps.t4, m.stamps.t3)))
  }

  function IntervalAction(m: Machine, estimate: RateEstimate): Machine {
    var m := m.(inbox := m.inbox.(rcvdFollowUp := false), request := m.request.(lostResponses := 0));
    if m.config.asymmetryMeasurementMode then m
    else
      var m := UpdateDelay(UpdateRatio(AddSample(m), estimate));
      if m.report.exited then m else JudgeLink(m)
  }

  function EntryAction(m: Machine, i: Inputs): Machine {
    match m.state
    case InitialSend => InitialSendAction(m, i)
    case Reset => ResetAction(m)
    case SendReq => SendReqAction(m, i.now)
    case WaitingForResp => m.(inbox := m.inbox.(rcvdTxTimestamp := false))
    case WaitingForFollowUp => m.(inbox := m.inbox.(rcvdResp := false))
    case WaitingForInterval => IntervalAction(m, i.estimate)
    case _ => m
  }

  predicate RespIsOurs(m: Machine) {
    && m.inbox.resp.sequenceId == m.request.txSequenceId
    && m.inbox.resp.requesting == PortIdentity(m.config.thisClock, m.config.thisPort)
  }

  predicate FollowUpMatches(m: Machine) {
    && m.inbox.followUp.sequenceId == m.request.txSequenceId
    && (|| m.inbox.followUp.source == m.inbox.resp.source
        || m.inbox.resp.requesting == PortIdentity(m.config.thisClock, m.config.thisPort))
  }

  function Successor(m: Machine, now: UScaledNs): State {
    var elapsed := IntervalElapsed(m.request, m.config, now);
    match m.state
    case Init => NotEnabled
    case NotEnabled => if m.config.portOper && m.config.portEnabled0 then InitialSend else NotEnabled
    case InitialSend => if m.inbox.rcvdTxTimestamp then WaitingForResp else InitialSend
    case Reset => if elapsed then SendReq else Reset
    case SendReq => if m.inbox.rcvdTxTimestamp then WaitingForResp else SendReq
    case WaitingForResp =>
      if elapsed then Reset
      else if !m.inbox.rcvdResp then WaitingForResp
      else if RespIsOurs(m) then WaitingForFollowUp else Reset
    case WaitingForFollowUp =>
      if elapsed || (m.inbox.rcvdResp && m.inbox.resp.sequenceId == m.request.txSequenceId) then Reset
      else if m.inbox.rcvdFollowUp && FollowUpMatches(m) then WaitingForInterval else WaitingForFollowUp
    case WaitingForInterval => if elapsed then SendReq else WaitingForInterval
    case BeforeInit => BeforeInit
  }

  /** One turn of the run loop: the entry action if the state is new, then its exit conditions. */
  function Turn(m: Machine, i: Inputs): Machine {
    var entered := m.(lastState := m.state);
    var acted := if m.lastState != m.state then EntryAction(entered, i) else entered;
    if acted.report.exited then acted else acted.(state := Successor(acted, i.now))
  }

  predicate Quiescent(m: Machine) { m.report.exited || m.lastState == m.state }

  /** The timestamp flag, unless the state about to be entered clears it. */
  predicate FlagPending(m: Machine) {
    m.inbox.rcvdTxTimestamp && !(m.state == WaitingForResp && m.lastState != WaitingForResp)
  }

  function Rank(s: State): nat {
    match s
    case BeforeInit => 0
    case SendReq => 1
    case Reset => 2
    case WaitingForInterval => 2
    case WaitingForFollowUp => 3
    case WaitingForResp => 4
    case InitialSend => 5
    case NotEnabled => 6
    case Init => 7
  }

  function Measure(m: Machine): nat {
    (if FlagPending(m) then 8 else 0) + Rank(m.state)
  }

  /** What no entry action changes, and the only two that touch the timestamp flag. */
  lemma EntryActionKeeps(m: Machine, i: Inputs)
    ensures var r := EntryAction(m, i);
            && r.state == m.state && r.lastState == m.lastState && r.config == m.config
            && r.inbox.rcvdTxTimestamp == (m.inbox.rcvdTxTimestamp && !m.state.InitialSend? && !m.state.WaitingForResp?)
  {
    hide UpdateRatio, UpdateDelay, JudgedReport, Pushed;
    if m.state == WaitingForInterval {
      var a := AddSample(m.(inbox := m.inbox.(rcvdFollowUp := false), request := m.request.(lostResponses := 0)));
      RatioKeeps(a, i.estimate);
      DelayKeeps(UpdateRatio(a, i.estimate));
    }
  }

  lemma RatioKeeps(m: Machine, e: RateEstimate)
    ensures var r := UpdateRatio(m, e);
            r == m.(samples := r.samples, report := r.report) && r.report.exited == m.report.exited
  {
  }

  lemma DelayKeeps(m: Machine)
    ensures var r := UpdateDelay(m); r == m.(report := r.report, log := m.log.(measured := r.log.measured))
  {
    hide ComputePropTime;
  }

  /** Every turn that does not come to rest makes progress: the run loop ends in every state. */
  lemma TurnMakesProgress(m: Machine, i: Inputs)
    ensures Quiescent(Turn(m, i)) || Measure(Turn(m, i)) < Measure(m)
  {
    hide EntryAction, IntervalElapsed;
    EntryActionKeeps(m.(lastState := m.state), i);
  }

  function RunLoop(m: Machine, i: Inputs): (r: Machine)
    ensures Quiescent(r)
    decreases Measure(m)
  {
    hide Turn;
    TurnMakesProgress(m, i);
    var next := Turn(m, i);
    if Quiescent(next) then next else RunLoop(next, i)
  }

  function RunToRest(m: Machine, i: Inputs): (r: Machine)
    ensures Quiescent(r)
  {
    RunLoop(if m.config.Enabled() then m else m.(state := NotEnabled), i)
  }

  lemma QuietTurnIsFixpoint(m: Machine, i: Inputs)
    requires Quiescent(Turn(m, i)) && !Turn(m, i).report.exited
    ensures Turn(Turn(m, i), i) == Turn(m, i)
  {
    hide EntryAction, IntervalElapsed;
    EntryActionKeeps(m.(lastState := m.state), i);
  }

  lemma {:induction false} LoopEndsInFixpoint(m: Machine, i: Inputs)
    ensures !RunLoop(m, i).report.exited ==> Turn(RunLoop(m, i), i) == RunLoop(m, i)
    decreases Measure(m)
  {
    hide Turn;
    TurnMakesProgress(m, i);
    if Quiescent(Turn(m, i)) {
      if !Turn(m, i).report.exited { QuietTurnIsFixpoint(m, i); }
    } else {
      LoopEndsInFixpoint(Turn(m, i), i);
    }
  }

  /** The state a run ends in is one that another turn would not change. */
  lemma RunEndsInFixpoint(m: Machine, i: Inputs)
    ensures !RunToRest(m, i).report.exited ==> Turn(RunToRest(m, i), i) == RunToRest(m, i)
  {
    hide Turn, RunLoop;
    LoopEndsInFixpoint(if m.config.Enabled() then m else m.(state := NotEnabled), i);
  }

  // ---- Events ----

  datatype Event =
    | Tick(i: Inputs)
    | TxTimestamp(i: Inputs, stamp: TsuTimestamp)
    | RecvResp(i: Inputs, ingress: UScaledNs, resp: PdelayResp)
    | RecvFollowUp(i: Inputs, followUp: PdelayRespFollowUp)
    | SetPort(begin: bool, portOper: bool, portEnabled0: bool)

  predicate Awaits(m: Machine, stamp: TsuTimestamp) {
    (m.state.SendReq? || m.state.InitialSend?) && stamp.sequenceId == m.request.sequenceId
  }

  function Accept(m: Machine, stamp: TsuTimestamp): Machine {
    m.(stamps := m.stamps.(t1 := stamp.ts), inbox := m.inbox.(rcvdTxTimestamp := true),
       log := m.log.(accepted := m.log.accepted + [Accepted(stamp, |m.log.sent| - 1)]))
  }

  function TakeResp(m: Machine, resp: PdelayResp): Machine {
    m.(inbox := m.inbox.(rcvdResp := true, resp := resp), stamps := m.stamps.(t2 := FromPtp(resp.requestReceipt)))
  }

  function TakeFollowUp(m: Machine, followUp: PdelayRespFollowUp): Machine {
    m.(inbox := m.inbox.(rcvdFollowUp := true, followUp := followUp),
       stamps := m.stamps.(t3 := FromPtp(followUp.responseOrigin)))
  }

  function Handle(m: Machine, e: Event): Machine {
    if m.report.exited then m
    else
      match e
      case Tick(i) => RunToRest(m, i)
      case TxTimestamp(i, stamp) => if Awaits(m, stamp) then RunToRest(Accept(m, stamp), i) else m
      case RecvResp(i, ingress, resp) =>
        var r := RunToRest(TakeResp(m, resp), i);
        if r.report.exited then r else r.(stamps := r.stamps.(t4 := ingress))  // stored only after the run
      case RecvFollowUp(i, followUp) => RunToRest(TakeFollowUp(m, followUp), i)
      case SetPort(begin, portOper, portEnabled0) =>
        m.(config := m.config.(begin := begin, portOper := portOper, portEnabled0 := portEnabled0))
  }

  /** A machine just before its first run; what the code leaves uninitialized is arbitrary. */
  predicate Created(m: Machine, config: Config) {
    && m.config == config && m.state == Init && m.lastState == BeforeInit
    && m.samples == [] && !m.report.exited && m.log == Log([], [], [])
  }

  // ---- The machine, updated in place ----

  class MDPdelayReqSM {
    var config: Config
    var state: State
    var lastState: State
    var inbox: Inbox
    var request: Request
    var stamps: Stamps
    const ring: Ring
    var report: Report
    ghost var log: Log

    ghost predicate Valid()
      reads this, ring, ring.first, ring.second
    {
      ring.Valid() && ring.capacity == MAXLENGTH
    }

    ghost function Snapshot(): Machine
      reads this, ring
    {
      Machine(config, state, lastState, inbox, request, stamps, ring.Window, report, log)
    }

    /** init_md_pdelay_req_sm, which runs the machine once at time zero. */
    constructor (config: Config, i: Inputs)
      requires config.portEnabled0 && i.now == ZERO
      ensures Valid() && fresh(ring) && fresh(ring.first) && fresh(ring.second)
      ensures exists m :: Created(m, config) && Snapshot() == RunToRest(m, i)
    {
      this.config := config;
      state, lastState := Init, BeforeInit;
      inbox, request, stamps := *, *, *;
      var uninitialized: Report := *;
      report := uninitialized.(exited := false);
      ring := new Ring(MAXLENGTH);
      log := Log([], [], []);
      new;
      hide RunToRest;
      ghost var m := Snapshot();
      assert Created(m, config);
      Run(i);
    }

    method Transmit(id: u16, now: UScaledNs, ghost first: bool)
      requires Valid()
      modifies this
      ensures Valid() && Snapshot() == Transmitted(old(Snapshot()), id, now, first)
    {
      request := request.(sequenceId := id, txSequenceId := id);
      log := log.(sent := log.sent + [SentReq(id, now, first)]);
      request := request.(intervalTimer := now);
    }

    method EnterInitialSend(i: Inputs)
      requires Valid()
      modifies this
      ensures Valid() && Snapshot() == InitialSendAction(old(Snapshot()), i)
    {
      inbox := inbox.(rcvdResp := false, rcvdFollowUp := false);
      report := report.(neighborRateRatio := RATIO_ONE);
      inbox := inbox.(rcvdTxTimestamp := false);
      Transmit(i.random, i.now, true);
      request := request.(lostResponses := 0);
      report := report.(detectedFaults := 0, isMeasuringDelay := false, asCapableAcrossDomains := false);
    }

    method EnterReset()
      requires Valid()
      modifies this
      ensures Valid() && Snapshot() == ResetAction(old(Snapshot()))
    {
      inbox := inbox.(rcvdResp := false);
      if request.lostResponses <= config.allowedLostResponses {
        request := request.(lostResponses := request.lostResponses + 1);
      } else {
        report := report.(isMeasuringDelay := false, asCapableAcrossDomains := false);
      }
    }

    /** computePdelayRateRatio and the assignment of its result. */
    method ComputeRateRatio(estimate: RateEstimate)
      requires Valid()
      modifies this, ring
      ensures Valid() && Snapshot() == UpdateRatio(old(Snapshot()), estimate)
    {
      hide WindowOf, Restarted;
      if config.computeNeighborRateRatio {
        var has, oldest, newest := ring.Ends();
        if !has {
          report := report.(neighborRateRatio := RATIO_ONE);
        } else if estimate.Outlier? {
          ring.DropOlder();
          report := report.(neighborRateRatio := RATIO_ONE);
        } else {
          report := report.(neighborRateRatio := estimate.ratio);
        }
      }
    }

    method ComputeDelay()
      requires Valid()
      modifies this
      ensures Valid() && Snapshot() == UpdateDelay(old(Snapshot()))
    {
      hide ComputePropTime;
      if config.computeMeanLinkDelay {
        var propTime := ComputePropTime(stamps, report.neighborRateRatio);
        match propTime
        case FatalExit =>
          report := report.(exited := true);
        case Delay(d) =>
          report := report.(meanLinkDelay := d);
          log := log.(measured := log.measured + [Measurement(request.txSequenceId, stamps, report.neighborRateRatio, d)]);
      }
    }

    method Judge()
      requires Valid()
      modifies this
      ensures Valid() && Snapshot() == JudgeLink(old(Snapshot()))
    {
      report := report.(isMeasuringDelay := true);
      var fromOther := inbox.resp.source.clock != config.thisClock;
      if Compare(report.meanLinkDelay, config.meanLinkDelayThresh) <= 0 && fromOther && config.neighborRateRatioValid {
        report := report.(asCapableAcrossDomains := true, detectedFaults := 0);
      } else if fromOther {
        report := report.(asCapableAcrossDomains := false, detectedFaults := 0);
      } else if report.detectedFaults <= config.allowedFaults {
        report := report.(detectedFaults := report.detectedFaults + 1);
      } else {
        report := report.(asCapableAcrossDomains := false, isMeasuringDelay := false, detectedFaults := 0);
      }
    }

    method EnterInterval(estimate: RateEstimate)
      requires Valid() && !report.exited
      modifies this, ring, ring.first, ring.second
      ensures Valid() && Snapshot() == IntervalAction(old(Snapshot()), estimate)
    {
      hide UpdateRatio, UpdateDelay, JudgeLink;
      inbox := inbox.(rcvdFollowUp := false);
      request := request.(lostResponses := 0);
      if !config.asymmetryMeasurementMode {
        ring.Add(stamps.t4, stamps.t3);
        ComputeRateRatio(estimate);
        ComputeDelay();
        if !report.exited {
          Judge();
        }
      }
    }

    method EnterSendReq(now: UScaledNs)
      requires Valid()
      modifies this
      ensures Valid() && Snapshot() == SendReqAction(old(Snapshot()), now)
    {
      Transmit((request.sequenceId + 1) % TWO16, now, false);
    }

    method Enter(i: Inputs)
      requires Valid() && !report.exited
      modifies this, ring, ring.first, ring.second
      ensures Valid() && Snapshot() == EntryAction(old(Snapshot()), i)
    {
      hide InitialSendAction, ResetAction, SendReqAction, IntervalAction;
      match state
      case InitialSend => EnterInitialSend(i);
      case Reset => EnterReset();
      case SendReq => EnterSendReq(i.now);
      case WaitingForResp => inbox := inbox.(rcvdTxTimestamp := false);
      case WaitingForFollowUp => inbox := inbox.(rcvdResp := false);
      case WaitingForInterval => EnterInterval(i.estimate);
      case _ =>
    }

    method NextState(now: UScaledNs) returns (next: State)
      ensures next == Successor(Snapshot(), now)
    {
      var elapsed := Compare(Subtract(now, request.intervalTimer), config.interval) >= 0;
      assert elapsed == IntervalElapsed(request, config, now);
      hide IntervalElapsed;
      var self := PortIdentity(config.thisClock, config.thisPort);
      next := state;
      match state
      case Init => next := NotEnabled;
      case NotEnabled => if config.portOper && config.portEnabled0 { next := InitialSend; }
      case InitialSend => if inbox.rcvdTxTimestamp { next := WaitingForResp; }
      case Reset => if elapsed { next := SendReq; }
      case SendReq => if inbox.rcvdTxTimestamp { next := WaitingForResp; }
      case WaitingForResp =>
        if elapsed {
          next := Reset;
        } else if inbox.rcvdResp {
          if inbox.resp.sequenceId == request.txSequenceId && inbox.resp.requesting == self {
            next := WaitingForFollowUp;
          } else {
            next := Reset;
          }
        }
      case WaitingForFollowUp =>
        if elapsed || (inbox.rcvdResp && inbox.resp.sequenceId == request.txSequenceId) {
          next := Reset;
        } else if inbox.rcvdFollowUp && inbox.followUp.sequenceId == request.txSequenceId &&
                  (inbox.followUp.source == inbox.resp.source || inbox.resp.requesting == self) {
          next := WaitingForInterval;
        }
      case WaitingForInterval => if elapsed { next := SendReq; }
      case BeforeInit =>
    }

    /** md_pdelay_req_sm_run: runs to rest, and terminates doing so. */
    method Run(i: Inputs)
      requires Valid() && !report.exited
      modifies this, ring, ring.first, ring.second
      ensures Valid() && Snapshot() == RunToRest(old(Snapshot()), i)
    {
      hide EntryAction, Successor, Measure;
      if !config.Enabled() {
        state := NotEnabled;
      }
      while true
        invariant Valid() && !report.exited
        invariant RunLoop(Snapshot(), i) == RunToRest(old(Snapshot()), i)
        decreases Measure(Snapshot())
      {
        ghost var before := Snapshot();
        TurnMakesProgress(before, i);
        var stateChange := lastState != state;
        lastState := state;
        if stateChange {
          Enter(i);
          EntryActionKeeps(before.(lastState := before.state), i);
        }
        if report.exited {
          break;
        }
        var next := NextState(i.now);
        state := next;
        if lastState == state {
          break;
        }
      }
    }

    method TxTimestamp(i: Inputs, stamp: TsuTimestamp)
      requires Valid() && !report.exited
      modifies this, ring, ring.first, ring.second
      ensures Valid() && Snapshot() == Handle(old(Snapshot()), Event.TxTimestamp(i, stamp))
    {
      hide RunToRest, WindowOf;
      if state != SendReq && state != InitialSend {
        return;
      }
      if stamp.sequenceId != request.sequenceId {
        return;
      }
      stamps := stamps.(t1 := stamp.ts);
      inbox := inbox.(rcvdTxTimestamp := true);
      log := log.(accepted := log.accepted + [Accepted(stamp, |log.sent| - 1)]);
      assert Snapshot() == Accept(old(Snapshot()), stamp);
      Run(i);
    }

    method RecvResp(i: Inputs, ingress: UScaledNs, resp: PdelayResp)
      requires Valid() && !report.exited
      modifies this, ring, ring.first, ring.second
      ensures Valid() && Snapshot() == Handle(old(Snapshot()), Event.RecvResp(i, ingress, resp))
    {
      hide RunToRest, WindowOf;
      inbox := inbox.(rcvdResp := true, resp := resp);
      stamps := stamps.(t2 := FromPtp(resp.requestReceipt));
      Run(i);
      if !report.exited {
        stamps := stamps.(t4 := ingress);
      }
    }

    method RecvFollowUp(i: Inputs, followUp: PdelayRespFollowUp)
      requires Valid() && !report.exited
      modifies this, ring, ring.first, ring.second
      ensures Valid() && Snapshot() == Handle(old(Snapshot()), Event.RecvFollowUp(i, followUp))
    {
      hide RunToRest, WindowOf;
      inbox := inbox.(rcvdFollowUp := true, followUp := followUp);
      stamps := stamps.(t3 := FromPtp(followUp.responseOrigin));
      Run(i);
    }
  }
}
