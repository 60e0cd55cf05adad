/** The peer-delay responder (MDPdelayResp, section 11.2.20 of IEEE Std 802.1AS-2020). */
module PdelayResponder {
  import opened Words
  import opened ScaledTime
  import opened PtpMessages

  datatype State = BeforeInit | Init | NotEnabled | InitialWaiting | SentResp | WaitingForReq

  datatype Config = Config(begin: bool, portOper: bool, portEnabled1: bool, thisPort: u16) {
    predicate Enabled() { !begin && portOper && portEnabled1 }
  }

  datatype Option<T> = None | Some(value: T)

  /** A message handed to the network. */
  datatype Sent = Resp(resp: PdelayResp) | FollowUp(followUp: PdelayRespFollowUp)

  /** `req` is the pointer to the request being answered; using it while null is `crashed`. */
  datatype Machine = Machine(
    config: Config, state: State, lastState: State,
    rcvdReq: bool, rcvdTxTimestamp: bool, req: Option<PdelayReq>,
    t2: UScaledNs, t3: UScaledNs, crashed: bool, out: seq<Sent>)

  // ---- Specification of one run ----

  /** setPdelayResp and setPdelayRespFollowUp send under the default clock identity, which is zero. */
  function MakeResp(req: PdelayReq, c: Config, t2: UScaledNs): PdelayResp {
    PdelayResp(req.sequenceId, PortIdentity(0, c.thisPort), ToPtp(t2), req.source)
  }

  function MakeFollowUp(req: PdelayReq, c: Config, t3: UScaledNs): PdelayRespFollowUp {
    PdelayRespFollowUp(req.sequenceId, PortIdentity(0, c.thisPort), ToPtp(t3), req.source)
  }

  function SentRespAction(m: Machine): Machine {
    match m.req
    case None => m.(rcvdReq := false, crashed := true)
    case Some(req) => m.(rcvdReq := false, out := m.out + [Resp(MakeResp(req, m.config, m.t2))])
  }

  function WaitingForReqAction(m: Machine): Machine {
    match m.req
    case None => m.(rcvdTxTimestamp := false, crashed := true)
    case Some(req) =>
      m.(rcvdTxTimestamp := false, out := m.out + [FollowUp(MakeFollowUp(req, m.config, m.t3))], req := None)
  }

  function EntryAction(m: Machine): Machine {
    match m.state
    case InitialWaiting => m.(rcvdReq := false, rcvdTxTimestamp := false)
    case SentResp => SentRespAction(m)
    case WaitingForReq => WaitingForReqAction(m)
    case _ => m
  }

  /** not_enabled_state_transition looks at portEnabled1 only. */
  function Successor(m: Machine): State {
    match m.state
    case Init => NotEnabled
    case NotEnabled => if m.config.portEnabled1 then InitialWaiting else NotEnabled
    case InitialWaiting => if m.rcvdReq then SentResp else InitialWaiting
    case SentResp => if m.rcvdTxTimestamp then WaitingForReq else SentResp
    case WaitingForReq => if m.rcvdReq then SentResp else WaitingForReq
    case BeforeInit => BeforeInit
  }

  function Turn(m: Machine): Machine {
    var entered := m.(lastState := m.state);
    var acted := if m.lastState != m.state then EntryAction(entered) else entered;
    if acted.crashed then acted else acted.(state := Successor(acted))
  }

  predicate Quiescent(m: Machine) { m.crashed || m.lastState == m.state }

  /** Flags that the state about to be entered will not clear first. */
  function PendingFlags(m: Machine): nat {
    var entering := m.lastState != m.state;
    (if m.rcvdReq && !(entering && (m.state == SentResp || m.state == InitialWaiting)) then 1 else 0) +
    (if m.rcvdTxTimestamp && !(entering && (m.state == WaitingForReq || m.state == InitialWaiting)) then 1 else 0)
  }

  function Measure(m: Machine): nat {
    3 * PendingFlags(m) + (if m.state == Init then 2 else if m.state == NotEnabled then 1 else 0)
  }

  lemma TurnMakesProgress(m: Machine)
    ensures Quiescent(Turn(m)) || Measure(Turn(m)) < Measure(m)
  {
    hide MakeResp, MakeFollowUp;
  }

  function RunLoop(m: Machine): (r: Machine)
    ensures Quiescent(r)
    decreases Measure(m)
  {
    hide Turn;
    TurnMakesProgress(m);
    var next := Turn(m);
    if Quiescent(next) then next else RunLoop(next)
  }

  function RunToRest(m: Machine): (r: Machine)
    ensures Quiescent(r)
  {
    RunLoop(if m.config.Enabled() then m else m.(state := NotEnabled))
  }

  lemma QuietTurnIsFixpoint(m: Machine)
    requires Quiescent(Turn(m)) && !Turn(m).crashed
    ensures Turn(Turn(m)) == Turn(m)
  {
    hide MakeResp, MakeFollowUp;
  }

  lemma {:induction false} LoopEndsInFixpoint(m: Machine)
    ensures !RunLoop(m).crashed ==> Turn(RunLoop(m)) == RunLoop(m)
    decreases Measure(m)
  {
    hide Turn;
    TurnMakesProgress(m);
    if Quiescent(Turn(m)) {
      if !Turn(m).crashed { QuietTurnIsFixpoint(m); }
    } else {
      LoopEndsInFixpoint(Turn(m));
    }
  }

  /** The state a run ends in is one that another turn would not change. */
  lemma RunEndsInFixpoint(m: Machine)
    ensures !RunToRest(m).crashed ==> Turn(RunToRest(m)) == RunToRest(m)
  {
    hide Turn, RunLoop;
    LoopEndsInFixpoint(if m.config.Enabled() then m else m.(state := NotEnabled));
  }

  // ---- Events ----

  datatype Event =
    | Tick
    | RecvReq(ingress: UScaledNs, req: PdelayReq)
    | TxTimestamp(stamp: TsuTimestamp)
    | SetPort(begin: bool, portOper: bool, portEnabled1: bool)

  predicate Awaits(m: Machine, stamp: TsuTimestamp) {
    m.state == SentResp && m.req.Some? && stamp.sequenceId == m.req.value.sequenceId
  }

  function Handle(m: Machine, e: Event): Machine {
    if m.crashed then m
    else
      match e
      case Tick => RunToRest(m)
      case RecvReq(ingress, req) => RunToRest(m.(rcvdReq := true, req := Some(req), t2 := ingress))
      case TxTimestamp(stamp) =>
        if m.state == SentResp && m.req.None? then m.(crashed := true)
        else if Awaits(m, stamp) then RunToRest(m.(t3 := stamp.ts, rcvdTxTimestamp := true))
        else m
      case SetPort(begin, portOper, portEnabled1) =>
        m.(config := m.config.(begin := begin, portOper := portOper, portEnabled1 := portEnabled1))
  }

  predicate Created(m: Machine, config: Config) {
    m.config == config && m.state == Init && m.lastState == BeforeInit && m.req == None && !m.crashed && m.out == []
  }

  // ---- The machine, updated in place ----

  class MDPdelayRespSM {
    var config: Config
    var state: State
    var lastState: State
    var rcvdPdelayReq: bool
    var rcvdMDTimestampReceive: bool
    var rcvdPdelayReqMsg: Option<PdelayReq>
    var t2: UScaledNs
    var t3: UScaledNs
    var crashed: bool
    ghost var out: seq<Sent>

    ghost function Snapshot(): Machine
      reads this
    {
      Machine(config, state, lastState, rcvdPdelayReq, rcvdMDTimestampReceive, rcvdPdelayReqMsg, t2, t3, crashed, out)
    }

    constructor (config: Config)
      requires config.portEnabled1
      ensures exists m :: Created(m, config) && Snapshot() == RunToRest(m)
    {
      this.config := config;
      state, lastState := Init, BeforeInit;
      rcvdPdelayReqMsg, crashed, out := None, false, [];
      rcvdPdelayReq, rcvdMDTimestampReceive, t2, t3 := *, *, *, *;
      new;
      hide RunToRest;
      ghost var m := Snapshot();
      assert Created(m, config);
      Run();
    }

    method EnterSentResp()
      modifies this
      ensures Snapshot() == SentRespAction(old(Snapshot()))
    {
      hide MakeResp;
      rcvdPdelayReq := false;
      match rcvdPdelayReqMsg
      case None => crashed := true;
      case Some(req) => out := out + [Resp(MakeResp(req, config, t2))];
    }

    method EnterWaitingForReq()
      modifies this
      ensures Snapshot() == WaitingForReqAction(old(Snapshot()))
    {
      hide MakeFollowUp;
      rcvdMDTimestampReceive := false;
      match rcvdPdelayReqMsg
      case None => crashed := true;
      case Some(req) =>
        out := out + [FollowUp(MakeFollowUp(req, config, t3))];
        rcvdPdelayReqMsg := None;
    }

    method Enter()
      modifies this
      ensures Snapshot() == EntryAction(old(Snapshot()))
    {
      hide SentRespAction, WaitingForReqAction;
      match state
      case InitialWaiting =>
        rcvdPdelayReq := false;
        rcvdMDTimestampReceive := false;
      case SentResp => EnterSentResp();
      case WaitingForReq => EnterWaitingForReq();
      case _ =>
    }

    method NextState() returns (next: State)
      ensures next == Successor(Snapshot())
    {
      next := state;
      match state
      case Init => next := NotEnabled;
      case NotEnabled => if config.portEnabled1 { next := InitialWaiting; }
      case InitialWaiting => if rcvdPdelayReq { next := SentResp; }
      case SentResp => if rcvdMDTimestampReceive { next := WaitingForReq; }
      case WaitingForReq => if rcvdPdelayReq { next := SentResp; }
      case BeforeInit =>
    }

    method TakeTurn()
      requires !crashed
      modifies this
      ensures Snapshot() == Turn(old(Snapshot()))
    {
      hide EntryAction, Successor;
      var stateChange := lastState != state;
      lastState := state;
      if stateChange {
        Enter();
      }
      if !crashed {
        state := NextState();
      }
    }

    /** md_pdelay_resp_sm_run: runs to rest, and terminates doing so. */
    method Run()
      requires !crashed
      modifies this
      ensures Snapshot() == RunToRest(old(Snapshot()))
    {
      hide Turn, Measure;
      if !config.Enabled() {
        state := NotEnabled;
      }
      while true
        invariant !crashed
        invariant RunLoop(Snapshot()) == RunToRest(old(Snapshot()))
        decreases Measure(Snapshot())
      {
        TurnMakesProgress(Snapshot());
        TakeTurn();
        if crashed || lastState == state {
          break;
        }
      }
    }

    method RecvReq(ingress: UScaledNs, req: PdelayReq)
      requires !crashed
      modifies this
      ensures Snapshot() == Handle(old(Snapshot()), Event.RecvReq(ingress, req))
    {
      hide RunToRest;
      rcvdPdelayReq := true;
      rcvdPdelayReqMsg := Some(req);
      t2 := ingress;
      Run();
    }

    method TxTimestamp(stamp: TsuTimestamp)
      requires !crashed
      modifies this
      ensures Snapshot() == Handle(old(Snapshot()), Event.TxTimestamp(stamp))
    {
      hide RunToRest;
      if state != SentResp {
        return;
      }
      if rcvdPdelayReqMsg.None? {
        crashed := true;
        return;
      }
      if stamp.sequenceId != rcvdPdelayReqMsg.value.sequenceId {
        return;
      }
      t3 := stamp.ts;
      rcvdMDTimestampReceive := true;
      Run();
    }
  }
}
