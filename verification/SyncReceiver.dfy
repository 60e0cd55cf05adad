/** The Sync receiver (MDSyncReceive, section 11.2.14 of IEEE Std 802.1AS-2020). */
module SyncReceiver {
  import opened Words
  import opened ScaledTime
  import opened PtpMessages

  /** REACTION is never entered: it is stored as the last state to make the present one look new. */
  datatype State = BeforeInit | Init | Discard | WaitingForFollowUp | WaitingForSync | Reaction

  datatype Config = Config(begin: bool, instanceEnable: bool,
                           portOper: bool, ptpPortEnabled: bool, asCapable: bool, asymmetryMeasurementMode: bool,
                           meanLinkDelay: UScaledNs)
  {
    predicate PortGood() { portOper && ptpPortEnabled && asCapable }
  }

  datatype Arrival = Arrival(sync: SyncMsg, ingress: UScaledNs)

  /** An MDSyncReceive passed on, and the indices of the Sync and the Follow_Up it was made from. */
  datatype Emission = Emission(sync: int, followUp: int, delay: UScaledNs, data: MDSync)

  datatype Log = Log(syncs: seq<Arrival>, followUps: seq<FollowUpMsg>, emitted: seq<Emission>)

  datatype Machine = Machine(
    config: Config, state: State, lastState: State,
    rcvdSync: bool, sync: SyncMsg, ingress: UScaledNs,
    rcvdFollowUp: bool, followUp: FollowUpMsg,
    timeout: UScaledNs, log: Log)

  // ---- Specification of one run ----

  /** setMDSyncReceiveMDSR */
  function MakeMDSync(s: SyncMsg, f: FollowUpMsg, ingress: UScaledNs, delay: UScaledNs): MDSync {
    MDSync(s.source, s.logMessageInterval, f.preciseOrigin,
           Add(FromUint64(s.correction), FromUint64(f.correction)),
           Subtract(ingress, delay), f.gmTimeBaseIndicator, f.lastGmPhaseChange)
  }

  function EmitAction(m: Machine): Machine {
    var data := MakeMDSync(m.sync, m.followUp, m.ingress, m.config.meanLinkDelay);
    var emission := Emission(|m.log.syncs| - 1, |m.log.followUps| - 1, m.config.meanLinkDelay, data);
    m.(rcvdSync := false, rcvdFollowUp := false, log := m.log.(emitted := m.log.emitted + [emission]))
  }

  function EntryAction(m: Machine, now: UScaledNs): Machine {
    match m.state
    case Discard => m.(rcvdSync := false, rcvdFollowUp := false)
    case WaitingForFollowUp => m.(rcvdSync := false, timeout := Add(now, ONE_SECOND))
    case WaitingForSync => EmitAction(m)
    case _ => m
  }

  predicate MayStart(m: Machine) {
    m.rcvdSync && m.config.PortGood() && !m.config.asymmetryMeasurementMode
  }

  predicate Paired(m: Machine) { m.rcvdFollowUp && m.followUp.sequenceId == m.sync.sequenceId }

  predicate TimedOut(m: Machine, now: UScaledNs) {
    Compare(now, m.timeout) >= 0 && !m.config.asymmetryMeasurementMode
  }

  /** The exit conditions; a second Sync restarts the wait through the REACTION trick. */
  function Exit(m: Machine, now: UScaledNs): Machine {
    match m.state
    case Init => m.(state := Discard)
    case Discard => if MayStart(m) then m.(state := WaitingForFollowUp) else m
    case WaitingForFollowUp =>
      if m.rcvdSync && m.config.PortGood() then m.(lastState := Reaction)
      else if Paired(m) then m.(state := WaitingForSync)
      else if TimedOut(m, now) then m.(state := Discard)
      else m
    case WaitingForSync => if MayStart(m) then m.(state := WaitingForFollowUp) else m
    case _ => m
  }

  function Turn(m: Machine, now: UScaledNs): Machine {
    var entered := m.(lastState := m.state);
    Exit(if m.lastState != m.state then EntryAction(entered, now) else entered, now)
  }

  predicate Quiescent(m: Machine) { m.lastState == m.state }

  predicate Entering(m: Machine) { m.state != m.lastState }

  predicate Working(s: State) { s == Discard || s == WaitingForFollowUp || s == WaitingForSync }

  /** Flags that the state about to be entered will not clear first, then the order of the states. */
  function Measure(m: Machine): nat {
    (if m.rcvdSync && !(Entering(m) && Working(m.state)) then 3 else 0) +
    (if m.rcvdFollowUp && !(Entering(m) && (m.state == Discard || m.state == WaitingForSync)) then 3 else 0) +
    (if m.state == Init then 2 else if m.state == WaitingForFollowUp then 1 else 0)
  }

  lemma TurnMakesProgress(m: Machine, now: UScaledNs)
    ensures Quiescent(Turn(m, now)) || Measure(Turn(m, now)) < Measure(m)
  {
    hide MakeMDSync, Add, Compare;
  }

  function RunLoop(m: Machine, now: UScaledNs): (r: Machine)
    ensures Quiescent(r)
    decreases Measure(m)
  {
    hide Turn;
    TurnMakesProgress(m, now);
    var next := Turn(m, now);
    if Quiescent(next) then next else RunLoop(next, now)
  }

  predicate Forced(m: Machine) {
    m.config.begin || !m.config.instanceEnable || (m.rcvdSync && !m.config.PortGood())
  }

  function RunToRest(m: Machine, now: UScaledNs): (r: Machine)
    ensures Quiescent(r)
  {
    RunLoop(if Forced(m) then m.(state := Discard) else m, now)
  }

  lemma QuietTurnIsFixpoint(m: Machine, now: UScaledNs)
    requires Quiescent(Turn(m, now))
    ensures Turn(Turn(m, now), now) == Turn(m, now)
  {
    hide MakeMDSync, Add, Compare;
  }

  lemma {:induction false} LoopEndsInFixpoint(m: Machine, now: UScaledNs)
    ensures Turn(RunLoop(m, now), now) == RunLoop(m, now)
    decreases Measure(m)
  {
    hide Turn;
    TurnMakesProgress(m, now);
    if Quiescent(Turn(m, now)) {
      QuietTurnIsFixpoint(m, now);
    } else {
      LoopEndsInFixpoint(Turn(m, now), now);
    }
  }

  /** The state a run ends in is one that another turn would not change. */
  lemma RunEndsInFixpoint(m: Machine, now: UScaledNs)
    ensures Turn(RunToRest(m, now), now) == RunToRest(m, now)
  {
    hide Turn, RunLoop;
    LoopEndsInFixpoint(if Forced(m) then m.(state := Discard) else m, now);
  }

  // ---- Events ----

  datatype Event =
    | Tick(now: UScaledNs)
    | RecvSync(now: UScaledNs, ingress: UScaledNs, sync: SyncMsg)
    | RecvFollowUp(now: UScaledNs, followUp: FollowUpMsg)
    | SetConfig(config: Config)

  function TakeSync(m: Machine, ingress: UScaledNs, sync: SyncMsg): Machine {
    m.(rcvdSync := true, sync := sync, ingress := ingress,
       log := m.log.(syncs := m.log.syncs + [Arrival(sync, ingress)]))
  }

  function TakeFollowUp(m: Machine, followUp: FollowUpMsg): Machine {
    m.(rcvdFollowUp := true, followUp := followUp, log := m.log.(followUps := m.log.followUps + [followUp]))
  }

  function Handle(m: Machine, e: Event): Machine {
    match e
    case Tick(now) => RunToRest(m, now)
    case RecvSync(now, ingress, sync) => RunToRest(TakeSync(m, ingress, sync), now)
    case RecvFollowUp(now, followUp) => RunToRest(TakeFollowUp(m, followUp), now)
    case SetConfig(config) => m.(config := config)
  }

  predicate Created(m: Machine, config: Config) {
    m.config == config && m.state == Init && m.lastState == BeforeInit && m.log == Log([], [], [])
  }

  // ---- The machine, updated in place ----

  class MDSyncReceiveSM {
    var config: Config
    var state: State
    var lastState: State
    var rcvdSync: bool
    var rcvdSyncMsg: SyncMsg
    var syncEventIngressTimestamp: UScaledNs
    var rcvdFollowUp: bool
    var rcvdFollowUpMsg: FollowUpMsg
    var followUpReceiptTimeoutTime: UScaledNs
    ghost var log: Log

    ghost function Snapshot(): Machine
      reads this
    {
      Machine(config, state, lastState, rcvdSync, rcvdSyncMsg, syncEventIngressTimestamp,
              rcvdFollowUp, rcvdFollowUpMsg, followUpReceiptTimeoutTime, log)
    }

    /** init_md_sync_receive_sm */
    constructor (config: Config)
      ensures exists m :: Created(m, config) && Snapshot() == RunToRest(m, ZERO)
    {
      this.config := config;
      state, lastState := Init, BeforeInit;
      rcvdSync, rcvdSyncMsg, syncEventIngressTimestamp := *, *, *;
      rcvdFollowUp, rcvdFollowUpMsg, followUpReceiptTimeoutTime := *, *, *;
      log := Log([], [], []);
      new;
      hide RunToRest;
      ghost var m := Snapshot();
      assert Created(m, config);
      Run(ZERO);
    }

    method EnterWaitingForSync()
      modifies this
      ensures Snapshot() == EmitAction(old(Snapshot()))
    {
      hide MakeMDSync;
      rcvdSync := false;
      rcvdFollowUp := false;
      var data := MakeMDSync(rcvdSyncMsg, rcvdFollowUpMsg, syncEventIngressTimestamp, config.meanLinkDelay);
      log := log.(emitted := log.emitted +
                    [Emission(|log.syncs| - 1, |log.followUps| - 1, config.meanLinkDelay, data)]);
    }

    method Enter(now: UScaledNs)
      modifies this
      ensures Snapshot() == EntryAction(old(Snapshot()), now)
    {
      hide EmitAction, Add;
      match state
      case Discard =>
        rcvdSync := false;
        rcvdFollowUp := false;
      case WaitingForFollowUp =>
        rcvdSync := false;
        followUpReceiptTimeoutTime := Add(now, ONE_SECOND);
      case WaitingForSync => EnterWaitingForSync();
      case _ =>
    }

    method Leave(now: UScaledNs)
      modifies this
      ensures Snapshot() == Exit(old(Snapshot()), now)
    {
      hide Compare;
      var portValid := config.PortGood();
      match state
      case Init => state := Discard;
      case Discard =>
        if rcvdSync && portValid && !config.asymmetryMeasurementMode { state := WaitingForFollowUp; }
      case WaitingForFollowUp =>
        if rcvdSync && portValid {
          lastState := Reaction;
        } else if rcvdFollowUp && rcvdFollowUpMsg.sequenceId == rcvdSyncMsg.sequenceId {
          state := WaitingForSync;
        } else if Compare(now, followUpReceiptTimeoutTime) >= 0 && !config.asymmetryMeasurementMode {
          state := Discard;
        }
      case WaitingForSync =>
        if rcvdSync && portValid && !config.asymmetryMeasurementMode { state := WaitingForFollowUp; }
      case _ =>
    }

    method TakeTurn(now: UScaledNs)
      modifies this
      ensures Snapshot() == Turn(old(Snapshot()), now)
    {
      hide EntryAction, Exit;
      var stateChange := lastState != state;
      lastState := state;
      if stateChange {
        Enter(now);
      }
      Leave(now);
    }

    /** md_sync_receive_sm_run: runs to rest, and terminates doing so. */
    method Run(now: UScaledNs)
      modifies this
      ensures Snapshot() == RunToRest(old(Snapshot()), now)
    {
      hide Turn, Measure;
      if config.begin || !config.instanceEnable || (rcvdSync && !config.PortGood()) {
        state := Discard;
      }
      while true
        invariant RunLoop(Snapshot(), now) == RunToRest(old(Snapshot()), now)
        decreases Measure(Snapshot())
      {
        TurnMakesProgress(Snapshot(), now);
        TakeTurn(now);
        if lastState == state {
          break;
        }
      }
    }

    method RecvSync(now: UScaledNs, ingress: UScaledNs, sync: SyncMsg)
      modifies this
      ensures Snapshot() == Handle(old(Snapshot()), Event.RecvSync(now, ingress, sync))
    {
      hide RunToRest;
      rcvdSync := true;
      rcvdSyncMsg := sync;
      syncEventIngressTimestamp := ingress;
      log := log.(syncs := log.syncs + [Arrival(sync, ingress)]);
      Run(now);
    }

    method RecvFollowUp(now: UScaledNs, followUp: FollowUpMsg)
      modifies this
      ensures Snapshot() == Handle(old(Snapshot()), Event.RecvFollowUp(now, followUp))
    {
      hide RunToRest;
      rcvdFollowUp := true;
      rcvdFollowUpMsg := followUp;
      log := log.(followUps := log.followUps + [followUp]);
      Run(now);
    }
  }

  // ---- What holds over every run ----

  /**
    Each emission pairs a Sync and a Follow_Up of equal ids and uses that Sync's own ingress time;
    later emissions use later Syncs and later Follow_Ups, so none is used twice.
   */
  predicate WellPaired(log: Log) {
    && (forall k :: 0 <= k < |log.emitted| ==> FromPair(log, log.emitted[k]))
    && (forall j, k :: 0 <= j < k < |log.emitted| ==>
          log.emitted[j].sync < log.emitted[k].sync && log.emitted[j].followUp < log.emitted[k].followUp)
  }

  predicate FromPair(log: Log, e: Emission) {
    && 0 <= e.sync < |log.syncs| && 0 <= e.followUp < |log.followUps|
    && log.syncs[e.sync].sync.sequenceId == log.followUps[e.followUp].sequenceId
    && e.data == MakeMDSync(log.syncs[e.sync].sync, log.followUps[e.followUp], log.syncs[e.sync].ingress, e.delay)
  }

  function LastUsedSync(log: Log): int {
    if log.emitted == [] then -1 else log.emitted[|log.emitted| - 1].sync
  }

  function LastUsedFollowUp(log: Log): int {
    if log.emitted == [] then -1 else log.emitted[|log.emitted| - 1].followUp
  }

  predicate SyncIsNew(m: Machine) { LastUsedSync(m.log) < |m.log.syncs| - 1 }

  predicate FollowUpIsNew(m: Machine) { LastUsedFollowUp(m.log) < |m.log.followUps| - 1 }

  predicate HoldsLatest(m: Machine) {
    && (m.log.syncs != [] ==> m.log.syncs[|m.log.syncs| - 1] == Arrival(m.sync, m.ingress))
    && (m.log.followUps != [] ==> m.log.followUps[|m.log.followUps| - 1] == m.followUp)
  }

  predicate AboutToClear(m: Machine) { m.state == Init || (m.state == Discard && Entering(m)) }

  predicate Inv(m: Machine) {
    && WellPaired(m.log) && HoldsLatest(m) && (Working(m.state) || m.state == Init)
    && (m.rcvdSync ==> SyncIsNew(m) || AboutToClear(m))
    && (m.rcvdFollowUp ==> FollowUpIsNew(m) || AboutToClear(m))
    && (m.state == WaitingForFollowUp ==> SyncIsNew(m))
    && (m.state == WaitingForSync && Entering(m) ==> SyncIsNew(m) && FollowUpIsNew(m) && Paired(m))
  }

  lemma EmitKeeps(m: Machine)
    requires Inv(m) && m.state == WaitingForSync && Entering(m)
    ensures Inv(EmitAction(m.(lastState := m.state)))
  {
    hide MakeMDSync;
    UsedSoFar(m.log);
  }

  lemma UsedSoFar(log: Log)
    requires WellPaired(log)
    ensures -1 <= LastUsedSync(log) < |log.syncs| && -1 <= LastUsedFollowUp(log) < |log.followUps|
    ensures forall k :: 0 <= k < |log.emitted| ==>
              log.emitted[k].sync <= LastUsedSync(log) && log.emitted[k].followUp <= LastUsedFollowUp(log)
  {
    hide MakeMDSync;
    if log.emitted != [] {
      assert FromPair(log, log.emitted[|log.emitted| - 1]);
    }
  }

  lemma TurnKeeps(m: Machine, now: UScaledNs)
    requires Inv(m)
    ensures Inv(Turn(m, now))
    ensures Quiescent(Turn(m, now)) ==> AtRest(Turn(m, now))
  {
    hide WellPaired, Add, Compare, EmitAction;
    if m.state == WaitingForSync && Entering(m) {
      EmitKeeps(m);
      EmitClears(m.(lastState := m.state));
    }
  }

  lemma EmitClears(m: Machine)
    ensures !EmitAction(m).rcvdSync && !EmitAction(m).rcvdFollowUp
    ensures EmitAction(m).state == m.state && EmitAction(m).lastState == m.lastState
  {
  }

  predicate AtRest(m: Machine) { Inv(m) && !Entering(m) && Working(m.state) }

  lemma {:induction false} RunLoopKeeps(m: Machine, now: UScaledNs)
    requires Inv(m)
    ensures AtRest(RunLoop(m, now))
    decreases Measure(m)
  {
    hide Inv, Turn, AtRest;
    TurnKeeps(m, now);
    TurnMakesProgress(m, now);
    if !Quiescent(Turn(m, now)) {
      RunLoopKeeps(Turn(m, now), now);
    }
  }

  lemma RunKeeps(m: Machine, now: UScaledNs)
    requires Inv(m) && (m.lastState == m.state || m.lastState == BeforeInit)
    ensures AtRest(RunToRest(m, now))
  {
    hide RunLoop, WellPaired;
    RunLoopKeeps(if Forced(m) then m.(state := Discard) else m, now);
  }

  lemma TakeSyncKeeps(m: Machine, ingress: UScaledNs, sync: SyncMsg)
    requires AtRest(m)
    ensures Inv(TakeSync(m, ingress, sync))
  {
    hide MakeMDSync;
    UsedSoFar(m.log);
  }

  lemma TakeFollowUpKeeps(m: Machine, followUp: FollowUpMsg)
    requires AtRest(m)
    ensures Inv(TakeFollowUp(m, followUp))
  {
    hide MakeMDSync;
    UsedSoFar(m.log);
  }

  lemma HandleKeeps(m: Machine, e: Event)
    requires AtRest(m)
    ensures AtRest(Handle(m, e))
  {
    hide RunToRest, WellPaired;
    match e
    case Tick(now) => RunKeeps(m, now);
    case RecvSync(now, ingress, sync) =>
      TakeSyncKeeps(m, ingress, sync);
      RunKeeps(TakeSync(m, ingress, sync), now);
    case RecvFollowUp(now, followUp) =>
      TakeFollowUpKeeps(m, followUp);
      RunKeeps(TakeFollowUp(m, followUp), now);
    case SetConfig(_) =>
  }

  function After(m: Machine, events: seq<Event>): Machine {
    if events == [] then m else Handle(After(m, events[..|events| - 1]), events[|events| - 1])
  }

  lemma {:induction false} EventsKeep(m: Machine, events: seq<Event>)
    requires AtRest(m)
    ensures AtRest(After(m, events))
  {
    hide AtRest, Handle;
    if events != [] {
      EventsKeep(m, events[..|events| - 1]);
      HandleKeeps(After(m, events[..|events| - 1]), events[|events| - 1]);
    }
  }

  lemma ReceiverSafety(created: Machine, config: Config, now: UScaledNs, events: seq<Event>)
    requires Created(created, config)
    ensures WellPaired(After(RunToRest(created, now), events).log)
  {
    hide RunToRest, Handle;
    RunKeeps(created, now);
    EventsKeep(RunToRest(created, now), events);
  }

  // ---- What a run does with a Sync, and with its Follow_Up ----

  predicate Undisturbed(c: Config) {
    !c.begin && c.instanceEnable && c.PortGood() && !c.asymmetryMeasurementMode
  }

  /** A run of two turns. */
  lemma RestsAfter(m: Machine, now: UScaledNs)
    requires !Forced(m) && !Quiescent(Turn(m, now))
    ensures Quiescent(Turn(Turn(m, now), now)) ==> RunToRest(m, now) == Turn(Turn(m, now), now)
  {
    hide Turn;
    assert RunLoop(m, now) == RunLoop(Turn(m, now), now);
  }

  /**
    A Sync that arrives while none of its Follow_Ups is stored is held, in place of an earlier one,
    for one second from now.
   */
  lemma SyncIsHeld(m: Machine, now: UScaledNs, ingress: UScaledNs, sync: SyncMsg)
    requires AtRest(m) && Undisturbed(m.config)
    requires !(m.rcvdFollowUp && m.followUp.sequenceId == sync.sequenceId)
    requires Compare(now, Add(now, ONE_SECOND)) < 0
    ensures Handle(m, RecvSync(now, ingress, sync))
            == TakeSync(m, ingress, sync).(rcvdSync := false, state := WaitingForFollowUp,
                                            lastState := WaitingForFollowUp, timeout := Add(now, ONE_SECOND))
  {
    hide Add, Compare, MakeMDSync, Inv;
    var m0 := TakeSync(m, ingress, sync);
    var m1 := Turn(m0, now);
    assert m1.state == WaitingForFollowUp && m1.lastState != WaitingForFollowUp;
    RestsAfter(m0, now);
  }

  /** The Follow_Up of the Sync being held is answered in the same run, even past the timeout. */
  lemma FollowUpIsAnswered(m: Machine, now: UScaledNs, followUp: FollowUpMsg)
    requires AtRest(m) && Undisturbed(m.config) && m.state == WaitingForFollowUp && !m.rcvdSync
    requires followUp.sequenceId == m.sync.sequenceId
    ensures var r := Handle(m, RecvFollowUp(now, followUp));
            r.log.emitted == m.log.emitted +
              [Emission(|m.log.syncs| - 1, |m.log.followUps|, m.config.meanLinkDelay,
                        MakeMDSync(m.sync, followUp, m.ingress, m.config.meanLinkDelay))]
  {
    hide Add, Compare, MakeMDSync, Inv;
    var m0 := TakeFollowUp(m, followUp);
    assert Turn(m0, now) == m0.(state := WaitingForSync);
    RestsAfter(m0, now);
  }

  /** Without it the Sync is given up at the first run at or past the timeout. */
  lemma TimeoutDiscards(m: Machine, now: UScaledNs)
    requires AtRest(m) && Undisturbed(m.config) && m.state == WaitingForFollowUp && !m.rcvdSync && !Paired(m)
    ensures Handle(m, Tick(now)) == if Value(now) >= Value(m.timeout)
                                    then m.(state := Discard, lastState := Discard, rcvdFollowUp := false) else m
  {
    hide Add, Compare, MakeMDSync, Inv, Value;
    if Value(now) >= Value(m.timeout) {
      assert Turn(m, now) == m.(state := Discard);
      RestsAfter(m, now);
    } else {
      assert Turn(m, now) == m;
    }
  }

  // ---- Exactly what an event makes of the machine ----

  predicate PortUp(c: Config) { c.portOper && c.ptpPortEnabled && c.asCapable }

  /** A Sync that has just come may be held. In DISCARD it may even under BEGIN: the machine is there already. */
  predicate MayHold(m: Machine) {
    && m.rcvdSync && PortUp(m.config)
    && (!m.config.asymmetryMeasurementMode || m.state == WaitingForFollowUp)
  }

  /** The run begins by forcing the machine to DISCARD. */
  predicate GoesDown(m: Machine) {
    m.config.begin || !m.config.instanceEnable || (m.rcvdSync && !PortUp(m.config))
  }

  predicate Expired(m: Machine, now: UScaledNs) {
    Value(now) >= Value(m.timeout) && !m.config.asymmetryMeasurementMode
  }

  function Discarded(m: Machine): Machine {
    m.(state := Discard, lastState := Discard, rcvdSync := false, rcvdFollowUp := false)
  }

  /** Origin, corrections and arrival less the link delay, of the Sync and the Follow_Up held. */
  function Emitted(m: Machine): Machine {
    var s, f, delay := m.sync, m.followUp, m.config.meanLinkDelay;
    var correction := Add(FromUint64(s.correction), FromUint64(f.correction));
    var data := MDSync(s.source, s.logMessageInterval, f.preciseOrigin, correction, Subtract(m.ingress, delay),
                       f.gmTimeBaseIndicator, f.lastGmPhaseChange);
    m.(state := WaitingForSync, lastState := WaitingForSync, rcvdSync := false, rcvdFollowUp := false,
       log := m.log.(emitted := m.log.emitted + [Emission(|m.log.syncs| - 1, |m.log.followUps| - 1, delay, data)]))
  }

  function Waiting(m: Machine, now: UScaledNs): Machine {
    if m.rcvdFollowUp && m.followUp.sequenceId == m.sync.sequenceId then Emitted(m)
    else if Expired(m, now) then Discarded(m)
    else m.(state := WaitingForFollowUp, lastState := WaitingForFollowUp)
  }

  /** A Sync is held for one second, unless its Follow_Up has come before it. */
  function Held(m: Machine, now: UScaledNs): Machine {
    Waiting(m.(rcvdSync := false, timeout := Add(now, UScaledNs(0, 1_000_000_000, 0))), now)
  }

  function Outcome(m: Machine, now: UScaledNs): Machine {
    if GoesDown(m) && m.state != Discard then Discarded(m)
    else if MayHold(m) then Held(m, now)
    else if m.state == WaitingForFollowUp then Waiting(m, now)
    else m
  }

  lemma OneTurn(m: Machine, now: UScaledNs)
    ensures RunLoop(m, now) == if Quiescent(Turn(m, now)) then Turn(m, now) else RunLoop(Turn(m, now), now)
  {
    hide Turn;
  }

  lemma EntersDiscard(m: Machine, now: UScaledNs)
    requires m.state == Discard && m.lastState != Discard
    ensures RunLoop(m, now) == Discarded(m)
  {
    OneTurn(m, now);
  }

  lemma EntersWaitingForSync(m: Machine, now: UScaledNs)
    requires m.state == WaitingForSync && m.lastState != WaitingForSync
    ensures RunLoop(m, now) == Emitted(m)
  {
    hide Add, Subtract, FromUint64;
    OneTurn(m, now);
  }

  lemma WaitsForFollowUp(m: Machine, now: UScaledNs)
    requires m.state == WaitingForFollowUp && (m.lastState != m.state || !(m.rcvdSync && PortUp(m.config)))
    ensures RunLoop(m, now) == if m.lastState == m.state then Waiting(m, now) else Held(m, now)
  {
    hide Add, Value, Emitted;
    OneTurn(m, now);
    var n := Turn(m, now);
    if n.state == Discard {
      EntersDiscard(n, now);
    } else if n.state == WaitingForSync {
      EntersWaitingForSync(n, now);
      EmittedFrom(n, m.state, m.state);
      EmittedFrom(n, m.state, m.lastState);
    }
  }

  lemma EmittedFrom(m: Machine, state: State, lastState: State)
    ensures Emitted(m) == Emitted(m.(state := state, lastState := lastState))
  {
  }

  lemma RunIsOutcome(m: Machine, now: UScaledNs)
    requires !Entering(m) && Working(m.state)
    ensures RunToRest(m, now) == Outcome(m, now)
  {
    hide RunLoop, Held, Waiting, Emitted, Compare;
    var b := if Forced(m) then m.(state := Discard) else m;
    OneTurn(b, now);
    var n := Turn(b, now);
    if b.state == Discard && b.lastState != Discard {
      EntersDiscard(b, now);
    } else if b.state == WaitingForFollowUp && !(b.rcvdSync && PortUp(b.config)) {
      WaitsForFollowUp(b, now);
    } else if n.state == WaitingForFollowUp {
      WaitsForFollowUp(n, now);
      HeldFrom(n, m.state, m.lastState, now);
    }
  }

  lemma HeldFrom(m: Machine, state: State, lastState: State, now: UScaledNs)
    ensures Held(m, now) == Held(m.(state := state, lastState := lastState), now)
  {
    hide Value, Add, Subtract, FromUint64;
  }

  /** One event holds, emits or gives up exactly this, in whatever working state it finds the machine. */
  lemma HandleIs(m: Machine, e: Event)
    requires AtRest(m)
    ensures Handle(m, e) ==
            match e
            case Tick(now) => Outcome(m, now)
            case RecvSync(now, ingress, sync) =>
              Outcome(m.(rcvdSync := true, sync := sync, ingress := ingress,
                         log := m.log.(syncs := m.log.syncs + [Arrival(sync, ingress)])), now)
            case RecvFollowUp(now, f) =>
              Outcome(m.(rcvdFollowUp := true, followUp := f, log := m.log.(followUps := m.log.followUps + [f])), now)
            case SetConfig(config) => m.(config := config)
  {
    hide RunToRest, Outcome, Inv;
    match e
    case Tick(now) => RunIsOutcome(m, now);
    case RecvSync(now, ingress, sync) => RunIsOutcome(TakeSync(m, ingress, sync), now);
    case RecvFollowUp(now, followUp) => RunIsOutcome(TakeFollowUp(m, followUp), now);
    case SetConfig(_) =>
  }
}
