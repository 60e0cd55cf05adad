/** The Sync sender (MDSyncSend, section 11.2.15 of IEEE Std 802.1AS-2020). */
module SyncSender {
  import opened Words
  import opened ScaledTime
  import opened PtpMessages

  datatype State = BeforeInit | Init | Initializing | SendSync | SendFollowUp

  datatype Config = Config(begin: bool, instanceEnable: bool,
                           portOper: bool, ptpPortEnabled: bool, asCapable: bool, asymmetryMeasurementMode: bool)
  {
    predicate PortGood() { portOper && ptpPortEnabled && asCapable }
  }

  /**
    A frame handed to the network and the index of the MDSync it was made from. `first` marks a Sync
    that begins an initialization epoch; `stamp` is the index of the transmit timestamp used.
   */
  datatype Sent =
    | SyncSent(sync: SyncMsg, source: int, first: bool)
    | FollowUpSent(followUp: FollowUpMsg, source: int, egress: UScaledNs, stamp: int)

  /** A transmit timestamp the machine took, and the index in `sent` of the Sync it belongs to. */
  datatype Accepted = Accepted(stamp: TsuTimestamp, sync: int)

  /** Everything received, sent and accepted; `initialized` holds from an initialization to the next Sync. */
  datatype Log = Log(received: seq<MDSync>, sent: seq<Sent>, accepted: seq<Accepted>, initialized: bool)

  datatype Machine = Machine(
    config: Config, state: State, lastState: State,
    rcvdMDSync: bool, rcvdTimestamp: bool, data: MDSync,
    sequenceId: u16, txSync: SyncMsg, egress: UScaledNs, log: Log)

  // ---- Specification of one run ----

  function MakeSync(d: MDSync, id: u16): SyncMsg { SyncMsg(id, d.source, d.logMessageInterval, 0) }

  /** setFollowUp: the time since the upstream transmission is added to what came with the data. */
  function MakeFollowUp(d: MDSync, id: u16, egress: UScaledNs): FollowUpMsg {
    FollowUpMsg(id, d.source, d.logMessageInterval,
             ToUint64(Add(d.correction, Subtract(egress, d.upstreamTxTime))),
             d.preciseOrigin, d.gmTimeBaseIndicator, d.lastGmPhaseChange)
  }

  function InitializingAction(m: Machine, random: u16): Machine {
    m.(rcvdMDSync := false, rcvdTimestamp := false, sequenceId := random, log := m.log.(initialized := true))
  }

  function SendSyncAction(m: Machine): Machine {
    var sync := MakeSync(m.data, m.sequenceId);
    m.(rcvdMDSync := false, txSync := sync, sequenceId := (m.sequenceId + 1) % TWO16,
       log := m.log.(sent := m.log.sent + [SyncSent(sync, |m.log.received| - 1, m.log.initialized)],
                     initialized := false))
  }

  function SendFollowUpAction(m: Machine): Machine {
    var followUp := MakeFollowUp(m.data, m.txSync.sequenceId, m.egress);
    m.(rcvdTimestamp := false,
       log := m.log.(sent := m.log.sent +
                       [FollowUpSent(followUp, |m.log.received| - 1, m.egress, |m.log.accepted| - 1)]))
  }

  function EntryAction(m: Machine, random: u16): Machine {
    match m.state
    case Initializing => InitializingAction(m, random)
    case SendSync => SendSyncAction(m)
    case SendFollowUp => SendFollowUpAction(m)
    case _ => m
  }

  predicate MaySend(m: Machine) {
    m.rcvdMDSync && m.config.PortGood() && !m.config.asymmetryMeasurementMode
  }

  function Successor(m: Machine): State {
    match m.state
    case Init => Initializing
    case Initializing => if MaySend(m) then SendSync else Initializing
    case SendSync => if m.rcvdTimestamp then SendFollowUp else SendSync
    case SendFollowUp => if MaySend(m) then SendSync else SendFollowUp
    case BeforeInit => BeforeInit
  }

  function Turn(m: Machine, random: u16): Machine {
    var entered := m.(lastState := m.state);
    var acted := if m.lastState != m.state then EntryAction(entered, random) else entered;
    acted.(state := Successor(acted))
  }

  predicate Quiescent(m: Machine) { m.lastState == m.state }

  /** Flags that the state about to be entered will not clear first. */
  function Measure(m: Machine): nat {
    var entering := m.lastState != m.state;
    (if m.rcvdMDSync && !(entering && (m.state == SendSync || m.state == Initializing)) then 2 else 0) +
    (if m.rcvdTimestamp && !(entering && (m.state == SendFollowUp || m.state == Initializing)) then 2 else 0) +
    (if m.state == Init then 1 else 0)
  }

  lemma TurnMakesProgress(m: Machine, random: u16)
    ensures Quiescent(Turn(m, random)) || Measure(Turn(m, random)) < Measure(m)
  {
    hide MakeSync, MakeFollowUp;
  }

  function RunLoop(m: Machine, random: u16): (r: Machine)
    ensures Quiescent(r)
    decreases Measure(m)
  {
    hide Turn;
    TurnMakesProgress(m, random);
    var next := Turn(m, random);
    if Quiescent(next) then next else RunLoop(next, random)
  }

  predicate Forced(m: Machine) {
    m.config.begin || !m.config.instanceEnable || (m.rcvdMDSync && !m.config.PortGood())
  }

  function RunToRest(m: Machine, random: u16): (r: Machine)
    ensures Quiescent(r)
  {
    RunLoop(if Forced(m) then m.(state := Initializing) else m, random)
  }

  lemma QuietTurnIsFixpoint(m: Machine, random: u16)
    requires Quiescent(Turn(m, random))
    ensures Turn(Turn(m, random), random) == Turn(m, random)
  {
    hide MakeSync, MakeFollowUp;
  }

  lemma {:induction false} LoopEndsInFixpoint(m: Machine, random: u16)
    ensures Turn(RunLoop(m, random), random) == RunLoop(m, random)
    decreases Measure(m)
  {
    hide Turn;
    TurnMakesProgress(m, random);
    if Quiescent(Turn(m, random)) {
      QuietTurnIsFixpoint(m, random);
    } else {
      LoopEndsInFixpoint(Turn(m, random), random);
    }
  }

  /** The state a run ends in is one that another turn would not change. */
  lemma RunEndsInFixpoint(m: Machine, random: u16)
    ensures Turn(RunToRest(m, random), random) == RunToRest(m, random)
  {
    hide Turn, RunLoop;
    LoopEndsInFixpoint(if Forced(m) then m.(state := Initializing) else m, random);
  }

  // ---- Events; `random` is rand() & 0xFFFF, should the run need one ----

  datatype Event =
    | Tick(random: u16)
    | RecvMDSync(random: u16, data: MDSync)
    | TxTimestamp(random: u16, stamp: TsuTimestamp)
    | SetConfig(config: Config)

  /** The comparison is made in int: after the counter wraps to 0 no 16-bit id equals it less one. */
  predicate Awaits(m: Machine, stamp: TsuTimestamp) {
    m.state == SendSync && stamp.sequenceId == m.sequenceId - 1
  }

  function Receive(m: Machine, data: MDSync): Machine {
    m.(rcvdMDSync := true, data := data, log := m.log.(received := m.log.received + [data]))
  }

  function Accept(m: Machine, stamp: TsuTimestamp): Machine {
    m.(rcvdTimestamp := true, egress := stamp.ts,
       log := m.log.(accepted := m.log.accepted + [Accepted(stamp, |m.log.sent| - 1)]))
  }

  function Handle(m: Machine, e: Event): Machine {
    match e
    case Tick(random) => RunToRest(m, random)
    case RecvMDSync(random, data) => RunToRest(Receive(m, data), random)
    case TxTimestamp(random, stamp) => if Awaits(m, stamp) then RunToRest(Accept(m, stamp), random) else m
    case SetConfig(config) => m.(config := config)
  }

  predicate Created(m: Machine, config: Config) {
    m.config == config && m.state == Init && m.lastState == BeforeInit && m.log == Log([], [], [], false)
  }

  // ---- The machine, updated in place ----

  class MDSyncSendSM {
    var config: Config
    var state: State
    var lastState: State
    var rcvdMDSync: bool
    var rcvdTimestamp: bool
    var data: MDSync
    var syncSequenceId: u16
    var txSync: SyncMsg
    var egress: UScaledNs
    ghost var log: Log

    ghost function Snapshot(): Machine
      reads this
    {
      Machine(config, state, lastState, rcvdMDSync, rcvdTimestamp, data, syncSequenceId, txSync, egress, log)
    }

    /** init_md_sync_send_sm */
    constructor (config: Config, random: u16)
      ensures exists m :: Created(m, config) && Snapshot() == RunToRest(m, random)
    {
      this.config := config;
      state, lastState := Init, BeforeInit;
      rcvdMDSync, rcvdTimestamp, data, syncSequenceId, txSync, egress := *, *, *, *, *, *;
      log := Log([], [], [], false);
      new;
      hide RunToRest;
      ghost var m := Snapshot();
      assert Created(m, config);
      Run(random);
    }

    method EnterInitializing(random: u16)
      modifies this
      ensures Snapshot() == InitializingAction(old(Snapshot()), random)
    {
      rcvdMDSync := false;
      rcvdTimestamp := false;
      syncSequenceId := random;
      log := log.(initialized := true);
    }

    method EnterSendSync()
      modifies this
      ensures Snapshot() == SendSyncAction(old(Snapshot()))
    {
      rcvdMDSync := false;
      txSync := MakeSync(data, syncSequenceId);
      log := log.(sent := log.sent + [SyncSent(txSync, |log.received| - 1, log.initialized)], initialized := false);
      syncSequenceId := (syncSequenceId + 1) % TWO16;
    }

    method EnterSendFollowUp()
      modifies this
      ensures Snapshot() == SendFollowUpAction(old(Snapshot()))
    {
      hide MakeFollowUp;
      rcvdTimestamp := false;
      var followUp := MakeFollowUp(data, txSync.sequenceId, egress);
      log := log.(sent := log.sent + [FollowUpSent(followUp, |log.received| - 1, egress, |log.accepted| - 1)]);
    }

    method Enter(random: u16)
      modifies this
      ensures Snapshot() == EntryAction(old(Snapshot()), random)
    {
      hide InitializingAction, SendSyncAction, SendFollowUpAction;
      match state
      case Initializing => EnterInitializing(random);
      case SendSync => EnterSendSync();
      case SendFollowUp => EnterSendFollowUp();
      case _ =>
    }

    method NextState() returns (next: State)
      ensures next == Successor(Snapshot())
    {
      next := state;
      var maySend := rcvdMDSync && config.PortGood() && !config.asymmetryMeasurementMode;
      match state
      case Init => next := Initializing;
      case Initializing => if maySend { next := SendSync; }
      case SendSync => if rcvdTimestamp { next := SendFollowUp; }
      case SendFollowUp => if maySend { next := SendSync; }
      case BeforeInit =>
    }

    method TakeTurn(random: u16)
      modifies this
      ensures Snapshot() == Turn(old(Snapshot()), random)
    {
      hide EntryAction, Successor;
      var stateChange := lastState != state;
      lastState := state;
      if stateChange {
        Enter(random);
      }
      state := NextState();
    }

    /** md_sync_send_sm_run: runs to rest, and terminates doing so. */
    method Run(random: u16)
      modifies this
      ensures Snapshot() == RunToRest(old(Snapshot()), random)
    {
      hide Turn, Measure;
      if config.begin || !config.instanceEnable || (rcvdMDSync && !config.PortGood()) {
        state := Initializing;
      }
      while true
        invariant RunLoop(Snapshot(), random) == RunToRest(old(Snapshot()), random)
        decreases Measure(Snapshot())
      {
        TurnMakesProgress(Snapshot(), random);
        TakeTurn(random);
        if lastState == state {
          break;
        }
      }
    }

    method RecvMDSync(random: u16, data: MDSync)
      modifies this
      ensures Snapshot() == Handle(old(Snapshot()), Event.RecvMDSync(random, data))
    {
      hide RunToRest;
      rcvdMDSync := true;
      this.data := data;
      log := log.(received := log.received + [data]);
      Run(random);
    }

    method TxTimestamp(random: u16, stamp: TsuTimestamp)
      modifies this
      ensures Snapshot() == Handle(old(Snapshot()), Event.TxTimestamp(random, stamp))
    {
      hide RunToRest;
      if state != SendSync {
        return;
      }
      if stamp.sequenceId != syncSequenceId - 1 {
        return;
      }
      rcvdTimestamp := true;
      egress := stamp.ts;
      log := log.(accepted := log.accepted + [Accepted(stamp, |log.sent| - 1)]);
      Run(random);
    }
  }

  // ---- What holds over every run ----

  /**
    Sync and Follow_Up alternate; ids of one initialization epoch are consecutive; a Follow_Up has the
    id of the Sync before it and the egress timestamp reported for that Sync; no MDSync is sent twice.
   */
  predicate WellSent(log: Log) {
    forall k :: 0 <= k < |log.sent| ==> FollowsOn(log, k)
  }

  predicate FollowsOn(log: Log, k: int)
    requires 0 <= k < |log.sent|
  {
    match log.sent[k]
    case SyncSent(sync, source, first) =>
      && 0 <= source < |log.received| && sync == MakeSync(log.received[source], sync.sequenceId)
      && (k == 0 ==> first)
      && (k > 0 ==> source > SyncSourceBefore(log, k))
      && (!first ==> k >= 2 && log.sent[k - 1].FollowUpSent?
                     && sync.sequenceId == (log.sent[k - 1].followUp.sequenceId + 1) % TWO16)
    case FollowUpSent(followUp, source, egress, stamp) =>
      && k > 0 && log.sent[k - 1].SyncSent?
      && 0 <= log.sent[k - 1].source <= source < |log.received|
      && followUp == MakeFollowUp(log.received[source], log.sent[k - 1].sync.sequenceId, egress)
      && 0 <= stamp < |log.accepted|
      && log.accepted[stamp] == Accepted(TsuTimestamp(egress, followUp.sequenceId), k - 1)
  }

  /** The MDSync of the last Sync before position k. */
  function SyncSourceBefore(log: Log, k: int): int
    requires 0 < k <= |log.sent|
  {
    if log.sent[k - 1].SyncSent? then log.sent[k - 1].source
    else if k >= 2 then log.sent[k - 2].source else -1
  }

  predicate Entering(m: Machine) { m.state != m.lastState }

  /** The last frame sent is the Sync whose id and contents the machine still holds. */
  predicate SyncIsOut(m: Machine) {
    && m.log.sent != [] && m.log.sent[|m.log.sent| - 1].SyncSent?
    && m.txSync == m.log.sent[|m.log.sent| - 1].sync
    && m.sequenceId == (m.txSync.sequenceId + 1) % TWO16
  }

  predicate FollowUpIsOut(m: Machine) {
    && m.log.sent != [] && m.log.sent[|m.log.sent| - 1].FollowUpSent?
    && m.sequenceId == (m.log.sent[|m.log.sent| - 1].followUp.sequenceId + 1) % TWO16
  }

  predicate StampIsIts(m: Machine) {
    && m.log.accepted != []
    && m.log.accepted[|m.log.accepted| - 1]
       == Accepted(TsuTimestamp(m.egress, m.txSync.sequenceId), |m.log.sent| - 1)
  }

  /** Data not sent yet: what the flag announces, once a run has put the machine in order. */
  predicate DataIsNew(m: Machine) {
    && m.log.received != []
    && (m.log.sent != [] ==> SyncSourceBefore(m.log, |m.log.sent|) < |m.log.received| - 1)
  }

  predicate DataIsLast(m: Machine) {
    && (m.log.received != [] ==> m.data == m.log.received[|m.log.received| - 1])
    && (m.log.sent != [] ==> SyncSourceBefore(m.log, |m.log.sent|) < |m.log.received|)
    && (m.log.sent != [] ==> m.log.sent[|m.log.sent| - 1].source < |m.log.received|)
  }

  predicate StateExplained(m: Machine) {
    match m.state
    case BeforeInit => false
    case Init => m.log.sent == []
    case Initializing => Entering(m) || (m.log.initialized && !m.rcvdTimestamp)
    case SendSync =>
      if Entering(m) then m.rcvdMDSync && !m.rcvdTimestamp && (m.log.initialized || FollowUpIsOut(m))
      else SyncIsOut(m) && !m.log.initialized && (m.rcvdTimestamp ==> StampIsIts(m))
    case SendFollowUp =>
      !m.log.initialized && (if Entering(m) then SyncIsOut(m) && StampIsIts(m) else FollowUpIsOut(m) && !m.rcvdTimestamp)
  }

  predicate Inv(m: Machine) {
    && WellSent(m.log) && DataIsLast(m) && StateExplained(m)
    && (m.log.sent == [] ==> m.log.initialized || Entering(m) || m.state == Init)
    && (m.rcvdMDSync ==> m.state == Init || (m.state == Initializing && Entering(m)) || DataIsNew(m))
  }

  /** What was well sent stays so when one more frame follows on. */
  lemma OneMoreSent(log: Log, next: Log, x: Sent)
    requires WellSent(log) && next.sent == log.sent + [x]
    requires next.received == log.received && next.accepted == log.accepted
    requires FollowsOn(next, |log.sent|)
    ensures WellSent(next)
  {
    hide MakeFollowUp, MakeSync;
    forall k | 0 <= k < |log.sent| ensures FollowsOn(next, k) {
      assert FollowsOn(log, k);
    }
  }

  lemma SendSyncKeeps(m: Machine)
    requires Inv(m) && m.state == SendSync && Entering(m)
    ensures Inv(SendSyncAction(m.(lastState := m.state)))
    ensures !SendSyncAction(m).rcvdTimestamp
  {
    hide MakeFollowUp, WellSent;
    var r := SendSyncAction(m.(lastState := m.state));
    if m.log.sent != [] {
      SyncWasSent(m.log, |m.log.sent| - 1);
    }
    assert FollowsOn(r.log, |m.log.sent|);
    OneMoreSent(m.log, r.log, r.log.sent[|m.log.sent|]);
  }

  lemma SendFollowUpKeeps(m: Machine)
    requires Inv(m) && m.state == SendFollowUp && Entering(m)
    ensures Inv(SendFollowUpAction(m.(lastState := m.state)))
  {
    hide Add, Subtract, ToUint64, WellSent;
    var r := SendFollowUpAction(m.(lastState := m.state));
    SyncWasSent(m.log, |m.log.sent| - 1);
    assert FollowsOn(r.log, |m.log.sent|);
    OneMoreSent(m.log, r.log, r.log.sent[|m.log.sent|]);
  }

  lemma SyncWasSent(log: Log, k: int)
    requires WellSent(log) && 0 <= k < |log.sent|
    ensures FollowsOn(log, k)
  {
  }

  lemma InitializingKeeps(m: Machine, random: u16)
    requires Inv(m) && m.state == Initializing && Entering(m)
    ensures Inv(InitializingAction(m.(lastState := m.state), random))
  {
    hide MakeFollowUp, MakeSync;
    var r := InitializingAction(m.(lastState := m.state), random);
    forall k | 0 <= k < |m.log.sent| ensures FollowsOn(r.log, k) {
      assert FollowsOn(m.log, k);
    }
  }

  lemma ActionKeeps(m: Machine, random: u16)
    requires Inv(m)
    ensures var r := if Entering(m) then EntryAction(m.(lastState := m.state), random) else m;
            Inv(r) && !Entering(r) && r.state == m.state && r.config == m.config
            && (m.state != SendSync ==> !r.rcvdTimestamp || r.state == Init)
  {
    hide MakeFollowUp, MakeSync;
    if Entering(m) {
      match m.state
      case SendSync => SendSyncKeeps(m);
      case SendFollowUp => SendFollowUpKeeps(m);
      case Initializing => InitializingKeeps(m, random);
      case _ =>
    }
  }

  lemma TurnKeeps(m: Machine, random: u16)
    requires Inv(m)
    ensures Inv(Turn(m, random))
    ensures Quiescent(Turn(m, random)) ==> AtRest(Turn(m, random))
  {
    hide EntryAction, WellSent, FollowsOn, SyncSourceBefore;
    ActionKeeps(m, random);
  }

  predicate AtRest(m: Machine) { Inv(m) && !Entering(m) && !m.rcvdTimestamp && m.state != Init }

  lemma {:induction false} RunLoopKeeps(m: Machine, random: u16)
    requires Inv(m)
    ensures AtRest(RunLoop(m, random))
    decreases Measure(m)
  {
    hide Inv, Turn, AtRest;
    TurnKeeps(m, random);
    TurnMakesProgress(m, random);
    if !Quiescent(Turn(m, random)) {
      RunLoopKeeps(Turn(m, random), random);
    }
  }

  lemma RunKeeps(m: Machine, random: u16)
    requires Inv(m) && (m.lastState == m.state || m.lastState == BeforeInit)
    ensures AtRest(RunToRest(m, random))
  {
    hide RunLoop, WellSent, SyncSourceBefore;
    RunLoopKeeps(if Forced(m) then m.(state := Initializing) else m, random);
  }

  lemma ReceiveKeeps(m: Machine, data: MDSync)
    requires AtRest(m)
    ensures Inv(Receive(m, data))
  {
    hide MakeFollowUp, MakeSync;
    forall k | 0 <= k < |m.log.sent| ensures FollowsOn(Receive(m, data).log, k) {
      assert FollowsOn(m.log, k);
    }
  }

  lemma AcceptKeeps(m: Machine, stamp: TsuTimestamp)
    requires AtRest(m) && Awaits(m, stamp)
    ensures Inv(Accept(m, stamp))
  {
    hide MakeFollowUp, MakeSync;
    forall k | 0 <= k < |m.log.sent| ensures FollowsOn(Accept(m, stamp).log, k) {
      assert FollowsOn(m.log, k);
    }
  }

  lemma HandleKeeps(m: Machine, e: Event)
    requires AtRest(m)
    ensures AtRest(Handle(m, e))
  {
    hide RunToRest, WellSent, SyncSourceBefore;
    match e
    case Tick(random) => RunKeeps(m, random);
    case RecvMDSync(random, data) =>
      ReceiveKeeps(m, data);
      RunKeeps(Receive(m, data), random);
    case TxTimestamp(random, stamp) =>
      if Awaits(m, stamp) {
        AcceptKeeps(m, stamp);
        RunKeeps(Accept(m, stamp), random);
      }
    case SetConfig(_) =>
  }

  function After(m: Machine, events: seq<Event>): Machine {
    if events == [] then m else Handle(After(m, events[..|events| - 1]), events[|events| - 1])
  }

  lemma {:induction false} EventsKeep(m: Machine, events: seq<Event>)
    requires AtRest(m)
    ensures AtRest(After(m, events))
  {
    hide AtRest, Handle;
    if events != [] {
      EventsKeep(m, events[..|events| - 1]);
      HandleKeeps(After(m, events[..|events| - 1]), events[|events| - 1]);
    }
  }

  /**
    From its creation, over every sequence of ticks, MDSyncs, timestamps and configuration changes,
    what the sender has sent is well sent, and no timestamp is left over for a later Sync.
   */
  lemma SenderSafety(created: Machine, config: Config, random: u16, events: seq<Event>)
    requires Created(created, config)
    ensures WellSent(After(RunToRest(created, random), events).log)
    ensures !After(RunToRest(created, random), events).rcvdTimestamp
  {
    hide RunToRest, Handle, FollowsOn;
    RunKeeps(created, random);
    EventsKeep(RunToRest(created, random), events);
  }

  // ---- Which timestamps are taken, and the id that never gets one ----

  /** A timestamp is taken exactly if it has the id of the Sync just sent, and that is not 65535. */
  lemma AcceptedExactly(m: Machine, stamp: TsuTimestamp)
    requires AtRest(m)
    ensures Awaits(m, stamp) <==>
              m.state == SendSync && stamp.sequenceId == m.log.sent[|m.log.sent| - 1].sync.sequenceId
              && stamp.sequenceId != 0xFFFF
  {
    hide WellSent, SyncSourceBefore;
  }

  predicate NothingForces(e: Event) {
    match e
    case SetConfig(config) => !config.begin && config.instanceEnable && config.PortGood()
    case _ => true
  }

  predicate Stuck(m: Machine) {
    m.state == m.lastState == SendSync && m.sequenceId == 0 && !m.rcvdTimestamp
    && !m.config.begin && m.config.instanceEnable && m.config.PortGood()
  }

  lemma StuckStep(m: Machine, e: Event)
    requires Stuck(m) && NothingForces(e)
    ensures Stuck(Handle(m, e)) && Handle(m, e).log.sent == m.log.sent
  {
    hide EntryAction;
    match e
    case RecvMDSync(random, data) => assert Turn(Receive(m, data), random) == Receive(m, data);
    case Tick(random) => assert Turn(m, random) == m;
    case _ =>
  }

  /** After a Sync with id 65535 nothing is ever sent again, unless the port or the instance goes down. */
  lemma {:induction false} StuckAt65535(m: Machine, events: seq<Event>)
    requires AtRest(m) && m.state == SendSync && m.log.sent[|m.log.sent| - 1].sync.sequenceId == 0xFFFF
    requires !m.config.begin && m.config.instanceEnable && m.config.PortGood()
    requires forall k :: 0 <= k < |events| ==> NothingForces(events[k])
    ensures Stuck(After(m, events)) && After(m, events).log.sent == m.log.sent
  {
    hide WellSent, SyncSourceBefore, Handle;
    if events != [] {
      StuckAt65535(m, events[..|events| - 1]);
      StuckStep(After(m, events[..|events| - 1]), events[|events| - 1]);
    }
  }

  // ---- Nothing that can be sent is held back ----

  predicate Undisturbed(c: Config) {
    !c.begin && c.instanceEnable && c.PortGood() && !c.asymmetryMeasurementMode
  }

  lemma RestsAfterTwoTurns(m: Machine, random: u16)
    requires !Forced(m) && !Quiescent(Turn(m, random)) && Quiescent(Turn(Turn(m, random), random))
    ensures RunToRest(m, random) == Turn(Turn(m, random), random)
  {
    hide Turn;
    assert RunLoop(m, random) == RunLoop(Turn(m, random), random);
  }

  /** Data that arrives while no Sync is out is sent in the same run, under the next id. */
  lemma SyncIsSent(m: Machine, random: u16, data: MDSync)
    requires AtRest(m) && Undisturbed(m.config) && (m.state == Initializing || m.state == SendFollowUp)
    ensures var r := Handle(m, RecvMDSync(random, data));
            && r.state == SendSync && r.sequenceId == (m.sequenceId + 1) % TWO16
            && r.log.sent == m.log.sent + [SyncSent(MakeSync(data, m.sequenceId), |m.log.received|, m.log.initialized)]
  {
    hide MakeSync, Inv;
    var m0 := Receive(m, data);
    assert Turn(m0, random) == m0.(state := SendSync);
    RestsAfterTwoTurns(m0, random);
  }

  /** The timestamp of the Sync that is out sends its Follow_Up in the same run, then a Sync for newer data. */
  lemma FollowUpIsSent(m: Machine, random: u16, stamp: TsuTimestamp)
    requires AtRest(m) && Undisturbed(m.config) && Awaits(m, stamp)
    ensures var r := Handle(m, TxTimestamp(random, stamp));
            var followUp := FollowUpSent(MakeFollowUp(m.data, m.txSync.sequenceId, stamp.ts),
                                         |m.log.received| - 1, stamp.ts, |m.log.accepted|);
            if m.rcvdMDSync then
              && r.state == SendSync
              && r.log.sent == m.log.sent + [followUp, SyncSent(MakeSync(m.data, m.sequenceId), |m.log.received| - 1, false)]
            else r.state == SendFollowUp && r.log.sent == m.log.sent + [followUp]
  {
    hide MakeFollowUp, MakeSync, Inv;
    var m0 := Accept(m, stamp);
    var m1 := m0.(state := SendFollowUp);
    assert Turn(m0, random) == m1;
    SyncOutEndsInitialization(m);
    if m.rcvdMDSync {
      var m2 := Turn(m1, random);
      assert m2.state == SendSync && !Quiescent(m2) && Quiescent(Turn(m2, random));
      assert RunLoop(m0, random) == RunLoop(m1, random) == RunLoop(m2, random) == Turn(m2, random);
    } else {
      RestsAfterTwoTurns(m0, random);
    }
  }

  lemma SyncOutEndsInitialization(m: Machine)
    requires AtRest(m) && m.state == SendSync
    ensures !m.log.initialized
  {
  }

  // ---- Exactly what an event makes the machine send ----

  /** Data is there to be sent after the event. */
  predicate DataPending(m: Machine, e: Event) { m.rcvdMDSync || e.RecvMDSync? }

  predicate PortUp(c: Config) { c.portOper && c.ptpPortEnabled && c.asCapable }

  /** The run begins by forcing the machine to INITIALIZING. */
  predicate GoesDown(m: Machine, e: Event) {
    m.config.begin || !m.config.instanceEnable || (DataPending(m, e) && !PortUp(m.config))
  }

  /** The timestamp of the Sync that is out is taken, and the machine not reset. */
  predicate FollowUpDue(m: Machine, e: Event) {
    e.TxTimestamp? && m.state == SendSync && e.stamp.sequenceId == m.sequenceId - 1 && !GoesDown(m, e)
  }

  /**
    A Sync leaves only through a port that is up and not being measured for asymmetry. In INITIALIZING
    that is all: the machine is there already when BEGIN or a disabled instance forces it to be.
   */
  predicate SyncDue(m: Machine, e: Event) {
    && PortUp(m.config) && !m.config.asymmetryMeasurementMode && DataPending(m, e)
    && match e
       case SetConfig(_) => false
       case TxTimestamp(_, _) => FollowUpDue(m, e)
       case _ => m.state == Initializing || (m.state == SendFollowUp && !GoesDown(m, e))
  }

  /** The data held after the event, and its index. */
  function Newest(m: Machine, e: Event): MDSync { if e.RecvMDSync? then e.data else m.data }

  function NewestIndex(m: Machine, e: Event): int { |m.log.received| - (if e.RecvMDSync? then 0 else 1) }

  /** The Sync, with no correction of its own; the Follow_Up brings the origin time. */
  function DueSync(m: Machine, e: Event): Sent {
    var d := Newest(m, e);
    SyncSent(SyncMsg(m.sequenceId, d.source, d.logMessageInterval, 0), NewestIndex(m, e), m.log.initialized)
  }

  function DueFollowUp(m: Machine, e: Event): Sent
    requires e.TxTimestamp?
  {
    var d, t := m.data, e.stamp.ts;
    var correction := ToUint64(Add(d.correction, Subtract(t, d.upstreamTxTime)));
    FollowUpSent(FollowUpMsg(m.txSync.sequenceId, d.source, d.logMessageInterval, correction,
                             d.preciseOrigin, d.gmTimeBaseIndicator, d.lastGmPhaseChange),
                 |m.log.received| - 1, t, |m.log.accepted|)
  }

  function Due(m: Machine, e: Event): seq<Sent> {
    (if FollowUpDue(m, e) then [DueFollowUp(m, e)] else []) + (if SyncDue(m, e) then [DueSync(m, e)] else [])
  }

  /** Where the machine comes to rest. */
  predicate RestsAs(m: Machine, e: Event, r: Machine) {
    && r.config == (if e.SetConfig? then e.config else m.config)
    && if e.SetConfig? || (e.TxTimestamp? && !Awaits(m, e.stamp)) then r.state == m.state && r.sequenceId == m.sequenceId
       else if GoesDown(m, e) && m.state != Initializing then
         r.state == Initializing && r.sequenceId == e.random && !r.rcvdMDSync && r.log.initialized
       else if SyncDue(m, e) then r.state == SendSync && r.sequenceId == (m.sequenceId + 1) % TWO16 && !r.rcvdMDSync
       else r.state == (if FollowUpDue(m, e) then SendFollowUp else m.state)
            && r.sequenceId == m.sequenceId && r.rcvdMDSync == DataPending(m, e)
  }

  /** One event sends the Follow_Up and the Sync exactly when they are due, and nothing else. */
  lemma SentExactly(m: Machine, e: Event)
    requires AtRest(m)
    ensures Handle(m, e).log.sent == m.log.sent + Due(m, e)
    ensures RestsAs(m, e, Handle(m, e))
  {
    hide Inv, WellSent, ToUint64, Add, Subtract;
    match e
    case SetConfig(_) =>
    case TxTimestamp(random, stamp) =>
      if Awaits(m, stamp) {
        SyncOutEndsInitialization(m);
        RunSends(m, e, Accept(m, stamp), random);
      }
    case Tick(random) => RunSends(m, e, m, random);
    case RecvMDSync(random, data) => RunSends(m, e, Receive(m, data), random);
  }

  lemma OneTurn(m: Machine, random: u16)
    ensures RunLoop(m, random) == if Quiescent(Turn(m, random)) then Turn(m, random) else RunLoop(Turn(m, random), random)
  {
    hide Turn;
  }

  /** The turns of the run, at most three of them. */
  lemma RunSends(m: Machine, e: Event, m0: Machine, random: u16)
    requires AtRest(m) && Handle(m, e) == RunToRest(m0, random) && !e.SetConfig? && random == e.random
    requires m0 == match e
                   case Tick(_) => m
                   case RecvMDSync(_, data) => Receive(m, data)
                   case TxTimestamp(_, stamp) => Accept(m, stamp)
                   case SetConfig(_) => m
    requires e.TxTimestamp? ==> Awaits(m, e.stamp) && !m.log.initialized
    ensures Handle(m, e).log.sent == m.log.sent + Due(m, e)
    ensures RestsAs(m, e, Handle(m, e))
  {
    hide Inv, WellSent, ToUint64, Add, Subtract, Handle, RunLoop;
    var m1 := if Forced(m0) then m0.(state := Initializing) else m0;
    OneTurn(m1, random);
    var m2 := Turn(m1, random);
    if !Quiescent(m2) {
      OneTurn(m2, random);
      if !Quiescent(Turn(m2, random)) {
        OneTurn(Turn(m2, random), random);
      }
    }
  }

  /** BEGIN or a disabled instance does not keep a sender already in INITIALIZING from sending. */
  lemma HeldDownStillSends(m: Machine, random: u16, data: MDSync)
    requires AtRest(m) && (m.config.begin || !m.config.instanceEnable) && PortUp(m.config) && !m.config.asymmetryMeasurementMode
    ensures Handle(m, RecvMDSync(random, data)).log.sent
            == m.log.sent + if m.state == Initializing then [DueSync(m, RecvMDSync(random, data))] else []
  {
    hide Handle, AtRest;
    SentExactly(m, RecvMDSync(random, data));
  }

  /** What is due at each of the events in turn. */
  function DueOver(m: Machine, events: seq<Event>): seq<Sent> {
    if events == [] then []
    else
      var before := events[..|events| - 1];
      DueOver(m, before) + Due(After(m, before), events[|events| - 1])
  }

  lemma {:induction false} SentOverEvents(m: Machine, events: seq<Event>)
    requires AtRest(m)
    ensures After(m, events).log.sent == m.log.sent + DueOver(m, events)
  {
    hide AtRest, Handle, Due;
    if events != [] {
      var before := events[..|events| - 1];
      EventsKeep(m, before);
      SentOverEvents(m, before);
      SentExactly(After(m, before), events[|events| - 1]);
    }
  }

  /** From its creation the sender has sent exactly what was due, event by event. */
  lemma SentWhenDue(created: Machine, config: Config, random: u16, events: seq<Event>)
    requires Created(created, config)
    ensures After(RunToRest(created, random), events).log.sent == DueOver(RunToRest(created, random), events)
  {
    hide After, DueOver;
    RunKeeps(created, random);
    CreatedSendsNothing(created, config, random);
    SentOverEvents(RunToRest(created, random), events);
  }

  lemma CreatedSendsNothing(m: Machine, config: Config, random: u16)
    requires Created(m, config)
    ensures RunToRest(m, random).log.sent == []
  {
    var m1 := if Forced(m) then m.(state := Initializing) else m;
    assert RunToRest(m, random) == RunLoop(m1, random);
    if !Forced(m) {
      assert RunLoop(m1, random) == RunLoop(Turn(m1, random), random);
    }
  }
}
