/** Periodic sync indications of the master clock (ClockMasterSyncSend, section 10.2.9 of IEEE Std 802.1AS-2020). */
module ClockMasterSender {
  import opened Words
  import opened ScaledTime
  import opened PtpMessages

  /** REACTION is never entered: it is stored as the last state to make the present one look new. */
  datatype State = BeforeInit | Init | Initializing | SendSyncIndication | Reaction

  /** The instance globals the machine reads. */
  datatype Config = Config(begin: bool, instanceEnable: bool, thisClock: u64, logSyncInterval: int,
                           masterTime: UScaledNs, localTime: UScaledNs,
                           timeBaseIndicator: u16, phaseOffset: UScaledNs)
  {
    predicate Enabled() { !begin && instanceEnable }
  }

  /** `now` times the run; `current` is what get_current_timestamp reads while the message is made. */
  datatype Inputs = Inputs(now: Reading, current: Reading)

  datatype Sent = Sent(at: Reading, message: PortSyncSync, first: bool)

  /** `initialized` holds from an initialization to the next indication. */
  datatype Machine = Machine(config: Config, state: State, lastState: State, syncSendTime: UScaledNs,
                             initialized: bool, sent: seq<Sent>)

  const NEVER := UScaledNs(0xFFFF, 0xFFFF_FFFF_FFFF_FFFF, 0xFFFF)

  /** setPSSyncCMSS: the correction bridges the time since the source time was taken over. */
  function MakeIndication(c: Config, current: UScaledNs): PortSyncSync {
    PortSyncSync(0, MDSync(PortIdentity(c.thisClock, 0), c.logSyncInterval, ToPtp(c.masterTime),
                           Subtract(current, c.localTime), current, c.timeBaseIndicator, c.phaseOffset), NEVER)
  }

  // ---- Specification of one run ----

  function SendAction(m: Machine, i: Inputs): Machine {
    m.(sent := m.sent + [Sent(i.now, MakeIndication(m.config, i.current), m.initialized)],
       initialized := false, syncSendTime := Add(i.now, ONE_SECOND))
  }

  function EntryAction(m: Machine, i: Inputs): Machine {
    match m.state
    case Initializing => m.(syncSendTime := Add(i.now, ONE_SECOND), initialized := true)
    case SendSyncIndication => SendAction(m, i)
    case _ => m
  }

  predicate Due(m: Machine, now: UScaledNs) { Compare(now, m.syncSendTime) >= 0 }

  function Exit(m: Machine, now: UScaledNs): Machine {
    match m.state
    case Init => m.(state := Initializing)
    case Initializing => if Due(m, now) then m.(state := SendSyncIndication) else m
    case SendSyncIndication => if Due(m, now) then m.(lastState := Reaction) else m
    case _ => m
  }

  function Turn(m: Machine, i: Inputs): Machine {
    var entered := m.(lastState := m.state);
    Exit(if m.lastState != m.state then EntryAction(entered, i) else entered, i.now)
  }

  predicate Quiescent(m: Machine) { m.lastState == m.state }

  /** One second after a clock reading is later: 96 bits do not overflow, and the early carry only adds. */
  lemma SecondIsLater(now: Reading)
    ensures Value(Add(now, ONE_SECOND)) >= Value(now) + Value(ONE_SECOND)
    ensures Compare(now, Add(now, ONE_SECOND)) < 0
  {
  }

  function Measure(m: Machine): nat {
    if m.state == Init then 4
    else if m.state == Initializing then 3
    else if m.lastState == m.state then 2 else 1
  }

  lemma TurnMakesProgress(m: Machine, i: Inputs)
    ensures Quiescent(Turn(m, i)) || Measure(Turn(m, i)) < Measure(m)
  {
    hide Add, Compare, MakeIndication;
    SecondIsLater(i.now);
  }

  function RunLoop(m: Machine, i: Inputs): (r: Machine)
    ensures Quiescent(r)
    decreases Measure(m)
  {
    hide Turn;
    TurnMakesProgress(m, i);
    var next := Turn(m, i);
    if Quiescent(next) then next else RunLoop(next, i)
  }

  function Begun(m: Machine): Machine { if m.config.Enabled() then m else m.(state := Initializing) }

  function RunToRest(m: Machine, i: Inputs): (r: Machine)
    ensures Quiescent(r)
  {
    RunLoop(Begun(m), i)
  }

  lemma QuietTurnIsFixpoint(m: Machine, i: Inputs)
    requires Quiescent(Turn(m, i))
    ensures Turn(Turn(m, i), i) == Turn(m, i)
  {
    hide MakeIndication, Add, Compare;
  }

  lemma {:induction false} LoopEndsInFixpoint(m: Machine, i: Inputs)
    ensures Turn(RunLoop(m, i), i) == RunLoop(m, i)
    decreases Measure(m)
  {
    hide Turn;
    TurnMakesProgress(m, i);
    if Quiescent(Turn(m, i)) {
      QuietTurnIsFixpoint(m, i);
    } else {
      LoopEndsInFixpoint(Turn(m, i), i);
    }
  }

  /** The state a run ends in is one that another turn would not change. */
  lemma RunEndsInFixpoint(m: Machine, i: Inputs)
    ensures Turn(RunToRest(m, i), i) == RunToRest(m, i)
  {
    hide Turn, RunLoop;
    LoopEndsInFixpoint(Begun(m), i);
  }

  predicate Created(m: Machine, config: Config) {
    m.config == config && m.state == Init && m.lastState == BeforeInit && m.sent == []
  }

  // ---- The machine, updated in place ----

  class ClockMasterSyncSendSM {
    var config: Config
    var state: State
    var lastState: State
    var syncSendTime: UScaledNs
    ghost var initialized: bool
    ghost var sent: seq<Sent>

    ghost function Snapshot(): Machine
      reads this
    {
      Machine(config, state, lastState, syncSendTime, initialized, sent)
    }

    constructor (config: Config, current: Reading)
      ensures exists m :: Created(m, config) && Snapshot() == RunToRest(m, Inputs(ZERO, current))
    {
      this.config := config;
      state, lastState := Init, BeforeInit;
      syncSendTime := *;
      initialized, sent := false, [];
      new;
      hide RunToRest;
      ghost var m := Snapshot();
      assert Created(m, config);
      Run(Inputs(ZERO, current));
    }

    method TakeTurn(i: Inputs)
      modifies this
      ensures Snapshot() == Turn(old(Snapshot()), i)
    {
      hide Add, Compare, MakeIndication;
      var stateChange := lastState != state;
      lastState := state;
      match state
      case Init => state := Initializing;
      case Initializing =>
        if stateChange {
          syncSendTime := Add(i.now, ONE_SECOND);
          initialized := true;
        }
        if Compare(i.now, syncSendTime) >= 0 {
          state := SendSyncIndication;
        }
      case SendSyncIndication =>
        if stateChange {
          var message := MakeIndication(config, i.current);
          sent := sent + [Sent(i.now, message, initialized)];
          initialized := false;
          syncSendTime := Add(i.now, ONE_SECOND);
        }
        if Compare(i.now, syncSendTime) >= 0 {
          lastState := Reaction;
        }
      case _ =>
    }

    /** clock_master_sync_send_sm_run: runs to rest, and terminates doing so. */
    method Run(i: Inputs)
      modifies this
      ensures Snapshot() == RunToRest(old(Snapshot()), i)
    {
      hide Turn, Measure;
      if !config.Enabled() {
        state := Initializing;
      }
      while true
        invariant RunLoop(Snapshot(), i) == RunToRest(old(Snapshot()), i)
        decreases Measure(Snapshot())
      {
        TurnMakesProgress(Snapshot(), i);
        TakeTurn(i);
        if lastState == state {
          break;
        }
      }
    }
  }

  predicate AtRest(m: Machine) {
    Quiescent(m) && (m.state == Initializing || m.state == SendSyncIndication)
  }

  // ---- One second between indications ----

  /** The indication: origin from the master time, and the clock's present reading for both other times. */
  function IndicationOf(c: Config, current: UScaledNs): PortSyncSync {
    var data := MDSync(PortIdentity(c.thisClock, 0), c.logSyncInterval, ToPtp(c.masterTime),
                       Subtract(current, c.localTime), current, c.timeBaseIndicator, c.phaseOffset);
    PortSyncSync(0, data, UScaledNs(0xFFFF, 0xFFFF_FFFF_FFFF_FFFF, 0xFFFF))
  }

  /** It leaves, and the next one is due a second later. */
  function Indicated(m: Machine, i: Inputs): Machine {
    m.(state := SendSyncIndication, lastState := SendSyncIndication,
       sent := m.sent + [Sent(i.now, IndicationOf(m.config, i.current), m.initialized)],
       initialized := false, syncSendTime := Add(i.now, UScaledNs(0, 1_000_000_000, 0)))
  }

  /** The first one is due a second after the machine has been held down. */
  function Reset(m: Machine, i: Inputs): Machine {
    m.(state := Initializing, lastState := Initializing, initialized := true,
       syncSendTime := Add(i.now, UScaledNs(0, 1_000_000_000, 0)))
  }

  /**
    What a run from rest does: send exactly one indication if it is due, otherwise nothing; in
    INITIALIZING also while the instance is held down, because the machine is there already.
   */
  lemma RunSendsIfDue(m: Machine, i: Inputs)
    requires AtRest(m)
    ensures AtRest(RunToRest(m, i)) && RunToRest(m, i).config == m.config
    ensures RunToRest(m, i) ==
            if (m.config.begin || !m.config.instanceEnable) && m.state == SendSyncIndication then Reset(m, i)
            else if Value(i.now) >= Value(m.syncSendTime) then Indicated(m, i) else m
  {
    hide Add, Compare, MakeIndication, Value;
    var b := Begun(m);
    if b.lastState != b.state {
      SecondIsLater(i.now);
      assert Quiescent(Turn(b, i));
    } else if !Due(m, i.now) {
      assert Turn(m, i) == m;
    } else {
      hide SendAction;
      var m1 := Turn(m, i);
      assert m1.state == SendSyncIndication && m1.lastState != SendSyncIndication && m1.sent == m.sent;
      SendTurn(m, m1, i);
      SentIs(m, i);
      assert RunLoop(m, i) == RunLoop(m1, i);
    }
  }

  lemma SentIs(m: Machine, i: Inputs)
    ensures SendAction(m, i).(state := SendSyncIndication, lastState := SendSyncIndication) == Indicated(m, i)
  {
    hide Add, Subtract, ToPtp;
  }

  lemma SendTurn(m: Machine, m1: Machine, i: Inputs)
    requires AtRest(m) && Due(m, i.now) && m1 == Turn(m, i)
    ensures Turn(m1, i) == SendAction(m, i).(state := SendSyncIndication, lastState := SendSyncIndication)
  {
    hide Add, Compare, MakeIndication;
  }

  datatype Event = RunAt(i: Inputs) | SetConfig(config: Config)

  function Handle(m: Machine, e: Event): Machine {
    match e
    case RunAt(i) => RunToRest(m, i)
    case SetConfig(config) => m.(config := config)
  }

  function After(m: Machine, events: seq<Event>): Machine {
    if events == [] then m else Handle(After(m, events[..|events| - 1]), events[|events| - 1])
  }

  /** Indications of one initialization epoch are at least a second apart. */
  predicate Spaced(sent: seq<Sent>) {
    forall k :: 0 < k < |sent| && !sent[k].first ==> Value(sent[k].at) - Value(sent[k - 1].at) >= Value(ONE_SECOND)
  }

  predicate Inv(m: Machine, now: UScaledNs) {
    var entering := m.state != m.lastState;
    && Spaced(m.sent) && m.state != BeforeInit && m.state != Reaction
    && (m.state == SendSyncIndication && entering ==> Due(m, now))
    && (m.state == Init || (m.state == Initializing && entering) || m.initialized
        || (m.sent != [] && m.syncSendTime == Add(m.sent[|m.sent| - 1].at, ONE_SECOND)))
  }

  lemma SendKeepsSpaced(m: Machine, i: Inputs)
    requires Inv(m, i.now) && m.state == SendSyncIndication && m.lastState != SendSyncIndication
    ensures Spaced(SendAction(m, i).sent)
  {
    hide Add, Compare, MakeIndication, Value;
    if !m.initialized {
      SecondIsLater(m.sent[|m.sent| - 1].at);
    }
  }

  lemma TurnKeeps(m: Machine, i: Inputs)
    requires Inv(m, i.now)
    ensures Inv(Turn(m, i), i.now)
    ensures Quiescent(Turn(m, i)) ==> AtRest(Turn(m, i))
  {
    hide Add, Compare, MakeIndication, Spaced;
    if m.state == SendSyncIndication && m.lastState != SendSyncIndication {
      SendKeepsSpaced(m, i);
      assert Turn(m, i).sent == SendAction(m, i).sent;
    }
  }

  lemma {:induction false} RunLoopKeeps(m: Machine, i: Inputs)
    requires Inv(m, i.now)
    ensures Inv(RunLoop(m, i), i.now) && AtRest(RunLoop(m, i))
    decreases Measure(m)
  {
    hide Inv, Turn, AtRest;
    TurnKeeps(m, i);
    TurnMakesProgress(m, i);
    if !Quiescent(Turn(m, i)) {
      RunLoopKeeps(Turn(m, i), i);
    }
  }

  lemma HandleKeeps(m: Machine, before: UScaledNs, e: Event)
    requires AtRest(m) && Inv(m, before)
    ensures AtRest(Handle(m, e)) && Inv(Handle(m, e), before)
    ensures e.SetConfig? ==> Handle(m, e) == m.(config := e.config)
  {
    hide RunLoop, Add, Compare, Value;
    if e.RunAt? {
      RunLoopKeeps(Begun(m), e.i);
    }
  }

  lemma {:induction false} EventsKeep(m: Machine, before: UScaledNs, events: seq<Event>)
    requires AtRest(m) && Inv(m, before)
    ensures AtRest(After(m, events)) && Inv(After(m, events), before)
  {
    hide AtRest, Inv, Handle;
    if events != [] {
      EventsKeep(m, before, events[..|events| - 1]);
      HandleKeeps(After(m, events[..|events| - 1]), before, events[|events| - 1]);
    }
  }

  /** Over every run from creation, at any times and through any changes of the globals. */
  lemma IndicationsSpaced(created: Machine, config: Config, current: Reading, events: seq<Event>)
    requires Created(created, config)
    ensures Spaced(After(RunToRest(created, Inputs(ZERO, current)), events).sent)
  {
    hide RunLoop, Handle, Value;
    RunLoopKeeps(Begun(created), Inputs(ZERO, current));
    EventsKeep(RunToRest(created, Inputs(ZERO, current)), ZERO, events);
  }

  /**
    The clock starts over after 2^32 seconds, the time of the next indication does not: once that
    time is past the last reading there is, no run sends anything until the machine is initialized.
   */
  lemma {:induction false} SilentAfterRollover(m: Machine, events: seq<Event>)
    requires AtRest(m) && m.config.Enabled() && Value(m.syncSendTime) >= CLOCK_PERIOD_NS * TWO16
    requires forall k :: 0 <= k < |events| ==> events[k].RunAt?
    ensures After(m, events) == m
  {
    hide RunToRest, Value, AtRest;
    if events != [] {
      SilentAfterRollover(m, events[..|events| - 1]);
      NothingDue(m, events[|events| - 1].i);
      RunSendsIfDue(m, events[|events| - 1].i);
    }
  }

  /** A reading the indication is due at exists exactly before that. */
  lemma DueBeforeRollover(m: Machine)
    ensures (exists now: Reading :: Due(m, now)) <==> Value(m.syncSendTime) <= Value(LAST_READING)
  {
    if Value(m.syncSendTime) <= Value(LAST_READING) {
      assert Due(m, LAST_READING);
    }
    forall now: Reading | Due(m, now) ensures Value(m.syncSendTime) <= Value(LAST_READING) {
      ReadingBound(now);
    }
  }

  const LAST_READING: Reading := UScaledNs(0, CLOCK_PERIOD_NS - 1, 0xFFFF)

  lemma ReadingBound(now: Reading)
    ensures Value(now) <= Value(LAST_READING) < CLOCK_PERIOD_NS * TWO16
  {
  }

  lemma NothingDue(m: Machine, i: Inputs)
    requires Value(m.syncSendTime) >= CLOCK_PERIOD_NS * TWO16
    ensures !Due(m, i.now)
  {
    ReadingBound(i.now);
  }
}
