/** Source time taken over by the master clock (ClockMasterSyncReceive, section 10.2.11 of IEEE Std 802.1AS-2020). */
module ClockMasterReceiver {
  import opened Words
  import opened ScaledTime

  /** REACTION is never entered: it is stored as the last state to make the present one look new. */
  datatype State = BeforeInit | Init | Initializing | ReceiveSourceTime | Reaction

  datatype Config = Config(begin: bool, instanceEnable: bool) {
    predicate Enabled() { !begin && instanceEnable }
  }

  datatype SourceTime = SourceTime(time: UScaledNs, timeBaseIndicator: u16)

  /** The instance globals the machine owns. */
  datatype Clock = Clock(masterTime: UScaledNs, localTime: UScaledNs, indicator: u16, indicatorOld: u16)

  /** `taken` lists the requests the machine has acted on. */
  datatype Machine = Machine(config: Config, state: State, lastState: State,
                             rcvdReq: bool, rcvdTick: bool, req: SourceTime, clock: Clock, taken: seq<SourceTime>)

  // ---- Specification of one run ----

  function InitializingAction(m: Machine): Machine {
    m.(clock := m.clock.(masterTime := ZERO, localTime := ZERO, indicatorOld := 0), rcvdReq := false, rcvdTick := false)
  }

  function ReceiveAction(m: Machine): Machine {
    var clock := m.clock.(masterTime := m.req.time, localTime := m.req.time);
    m.(clock := if m.rcvdReq then clock.(indicatorOld := clock.indicator, indicator := m.req.timeBaseIndicator) else clock,
       taken := if m.rcvdReq then m.taken + [m.req] else m.taken,
       rcvdReq := false, rcvdTick := false)
  }

  function EntryAction(m: Machine): Machine {
    match m.state
    case Initializing => InitializingAction(m)
    case ReceiveSourceTime => ReceiveAction(m)
    case _ => m
  }

  function Exit(m: Machine): Machine {
    match m.state
    case Init => m.(state := Initializing)
    case Initializing => if m.rcvdReq || m.rcvdTick then m.(state := ReceiveSourceTime) else m
    case ReceiveSourceTime => if m.rcvdReq || m.rcvdTick then m.(lastState := Reaction) else m
    case _ => m
  }

  function Turn(m: Machine): Machine {
    var entered := m.(lastState := m.state);
    Exit(if m.lastState != m.state then EntryAction(entered) else entered)
  }

  predicate Quiescent(m: Machine) { m.lastState == m.state }

  function Measure(m: Machine): nat {
    if m.state == Init then 3
    else if (m.rcvdReq || m.rcvdTick) && m.lastState == m.state then 2
    else if m.lastState == m.state then 0 else 1
  }

  lemma TurnMakesProgress(m: Machine)
    ensures Quiescent(Turn(m)) || Measure(Turn(m)) < Measure(m)
  {
  }

  function RunLoop(m: Machine): (r: Machine)
    ensures Quiescent(r)
    decreases Measure(m)
  {
    hide Turn;
    TurnMakesProgress(m);
    var next := Turn(m);
    if Quiescent(next) then next else RunLoop(next)
  }

  function RunToRest(m: Machine): (r: Machine)
    ensures Quiescent(r)
  {
    RunLoop(if m.config.Enabled() then m else m.(state := Initializing))
  }

  lemma QuietTurnIsFixpoint(m: Machine)
    requires Quiescent(Turn(m))
    ensures Turn(Turn(m)) == Turn(m)
  {
  }

  lemma {:induction false} LoopEndsInFixpoint(m: Machine)
    ensures Turn(RunLoop(m)) == RunLoop(m)
    decreases Measure(m)
  {
    hide Turn;
    TurnMakesProgress(m);
    if Quiescent(Turn(m)) {
      QuietTurnIsFixpoint(m);
    } else {
      LoopEndsInFixpoint(Turn(m));
    }
  }

  /** The state a run ends in is one that another turn would not change. */
  lemma RunEndsInFixpoint(m: Machine)
    ensures Turn(RunToRest(m)) == RunToRest(m)
  {
    hide Turn, RunLoop;
    LoopEndsInFixpoint(if m.config.Enabled() then m else m.(state := Initializing));
  }

  // ---- Events ----

  datatype Event = Tick | RecvSourceTime(req: SourceTime) | SetConfig(config: Config)

  function Handle(m: Machine, e: Event): Machine {
    match e
    case Tick => RunToRest(m)
    case RecvSourceTime(req) => RunToRest(m.(rcvdReq := true, req := req))
    case SetConfig(config) => m.(config := config)
  }

  predicate Created(m: Machine, config: Config) {
    m.config == config && m.state == Init && m.lastState == BeforeInit && m.taken == []
  }

  // ---- The machine, updated in place ----

  class ClockMasterSyncReceiveSM {
    var config: Config
    var state: State
    var lastState: State
    var rcvdClockSourceReq: bool
    var rcvdLocalClockTick: bool
    var req: SourceTime
    var clock: Clock
    ghost var taken: seq<SourceTime>

    ghost function Snapshot(): Machine
      reads this
    {
      Machine(config, state, lastState, rcvdClockSourceReq, rcvdLocalClockTick, req, clock, taken)
    }

    constructor (config: Config)
      ensures exists m :: Created(m, config) && Snapshot() == RunToRest(m)
    {
      this.config := config;
      state, lastState := Init, BeforeInit;
      rcvdClockSourceReq, rcvdLocalClockTick, req, clock := *, *, *, *;
      taken := [];
      new;
      hide RunToRest;
      ghost var m := Snapshot();
      assert Created(m, config);
      Run();
    }

    method EnterReceiveSourceTime()
      modifies this
      ensures Snapshot() == ReceiveAction(old(Snapshot()))
    {
      clock := clock.(masterTime := req.time);
      clock := clock.(localTime := clock.masterTime);
      if rcvdClockSourceReq {
        clock := clock.(indicatorOld := clock.indicator);
        clock := clock.(indicator := req.timeBaseIndicator);
        taken := taken + [req];
      }
      rcvdClockSourceReq := false;
      rcvdLocalClockTick := false;
    }

    method TakeTurn()
      modifies this
      ensures Snapshot() == Turn(old(Snapshot()))
    {
      var stateChange := lastState != state;
      lastState := state;
      match state
      case Init => state := Initializing;
      case Initializing =>
        if stateChange {
          clock := clock.(masterTime := ZERO, localTime := ZERO, indicatorOld := 0);
          rcvdClockSourceReq := false;
          rcvdLocalClockTick := false;
        }
        if rcvdClockSourceReq || rcvdLocalClockTick {
          state := ReceiveSourceTime;
        }
      case ReceiveSourceTime =>
        if stateChange {
          EnterReceiveSourceTime();
        }
        if rcvdClockSourceReq || rcvdLocalClockTick {
          lastState := Reaction;
        }
      case _ =>
    }

    /** clock_master_sync_receive_sm_run: runs to rest, and terminates doing so. */
    method Run()
      modifies this
      ensures Snapshot() == RunToRest(old(Snapshot()))
    {
      hide Turn, Measure;
      if !config.Enabled() {
        state := Initializing;
      }
      while true
        invariant RunLoop(Snapshot()) == RunToRest(old(Snapshot()))
        decreases Measure(Snapshot())
      {
        TurnMakesProgress(Snapshot());
        TakeTurn();
        if lastState == state {
          break;
        }
      }
    }

    method RecvSourceTime(req: SourceTime)
      modifies this
      ensures Snapshot() == Handle(old(Snapshot()), Event.RecvSourceTime(req))
    {
      hide RunToRest;
      rcvdClockSourceReq := true;
      this.req := req;
      Run();
    }
  }

  // ---- Each request is acted on once ----

  predicate AtRest(m: Machine) {
    && Quiescent(m) && (m.state == Initializing || m.state == ReceiveSourceTime) && !m.rcvdReq && !m.rcvdTick
    && m.clock.masterTime == m.clock.localTime
  }

  lemma CreatedAtRest(m: Machine, config: Config)
    requires Created(m, config)
    ensures AtRest(RunToRest(m)) && RunToRest(m).taken == [] && RunToRest(m).clock.masterTime == ZERO
  {
    if config.Enabled() {
      RestsAfterTwoTurns(m);
    } else {
      assert Quiescent(Turn(m.(state := Initializing)));
    }
  }

  lemma RestsAfterTwoTurns(m: Machine)
    requires m.config.Enabled() || m.state == Initializing
    requires !Quiescent(Turn(m)) && Quiescent(Turn(Turn(m)))
    ensures RunToRest(m) == Turn(Turn(m))
  {
    hide Turn;
    assert RunLoop(m) == RunLoop(Turn(m));
  }

  /** A request is lost exactly if the instance is held down and has not been initialized for it yet. */
  predicate Lost(m: Machine) { (m.config.begin || !m.config.instanceEnable) && m.state == ReceiveSourceTime }

  function Taken(m: Machine, req: SourceTime): Machine {
    m.(state := ReceiveSourceTime, lastState := ReceiveSourceTime, req := req, taken := m.taken + [req],
       clock := Clock(req.time, req.time, req.timeBaseIndicator, m.clock.indicator))
  }

  /** Held down, the machine forgets the source time. */
  function Reset(m: Machine): Machine {
    m.(state := Initializing, lastState := Initializing, clock := Clock(ZERO, ZERO, m.clock.indicator, 0))
  }

  lemma RequestTakenOnce(m: Machine, req: SourceTime)
    requires AtRest(m)
    ensures Handle(m, RecvSourceTime(req)) == Taken(m, req) <==> !Lost(m)
    ensures Lost(m) ==> Handle(m, RecvSourceTime(req)) == Reset(m.(req := req))
  {
    var m0 := m.(rcvdReq := true, req := req);
    if Lost(m) {
      assert Quiescent(Turn(m0.(state := Initializing)));
    } else {
      RestsAfterTwoTurns(m0);
    }
  }

  /** The flag of a local clock tick, which nothing in the code sets, would repeat the last source time. */
  lemma LocalTickRepeats(m: Machine)
    requires AtRest(m) && !Lost(m)
    ensures RunToRest(m.(rcvdTick := true)) ==
            m.(state := ReceiveSourceTime, lastState := ReceiveSourceTime,
               clock := m.clock.(masterTime := m.req.time, localTime := m.req.time))
  {
    RestsAfterTwoTurns(m.(rcvdTick := true));
  }

  lemma TickTakesNothing(m: Machine)
    requires AtRest(m)
    ensures Handle(m, Tick) == if Lost(m) then Reset(m) else m
  {
    assert Turn(m) == m;
    if !m.config.Enabled() {
      assert Quiescent(Turn(m.(state := Initializing)));
    }
  }

  function After(m: Machine, events: seq<Event>): Machine {
    if events == [] then m else Handle(After(m, events[..|events| - 1]), events[|events| - 1])
  }

  /** The requests of a run that find the machine able to take them, in order of arrival. */
  function Deliverable(m: Machine, events: seq<Event>): seq<SourceTime> {
    if events == [] then []
    else
      var before := events[..|events| - 1];
      var e := events[|events| - 1];
      Deliverable(m, before) + if e.RecvSourceTime? && !Lost(After(m, before)) then [e.req] else []
  }

  /** The source time in force: the last one taken, or none since the machine was held down. */
  function InForce(m: Machine, events: seq<Event>): UScaledNs {
    if events == [] then ZERO
    else
      var before, e := events[..|events| - 1], events[|events| - 1];
      match e
      case SetConfig(_) => InForce(m, before)
      case RecvSourceTime(req) => if Lost(After(m, before)) then ZERO else req.time
      case Tick => if Lost(After(m, before)) then ZERO else InForce(m, before)
  }

  lemma {:induction false} EventsTakeOnce(m: Machine, events: seq<Event>)
    requires AtRest(m) && m.clock.masterTime == ZERO
    ensures AtRest(After(m, events))
    ensures After(m, events).taken == m.taken + Deliverable(m, events)
    ensures After(m, events).clock.masterTime == InForce(m, events)
  {
    hide Handle;
    if events != [] {
      var before := events[..|events| - 1];
      var e := events[|events| - 1];
      EventsTakeOnce(m, before);
      match e
      case RecvSourceTime(req) => RequestTakenOnce(After(m, before), req);
      case Tick => TickTakesNothing(After(m, before));
      case SetConfig(config) => SetConfigKeeps(After(m, before), config);
    }
  }

  lemma SetConfigKeeps(m: Machine, config: Config)
    ensures Handle(m, SetConfig(config)) == m.(config := config)
  {
  }

  /**
    Over every run from creation each request is acted on exactly once, in order, unless it is lost
    to a reset; and masterTime and localTime are always the same reading, the one in force.
   */
  lemma EachRequestOnce(created: Machine, config: Config, events: seq<Event>)
    requires Created(created, config)
    ensures var m, r := RunToRest(created), After(RunToRest(created), events);
            && r.taken == Deliverable(m, events)
            && r.clock.masterTime == r.clock.localTime == InForce(m, events)
  {
    hide RunToRest, After, Deliverable, InForce;
    CreatedAtRest(created, config);
    EventsTakeOnce(RunToRest(created), events);
  }
}
