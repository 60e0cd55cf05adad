/** The slave clock (ClockSlaveSync, section 10.2.13 of IEEE Std 802.1AS-2020). */
module ClockSlave {
  import opened Words
  import opened ScaledTime
  import opened SampleRing
  import opened PtpMessages
  import opened ClockPeriod

  const MAXLENGTH: nat := 64

  /** REACTION is never entered: it is stored as the last state to make the present one look new. */
  datatype State = BeforeInit | Init | Initializing | SendSyncIndication | Reaction

  datatype Config = Config(begin: bool, instanceEnable: bool) {
    predicate Enabled() { !begin && instanceEnable }
  }

  /** The floating-point rate quotient: 1, unusable, or giving a new period. */
  datatype Rate = CloseToOne | Meaningless | Scaled(newPeriod: Period)

  /** meanLinkDelay of the port the data came through, and the rate quotient should one be taken. */
  datatype Inputs = Inputs(linkDelay: UScaledNs, rate: Rate)

  /** What is written to the real-time clock: an amount to add or to subtract, and the period. */
  datatype Offset = Offset(add: bool, amount: UScaledNs)

  datatype Globals = Globals(syncReceiptTime: UScaledNs, syncReceiptLocalTime: UScaledNs,
                             gmTimeBaseIndicator: u16, lastGmPhaseChange: UScaledNs)

  /** `taken`: the PortSyncSyncs acted on; `ops`: what was done to the list of samples. */
  datatype Log = Log(offsets: seq<Offset>, periods: seq<(u32, u32)>, taken: seq<PortSyncSync>, ops: seq<RingOp>)

  datatype Machine = Machine(config: Config, state: State, lastState: State,
                             rcvdPss: bool, rcvdTick: bool, pss: PortSyncSync,
                             globals: Globals, period: Period, samples: seq<Sample>, log: Log)

  // ---- Specification of one run ----

  /** The offset updateSlaveTime writes: the smaller reading subtracted from the larger. */
  function OffsetOf(syncTime: UScaledNs, localTime: UScaledNs): (o: Offset)
    ensures Value(syncTime) == Value(localTime) + (if o.add then Value(o.amount) else -Value(o.amount))
    ensures Value(o.amount) == 0 ==> o.add
  {
    if Compare(syncTime, localTime) >= 0 then Offset(true, Subtract(syncTime, localTime))
    else Offset(false, Subtract(localTime, syncTime))
  }

  function LinkDelay(p: PortSyncSync, i: Inputs): UScaledNs {
    if p.localPort == 0 then ZERO else i.linkDelay
  }

  /** Grandmaster time and local time of the same instant, the Sync's arrival. */
  function Receipt(p: PortSyncSync, i: Inputs): Sample {
    Sample(Add(Add(FromPtp(p.data.preciseOrigin), p.data.correction), LinkDelay(p, i)),
           Add(p.data.upstreamTxTime, LinkDelay(p, i)))
  }

  function AddSample(m: Machine, x: Sample): Machine {
    m.(samples := Pushed(m.samples, MAXLENGTH, x), log := m.log.(ops := m.log.ops + [Push(x)]))
  }

  function Restarting(m: Machine): Machine {
    m.(samples := Restarted(m.samples), log := m.log.(ops := m.log.ops + [Restart]))
  }

  function PeriodUpdated(m: Machine, rate: Rate): Machine {
    if |m.samples| < 2 then m
    else match rate
      case CloseToOne => m
      case Meaningless => Restarting(m)
      case Scaled(p) => Restarting(m.(period := p, log := m.log.(periods := m.log.periods + [Registers(p)])))
  }

  function Indicated(m: Machine, i: Inputs): Machine {
    var x := Receipt(m.pss, i);
    var globals := Globals(x.first, x.second, m.pss.data.gmTimeBaseIndicator, m.pss.data.lastGmPhaseChange);
    var m := AddSample(m.(globals := globals, log := m.log.(taken := m.log.taken + [m.pss])), x);
    PeriodUpdated(m.(log := m.log.(offsets := m.log.offsets + [OffsetOf(x.first, x.second)])), i.rate)
  }

  function IndicationAction(m: Machine, i: Inputs): Machine {
    (if m.rcvdPss then Indicated(m, i) else m).(rcvdPss := false, rcvdTick := false)
  }

  function EntryAction(m: Machine, i: Inputs): Machine {
    match m.state
    case Initializing => m.(rcvdPss := false, rcvdTick := false)
    case SendSyncIndication => IndicationAction(m, i)
    case _ => m
  }

  function Exit(m: Machine): Machine {
    match m.state
    case Init => m.(state := Initializing)
    case Initializing => if m.rcvdPss || m.rcvdTick then m.(state := SendSyncIndication) else m
    case SendSyncIndication => if m.rcvdPss || m.rcvdTick then m.(lastState := Reaction) else m
    case _ => m
  }

  function Turn(m: Machine, i: Inputs): Machine {
    var entered := m.(lastState := m.state);
    Exit(if m.lastState != m.state then EntryAction(entered, i) else entered)
  }

  predicate Quiescent(m: Machine) { m.lastState == m.state }

  function Measure(m: Machine): nat {
    if m.state == Init then 3
    else if (m.rcvdPss || m.rcvdTick) && m.lastState == m.state then 2
    else if m.lastState == m.state then 0 else 1
  }

  lemma IndicationKeeps(m: Machine, i: Inputs)
    ensures var r := IndicationAction(m, i);
            && r.state == m.state && r.lastState == m.lastState && r.config == m.config
            && !r.rcvdPss && !r.rcvdTick && r.pss == m.pss
  {
    hide Receipt, OffsetOf, Registers;
  }

  lemma TurnMakesProgress(m: Machine, i: Inputs)
    ensures Quiescent(Turn(m, i)) || Measure(Turn(m, i)) < Measure(m)
  {
    hide IndicationAction;
    IndicationKeeps(m.(lastState := m.state), i);
  }

  function RunLoop(m: Machine, i: Inputs): (r: Machine)
    ensures Quiescent(r)
    decreases Measure(m)
  {
    hide Turn;
    TurnMakesProgress(m, i);
    var next := Turn(m, i);
    if Quiescent(next) then next else RunLoop(next, i)
  }

  function RunToRest(m: Machine, i: Inputs): (r: Machine)
    ensures Quiescent(r)
  {
    RunLoop(if m.config.Enabled() then m else m.(state := Initializing), i)
  }

  lemma QuietTurnIsFixpoint(m: Machine, i: Inputs)
    requires Quiescent(Turn(m, i))
    ensures Turn(Turn(m, i), i) == Turn(m, i)
  {
    hide IndicationAction;
    IndicationKeeps(m.(lastState := m.state), i);
  }

  lemma {:induction false} LoopEndsInFixpoint(m: Machine, i: Inputs)
    ensures Turn(RunLoop(m, i), i) == RunLoop(m, i)
    decreases Measure(m)
  {
    hide Turn;
    TurnMakesProgress(m, i);
    if Quiescent(Turn(m, i)) {
      QuietTurnIsFixpoint(m, i);
    } else {
      LoopEndsInFixpoint(Turn(m, i), i);
    }
  }

  /** The state a run ends in is one that another turn would not change. */
  lemma RunEndsInFixpoint(m: Machine, i: Inputs)
    ensures Turn(RunToRest(m, i), i) == RunToRest(m, i)
  {
    hide Turn, RunLoop;
    LoopEndsInFixpoint(if m.config.Enabled() then m else m.(state := Initializing), i);
  }

  // ---- Events ----

  datatype Event = Tick(i: Inputs) | RecvPss(i: Inputs, pss: PortSyncSync) | SetConfig(config: Config)

  function Handle(m: Machine, e: Event): Machine {
    match e
    case Tick(i) => RunToRest(m, i)
    case RecvPss(i, pss) => RunToRest(m.(rcvdPss := true, pss := pss), i)
    case SetConfig(config) => m.(config := config)
  }

  /** The period begins at 8 ns. */
  predicate Created(m: Machine, config: Config) {
    && m.config == config && m.state == Init && m.lastState == BeforeInit && m.period == 8.0
    && m.samples == [] && m.log == Log([], [], [], [])
  }

  // ---- The machine, updated in place ----

  class ClockSlaveSyncSM {
    var config: Config
    var state: State
    var lastState: State
    var rcvdPss: bool
    var rcvdTick: bool
    var pss: PortSyncSync
    var globals: Globals
    var period: Period
    const ring: Ring
    ghost var log: Log

    ghost predicate Valid()
      reads this, ring, ring.first, ring.second
    {
      ring.Valid() && ring.capacity == MAXLENGTH
    }

    ghost function Snapshot(): Machine
      reads this, ring
    {
      Machine(config, state, lastState, rcvdPss, rcvdTick, pss, globals, period, ring.Window, log)
    }

    /** init_clock_slave_sync_sm */
    constructor (config: Config, i: Inputs)
      ensures Valid() && fresh(ring) && fresh(ring.first) && fresh(ring.second)
      ensures exists m :: Created(m, config) && Snapshot() == RunToRest(m, i)
    {
      this.config := config;
      state, lastState := Init, BeforeInit;
      rcvdPss, rcvdTick, pss, globals := *, *, *, *;
      period := 8.0;
      ring := new Ring(MAXLENGTH);
      log := Log([], [], [], []);
      new;
      hide RunToRest;
      ghost var m := Snapshot();
      assert Created(m, config);
      Run(i);
    }

    method DropOlderSamples()
      requires Valid() && !ring.isEmpty
      modifies this`log, ring
      ensures Valid() && Snapshot() == Restarting(old(Snapshot()))
    {
      hide WindowOf, Restarted;
      ring.DropOlder();
      log := log.(ops := log.ops + [Restart]);
    }

    method UpdatePeriod(rate: Rate)
      requires Valid()
      modifies this, ring
      ensures Valid() && Snapshot() == PeriodUpdated(old(Snapshot()), rate)
    {
      hide WindowOf, Registers, Restarting;
      var has, oldest, newest := ring.Ends();
      if has && !rate.CloseToOne? {
        if rate.Scaled? {
          period := rate.newPeriod;
          var h, l := ToRegisters(period);
          log := log.(periods := log.periods + [(h, l)]);
        }
        DropOlderSamples();
      }
    }

    method UpdateTime()
      modifies this`log
      ensures Snapshot() == old(Snapshot()).(log := log)
      ensures log == old(log).(offsets := old(log).offsets + [OffsetOf(globals.syncReceiptTime, globals.syncReceiptLocalTime)])
    {
      if Compare(globals.syncReceiptTime, globals.syncReceiptLocalTime) >= 0 {
        var offset := Subtract(globals.syncReceiptTime, globals.syncReceiptLocalTime);
        log := log.(offsets := log.offsets + [Offset(true, offset)]);
      } else {
        var offset := Subtract(globals.syncReceiptLocalTime, globals.syncReceiptTime);
        log := log.(offsets := log.offsets + [Offset(false, offset)]);
      }
    }

    method Indicate(i: Inputs)
      requires Valid()
      modifies this, ring, ring.first, ring.second
      ensures Valid() && Snapshot() == Indicated(old(Snapshot()), i)
    {
      hide WindowOf, Pushed, PeriodUpdated, OffsetOf, Add, FromPtp;
      var potFup := Add(FromPtp(pss.data.preciseOrigin), pss.data.correction);
      var meanLinkDelay := if pss.localPort == 0 then ZERO else i.linkDelay;
      globals := globals.(syncReceiptTime := Add(potFup, meanLinkDelay),
                          syncReceiptLocalTime := Add(pss.data.upstreamTxTime, meanLinkDelay));
      ring.Add(globals.syncReceiptTime, globals.syncReceiptLocalTime);
      log := log.(taken := log.taken + [pss],
                  ops := log.ops + [Push(Sample(globals.syncReceiptTime, globals.syncReceiptLocalTime))]);
      globals := globals.(gmTimeBaseIndicator := pss.data.gmTimeBaseIndicator,
                          lastGmPhaseChange := pss.data.lastGmPhaseChange);
      UpdateTime();
      UpdatePeriod(i.rate);
    }

    method TakeTurn(i: Inputs)
      requires Valid()
      modifies this, ring, ring.first, ring.second
      ensures Valid() && Snapshot() == Turn(old(Snapshot()), i)
    {
      hide Indicated;
      ghost var entered := Snapshot().(lastState := state);
      IndicationKeeps(entered, i);
      var stateChange := lastState != state;
      lastState := state;
      match state
      case Init => state := Initializing;
      case Initializing =>
        if stateChange {
          rcvdPss := false;
          rcvdTick := false;
        }
        if rcvdPss || rcvdTick {
          state := SendSyncIndication;
        }
      case SendSyncIndication =>
        if stateChange {
          if rcvdPss {
            Indicate(i);
          }
          rcvdPss := false;
          rcvdTick := false;
        }
        if rcvdPss || rcvdTick {
          lastState := Reaction;
        }
      case _ =>
    }

    /** clock_slave_sync_sm_run: runs to rest, and terminates doing so. */
    method Run(i: Inputs)
      requires Valid()
      modifies this, ring, ring.first, ring.second
      ensures Valid() && Snapshot() == RunToRest(old(Snapshot()), i)
    {
      hide Turn, Measure, WindowOf;
      if !config.Enabled() {
        state := Initializing;
      }
      while true
        invariant Valid()
        invariant RunLoop(Snapshot(), i) == RunToRest(old(Snapshot()), i)
        decreases Measure(Snapshot())
      {
        TurnMakesProgress(Snapshot(), i);
        TakeTurn(i);
        if lastState == state {
          break;
        }
      }
    }

    method RecvPss(i: Inputs, pss: PortSyncSync)
      requires Valid()
      modifies this, ring, ring.first, ring.second
      ensures Valid() && Snapshot() == Handle(old(Snapshot()), Event.RecvPss(i, pss))
    {
      hide RunToRest, WindowOf;
      rcvdPss := true;
      this.pss := pss;
      Run(i);
    }
  }

  // ---- Each PortSyncSync is acted on once ----

  predicate AtRest(m: Machine) {
    && Quiescent(m) && (m.state == Initializing || m.state == SendSyncIndication) && !m.rcvdPss && !m.rcvdTick
    && m.samples == WindowAfter(MAXLENGTH, m.log.ops) && |m.log.offsets| == |m.log.taken|
  }

  lemma RestsAfterTwoTurns(m: Machine, i: Inputs)
    requires m.config.Enabled() || m.state == Initializing
    requires !Quiescent(Turn(m, i)) && Quiescent(Turn(Turn(m, i), i))
    ensures RunToRest(m, i) == Turn(Turn(m, i), i)
  {
    hide Turn;
    assert RunLoop(m, i) == RunLoop(Turn(m, i), i);
  }

  lemma CreatedAtRest(m: Machine, config: Config, i: Inputs)
    requires Created(m, config)
    ensures AtRest(RunToRest(m, i)) && RunToRest(m, i).log == m.log && RunToRest(m, i).period == m.period
  {
    hide Indicated;
    if config.Enabled() {
      RestsAfterTwoTurns(m, i);
    } else {
      assert Quiescent(Turn(m.(state := Initializing), i));
    }
  }

  /** Data is lost exactly if the instance is held down and has not been initialized for it yet. */
  predicate Lost(m: Machine) { (m.config.begin || !m.config.instanceEnable) && m.state == SendSyncIndication }

  /** One indication for this data, and nothing else. */
  function Taken(m: Machine, i: Inputs, pss: PortSyncSync): Machine {
    Indicated(m.(pss := pss, rcvdPss := true), i)
      .(rcvdPss := false, rcvdTick := false, state := SendSyncIndication, lastState := SendSyncIndication)
  }

  lemma IndicatedEffects(m: Machine, i: Inputs)
    ensures var r := Indicated(m, i);
            && r.log.taken == m.log.taken + [m.pss]
            && r.log.offsets == m.log.offsets + [OffsetOf(Receipt(m.pss, i).first, Receipt(m.pss, i).second)]
            && r == m.(globals := r.globals, period := r.period, samples := r.samples, log := r.log)
            && (m.samples == WindowAfter(MAXLENGTH, m.log.ops) ==> r.samples == WindowAfter(MAXLENGTH, r.log.ops))
  {
    hide Receipt, OffsetOf, PeriodUpdated, Pushed, WindowAfter;
    var x := Receipt(m.pss, i);
    Appended(m.log.ops, Push(x));
    var globals := Globals(x.first, x.second, m.pss.data.gmTimeBaseIndicator, m.pss.data.lastGmPhaseChange);
    var a := AddSample(m.(globals := globals, log := m.log.(taken := m.log.taken + [m.pss])), x);
    PeriodEffects(a.(log := a.log.(offsets := a.log.offsets + [OffsetOf(x.first, x.second)])), i.rate);
  }

  lemma PeriodEffects(m: Machine, rate: Rate)
    ensures var r := PeriodUpdated(m, rate);
            && r == m.(period := r.period, samples := r.samples,
                       log := m.log.(periods := r.log.periods, ops := r.log.ops))
            && (m.samples == WindowAfter(MAXLENGTH, m.log.ops) ==> r.samples == WindowAfter(MAXLENGTH, r.log.ops))
  {
    hide Registers, Restarted, WindowAfter;
    Appended(m.log.ops, Restart);
  }

  lemma Appended(ops: seq<RingOp>, op: RingOp)
    ensures WindowAfter(MAXLENGTH, ops + [op]) ==
            match op
            case Push(x) => Pushed(WindowAfter(MAXLENGTH, ops), MAXLENGTH, x)
            case Restart => Restarted(WindowAfter(MAXLENGTH, ops))
  {
    hide Pushed, Restarted;
    assert (ops + [op])[..|ops|] == ops;
  }

  lemma PssTakenOnce(m: Machine, i: Inputs, pss: PortSyncSync)
    requires AtRest(m)
    ensures AtRest(Handle(m, RecvPss(i, pss)))
    ensures Handle(m, RecvPss(i, pss)) == Taken(m, i, pss) <==> !Lost(m)
    ensures !Lost(m) ==> Handle(m, RecvPss(i, pss)).log.taken == m.log.taken + [pss]
    ensures Lost(m) ==> Handle(m, RecvPss(i, pss)).log == m.log
  {
    hide Indicated, WindowAfter;
    var m0 := m.(rcvdPss := true, pss := pss);
    if Lost(m) {
      assert Quiescent(Turn(m0.(state := Initializing), i));
      IndicatedEffects(m0, i);
    } else {
      IndicatedEffects(m0, i);
      var m1 := Turn(m0, i);
      assert m1 == m0.(state := SendSyncIndication, lastState := m1.lastState);
      IndicatedFrom(m0, m1.(lastState := SendSyncIndication), i);
      RestsAfterTwoTurns(m0, i);
    }
  }

  /** The indication does not look at the states. */
  lemma IndicatedFrom(m: Machine, n: Machine, i: Inputs)
    requires n == m.(state := n.state, lastState := n.lastState)
    ensures Indicated(n, i) == Indicated(m, i).(state := n.state, lastState := n.lastState)
  {
    hide Receipt, OffsetOf, Registers, Pushed, Restarted;
  }

  lemma OthersTakeNothing(m: Machine, e: Event)
    requires AtRest(m) && !e.RecvPss?
    ensures AtRest(Handle(m, e)) && Handle(m, e).log == m.log
  {
    hide Indicated, WindowAfter;
    if e.Tick? {
      assert Turn(m, e.i) == m;
      if !m.config.Enabled() {
        assert Quiescent(Turn(m.(state := Initializing), e.i));
      }
    }
  }

  function After(m: Machine, events: seq<Event>): Machine {
    if events == [] then m else Handle(After(m, events[..|events| - 1]), events[|events| - 1])
  }

  function Deliverable(m: Machine, events: seq<Event>): seq<PortSyncSync> {
    if events == [] then []
    else
      var before := events[..|events| - 1];
      var e := events[|events| - 1];
      Deliverable(m, before) + if e.RecvPss? && !Lost(After(m, before)) then [e.pss] else []
  }

  lemma {:induction false} EventsTakeOnce(m: Machine, events: seq<Event>)
    requires AtRest(m)
    ensures AtRest(After(m, events))
    ensures After(m, events).log.taken == m.log.taken + Deliverable(m, events)
  {
    hide Handle, AtRest;
    if events != [] {
      var before := events[..|events| - 1];
      var e := events[|events| - 1];
      EventsTakeOnce(m, before);
      if e.RecvPss? {
        PssTakenOnce(After(m, before), e.i, e.pss);
      } else {
        OthersTakeNothing(After(m, before), e);
      }
    }
  }

  /**
    Over every run from creation each PortSyncSync is acted on exactly once, in order, unless it is
    lost to a reset; one offset is written for each; and the samples are exactly the most recent ones
    since the list was last restarted, at most as many as it holds.
   */
  lemma EachPssOnce(created: Machine, config: Config, i: Inputs, events: seq<Event>)
    requires Created(created, config)
    ensures var m, r := RunToRest(created, i), After(RunToRest(created, i), events);
            && r.log.taken == Deliverable(m, events) && |r.log.offsets| == |r.log.taken|
            && var n := if SinceRestart(r.log.ops) <= MAXLENGTH then SinceRestart(r.log.ops) else MAXLENGTH;
               n <= |AllSamples(r.log.ops)| && r.samples == AllSamples(r.log.ops)[|AllSamples(r.log.ops)| - n..]
  {
    hide RunToRest, After, Deliverable, WindowAfter, AllSamples, SinceRestart;
    CreatedAtRest(created, config, i);
    EventsTakeOnce(RunToRest(created, i), events);
    WindowIsRecent(MAXLENGTH, After(RunToRest(created, i), events).log.ops);
  }

  // ---- What taking a PortSyncSync does to the clock ----

  /** Grandmaster time and local time at the Sync's arrival; data of the node's own clock did not travel. */
  function ReceiptOf(p: PortSyncSync, linkDelay: UScaledNs): Sample {
    var d := p.data;
    var potFup := Add(FromPtp(d.preciseOrigin), d.correction);
    if p.localPort == 0 then Sample(Add(potFup, ZERO), Add(d.upstreamTxTime, ZERO))
    else Sample(Add(potFup, linkDelay), Add(d.upstreamTxTime, linkDelay))
  }

  /** The rate was compared with an earlier sample, and found neither equal nor meaningless. */
  predicate PeriodChanges(m: Machine, i: Inputs) { m.samples != [] && i.rate.Scaled? }

  /** The registers hold the nearest value; where rounding carries out of them, they hold zero. */
  predicate Holds(registers: (u32, u32), p: Period) {
    var units := registers.0 * 0x1_0000_0000 + registers.1;
    if Overflows(p) then units == 0 else Nearest(p, units)
  }

  predicate ClockSet(m: Machine, i: Inputs, p: PortSyncSync, r: Machine) {
    var x := ReceiptOf(p, i.linkDelay);
    && r.globals == Globals(x.first, x.second, p.data.gmTimeBaseIndicator, p.data.lastGmPhaseChange)
    && r.log.taken == m.log.taken + [p]
    && r.log.offsets == m.log.offsets + [OffsetOf(x.first, x.second)]
    && (if PeriodChanges(m, i) then
          && r.period == i.rate.newPeriod
          && |r.log.periods| == |m.log.periods| + 1 && m.log.periods <= r.log.periods
          && Holds(r.log.periods[|m.log.periods|], i.rate.newPeriod)
        else r.period == m.period && r.log.periods == m.log.periods)
    && r.samples == (if m.samples != [] && !i.rate.CloseToOne? then [x]
                     else if |m.samples| < 64 then m.samples + [x] else m.samples[1..] + [x])
  }

  /**
    A slave not lost to a reset sets its time, and exactly if a rate was taken and is usable its period,
    in the fields and in the registers; a rate that is not 1 begins the list of samples anew.
   */
  lemma ClockIsSet(m: Machine, i: Inputs, p: PortSyncSync)
    requires AtRest(m) && !Lost(m)
    ensures ClockSet(m, i, p, Handle(m, RecvPss(i, p)))
  {
    hide AtRest, Handle, Add, FromPtp, OffsetOf, Nearest, WindowAfter;
    PssTakenOnce(m, i, p);
    if i.rate.Scaled? {
      RegistersHold(i.rate.newPeriod);
    }
  }

  lemma RegistersHold(p: Period)
    ensures Holds(Registers(p), p)
  {
    hide Nearest;
    RegistersNearest(p);
    if Overflows(p) {
      CarriesOut(p);
    }
  }

  lemma CarriesOut(p: Period)
    requires Overflows(p)
    ensures Rounded(p) == TWO64
  {
  }

  /** The periods taken over, by the events that bring a usable rate. */
  function PeriodsOver(m: Machine, events: seq<Event>): seq<Period> {
    if events == [] then []
    else
      var before, e := events[..|events| - 1], events[|events| - 1];
      var n := After(m, before);
      PeriodsOver(m, before) + if e.RecvPss? && !Lost(n) && PeriodChanges(n, e.i) then [e.i.rate.newPeriod] else []
  }

  predicate PeriodsWritten(r: Machine, first: Period, periods: seq<Period>) {
    && |r.log.periods| == |periods|
    && (forall k :: 0 <= k < |periods| ==> Holds(r.log.periods[k], periods[k]))
    && r.period == if periods == [] then first else periods[|periods| - 1]
  }

  lemma EventWritesPeriod(m: Machine, e: Event, first: Period, periods: seq<Period>)
    requires AtRest(m) && PeriodsWritten(m, first, periods)
    ensures var more := if e.RecvPss? && !Lost(m) && PeriodChanges(m, e.i) then [e.i.rate.newPeriod] else [];
            PeriodsWritten(Handle(m, e), first, periods + more)
  {
    hide AtRest, Handle, Holds, ReceiptOf, OffsetOf, Lost;
    assert periods + [] == periods;
    if !e.RecvPss? {
      OthersKeepPeriod(m, e);
    } else if Lost(m) {
      LostKeepsPeriod(m, e.i, e.pss);
    } else {
      ClockIsSet(m, e.i, e.pss);
    }
  }

  lemma {:induction false} EventsWritePeriods(m: Machine, events: seq<Event>)
    requires AtRest(m) && m.log.periods == []
    ensures PeriodsWritten(After(m, events), m.period, PeriodsOver(m, events))
  {
    hide AtRest, Handle, Holds, PeriodChanges, Lost;
    if events != [] {
      var before := events[..|events| - 1];
      EventsWritePeriods(m, before);
      EventsTakeOnce(m, before);
      EventWritesPeriod(After(m, before), events[|events| - 1], m.period, PeriodsOver(m, before));
    }
  }

  /** Held down, the machine forgets nothing but where it was. */
  lemma LostKeepsPeriod(m: Machine, i: Inputs, p: PortSyncSync)
    requires AtRest(m) && Lost(m)
    ensures Handle(m, RecvPss(i, p)) == m.(pss := p, state := Initializing, lastState := Initializing)
  {
    hide Indicated, WindowAfter;
    assert Quiescent(Turn(m.(rcvdPss := true, pss := p, state := Initializing), i));
  }

  lemma OthersKeepPeriod(m: Machine, e: Event)
    requires AtRest(m) && !e.RecvPss?
    ensures Handle(m, e) == match e
                            case SetConfig(config) => m.(config := config)
                            case _ => if Lost(m) then m.(state := Initializing, lastState := Initializing) else m
  {
    hide Indicated, WindowAfter;
    if e.Tick? {
      assert Turn(m, e.i) == m;
      if !m.config.Enabled() {
        assert Quiescent(Turn(m.(state := Initializing), e.i));
      }
    }
  }

  /** The flag of a local clock tick, which nothing in the code sets, would change nothing else. */
  lemma LocalTickIsIdle(m: Machine, i: Inputs)
    requires AtRest(m) && !Lost(m)
    ensures RunToRest(m.(rcvdTick := true), i) == m.(state := SendSyncIndication, lastState := SendSyncIndication)
  {
    hide Indicated, WindowAfter;
    RestsAfterTwoTurns(m.(rcvdTick := true), i);
  }

  /** From creation, at 8 ns: each usable rate is written once, in order, and the last one is in force. */
  lemma PeriodFollows(created: Machine, config: Config, i: Inputs, events: seq<Event>)
    requires Created(created, config)
    ensures var m := RunToRest(created, i); PeriodsWritten(After(m, events), 8.0, PeriodsOver(m, events))
  {
    hide RunToRest, After, PeriodsOver, Holds;
    CreatedAtRest(created, config, i);
    EventsWritePeriods(RunToRest(created, i), events);
  }
}
