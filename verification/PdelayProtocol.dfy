/**
  Requester and responder joined by two FIFO links that may lose frames.

  A step is anything either node or the network can do while the requester's epoch lasts: a timer
  tick, a transmit timestamp being reported, the responder's port going up or down, the first frame
  of a link arriving, any frame of a link being lost. What a timestamping unit reports for a frame is given by `physics`.
 */
module PdelayProtocol {
  import opened Words
  import opened ScaledTime
  import opened PtpMessages
  import opened PdelayEpoch
  import Q = PdelayRequester
  import R = PdelayRequesterRuns
  import P = PdelayResponder

  /**
    `seenResp` and `seenFollowUp` are the ordinals of the last response and follow-up delivered to
    the requester, `asked` that of the last request delivered to the responder; -1 if none was.
    `replied` is everything the responder has sent in this epoch.
   */
  datatype System = System(
    a: Q.Machine, b: P.Machine,
    requests: seq<PdelayReq>, replies: seq<P.Sent>,
    seenResp: int, seenFollowUp: int, asked: int,
    replied: seq<P.Sent>)

  datatype Step =
    | RequesterTick(i: Q.Inputs)
    | RequestStamped(i: Q.Inputs, id: u16)
    | RequestArrives
    | RequestLost(k: nat)
    | ResponderTick
    | ResponderPort(begin: bool, portOper: bool, portEnabled1: bool)
    | ResponseStamped(id: u16)
    | ReplyArrives(i: Q.Inputs)
    | ReplyLost(k: nat)

  /** A link delivers what is on it; a unit reports the departure of a response that was sent. */
  predicate Enabled(s: System, step: Step) {
    match step
    case RequestArrives => s.requests != []
    case RequestLost(k) => k < |s.requests|
    case ResponseStamped(id) => HasResponse(s.replied, id)
    case ReplyArrives(_) => s.replies != []
    case ReplyLost(k) => k < |s.replies|
    case _ => true
  }

  predicate HasResponse(sent: seq<P.Sent>, id: u16) {
    exists k :: 0 <= k < |sent| && sent[k].Resp? && sent[k].resp.sequenceId == id
  }

  function NewRequests(e: Epoch, sent: seq<Q.SentReq>): (r: seq<PdelayReq>)
    ensures |r| == |sent|
    ensures forall k :: 0 <= k < |sent| ==> r[k] == PdelayReq(sent[k].id, e.self)
  {
    seq(|sent|, k requires 0 <= k < |sent| => PdelayReq(sent[k].id, e.self))
  }

  function AfterRequester(e: Epoch, s: System, a: Q.Machine): System
    requires |s.a.log.sent| <= |a.log.sent|
  {
    s.(a := a, requests := s.requests + NewRequests(e, a.log.sent[|s.a.log.sent|..]))
  }

  function AfterResponder(s: System, b: P.Machine): System {
    if |s.b.out| <= |b.out| then
      s.(b := b, replies := s.replies + b.out[|s.b.out|..], replied := s.replied + b.out[|s.b.out|..])
    else s.(b := b)
  }

  function WithoutIndex<T>(q: seq<T>, k: nat): seq<T>
    requires k < |q|
  {
    q[..k] + q[k + 1..]
  }

  function RequesterHandles(e: Epoch, s: System, event: Q.Event): System {
    R.HandleGrows(s.a, event);
    AfterRequester(e, s, Q.Handle(s.a, event))
  }

  function Delivered(e: Epoch, s: System): System
    requires s.replies != []
  {
    match s.replies[0]
    case Resp(resp) => s.(replies := s.replies[1..], seenResp := e.Ordinal(resp.sequenceId))
    case FollowUp(followUp) => s.(replies := s.replies[1..], seenFollowUp := e.Ordinal(followUp.sequenceId))
  }

  function ReplyEvent(physics: Physics, reply: P.Sent, i: Q.Inputs): Q.Event {
    match reply
    case Resp(resp) => Q.RecvResp(i, physics(resp.sequenceId).t4, resp)
    case FollowUp(followUp) => Q.RecvFollowUp(i, followUp)
  }

  function Next(e: Epoch, physics: Physics, s: System, step: Step): System
    requires Enabled(s, step)
  {
    match step
    case RequesterTick(i) => RequesterHandles(e, s, Q.Tick(i))
    case RequestStamped(i, id) => RequesterHandles(e, s, Q.TxTimestamp(i, TsuTimestamp(physics(id).t1, id)))
    case RequestArrives =>
      var req := s.requests[0];
      AfterResponder(s.(requests := s.requests[1..], asked := e.Ordinal(req.sequenceId)),
                     P.Handle(s.b, P.RecvReq(physics(req.sequenceId).t2, req)))
    case RequestLost(k) => s.(requests := WithoutIndex(s.requests, k))
    case ResponderTick => AfterResponder(s, P.Handle(s.b, P.Tick))
    case ResponderPort(begin, portOper, portEnabled1) =>
      AfterResponder(s, P.Handle(s.b, P.SetPort(begin, portOper, portEnabled1)))
    case ResponseStamped(id) =>
      AfterResponder(s, P.Handle(s.b, P.TxTimestamp(TsuTimestamp(physics(id).t3, id))))
    case ReplyArrives(i) => RequesterHandles(e, Delivered(e, s), ReplyEvent(physics, s.replies[0], i))
    case ReplyLost(k) => s.(replies := WithoutIndex(s.replies, k))
  }

  // ---- The responder between events ----

  predicate Settled(b: P.Machine) {
    !b.crashed && b.state == b.lastState && !b.rcvdTxTimestamp
  }

  predicate Idle(b: P.Machine) {
    Settled(b) && (b.state == P.InitialWaiting || b.state == P.WaitingForReq) && !b.rcvdReq
  }

  predicate Busy(b: P.Machine) { Settled(b) && b.state == P.SentResp && b.req.Some? }

  predicate Off(b: P.Machine) { !b.crashed && b.state == b.lastState == P.NotEnabled }

  /** A run with the port down, or the first one after it, forgets what was going on and sends nothing. */
  lemma RunResets(b: P.Machine)
    requires !b.crashed
    requires b.config.begin || !b.config.portOper || !b.config.portEnabled1 || b.state == P.NotEnabled
    ensures var r := P.RunToRest(b);
            && r.out == b.out && r.config == b.config && (Idle(r) || Off(r))
            && (Idle(r) <==> b.config.portEnabled1)
  {
    hide P.MakeResp, P.MakeFollowUp;
    var m := b.(state := P.NotEnabled);
    var m1 := P.Turn(m);
    assert P.RunToRest(b) == P.RunLoop(m);
    if b.config.portEnabled1 {
      assert m1 == m.(state := P.InitialWaiting, lastState := P.NotEnabled);
      assert P.RunLoop(m) == P.RunLoop(m1) == P.Turn(m1);
    }
  }

  lemma TickWhenSettled(b: P.Machine)
    requires (Idle(b) || Busy(b)) && b.config.Enabled()
    ensures P.Handle(b, P.Tick) == b
  {
    hide P.EntryAction;
    assert P.Turn(b) == b;
  }

  lemma RestsAfterTwoTurns(m: P.Machine)
    requires m.config.Enabled() && !P.Quiescent(P.Turn(m)) && P.Quiescent(P.Turn(P.Turn(m)))
    ensures P.RunToRest(m) == P.Turn(P.Turn(m))
  {
    hide P.Turn;
    assert P.RunLoop(m) == P.RunLoop(P.Turn(m));
  }

  /** The response goes out in the same run, to the request's sender, with the request's arrival in it. */
  lemma RequestWhenIdle(b: P.Machine, ingress: UScaledNs, req: PdelayReq)
    requires Idle(b) && b.config.Enabled()
    ensures P.Handle(b, P.RecvReq(ingress, req))
            == b.(req := P.Some(req), t2 := ingress, state := P.SentResp, lastState := P.SentResp,
                  out := b.out + [P.Resp(PdelayResp(req.sequenceId, PortIdentity(0, b.config.thisPort),
                                                    ToPtp(ingress), req.source))])
  {
    hide P.WaitingForReqAction;
    var m := b.(rcvdReq := true, req := P.Some(req), t2 := ingress);
    assert P.Turn(m) == m.(state := P.SentResp);
    RestsAfterTwoTurns(m);
  }

  /** A second request while the first response's departure is awaited only replaces the first one. */
  lemma RequestWhenBusy(b: P.Machine, ingress: UScaledNs, req: PdelayReq)
    requires Busy(b) && b.config.Enabled()
    ensures P.Handle(b, P.RecvReq(ingress, req)) == b.(rcvdReq := true, req := P.Some(req), t2 := ingress)
  {
    hide P.EntryAction;
    var m := b.(rcvdReq := true, req := P.Some(req), t2 := ingress);
    assert P.Turn(m) == m;
  }

  /** The follow-up goes out in the run of its timestamp, with that in it, and the request is done with. */
  lemma StampWhenBusy(b: P.Machine, stamp: TsuTimestamp)
    requires Busy(b) && b.config.Enabled() && !b.rcvdReq && P.Awaits(b, stamp)
    ensures P.Handle(b, P.TxTimestamp(stamp))
            == b.(t3 := stamp.ts, req := P.None, state := P.WaitingForReq, lastState := P.WaitingForReq,
                  out := b.out + [P.FollowUp(PdelayRespFollowUp(b.req.value.sequenceId, PortIdentity(0, b.config.thisPort),
                                                                ToPtp(stamp.ts), b.req.value.source))])
  {
    hide P.SentRespAction;
    var m := b.(t3 := stamp.ts, rcvdTxTimestamp := true);
    assert P.Turn(m) == m.(state := P.WaitingForReq);
    RestsAfterTwoTurns(m);
  }

  /** No message is made without a request, no timestamp compared, and nothing happens after that. */
  lemma NullRequestCrashes(m: P.Machine, stamp: TsuTimestamp, e: P.Event)
    requires (m.state == P.SentResp || m.state == P.WaitingForReq) && m.req == P.None
    ensures m.lastState != m.state ==> P.Turn(m).crashed && P.Turn(m).out == m.out && P.Turn(m).state == m.state
    ensures m.state == P.SentResp ==> P.Handle(m, P.TxTimestamp(stamp)).crashed
    ensures m.crashed ==> P.Handle(m, e) == m
  {
  }

  /**
    The null request is used exactly if a second request had arrived and the timestamp has its id too:
    the follow-up answers it, and the response to it is then to be made from nothing.
   */
  lemma StampCrashesExactly(b: P.Machine, stamp: TsuTimestamp)
    requires Busy(b) && !b.config.begin && b.config.portOper && b.config.portEnabled1
    requires stamp.sequenceId == b.req.value.sequenceId
    ensures P.Handle(b, P.TxTimestamp(stamp)).crashed <==> b.rcvdReq
    ensures b.rcvdReq ==>
              P.Handle(b, P.TxTimestamp(stamp)) ==
              (b.(t3 := stamp.ts, rcvdReq := false, req := P.None, state := P.SentResp, lastState := P.SentResp, crashed := true,
                  out := b.out + [P.FollowUp(P.MakeFollowUp(b.req.value, b.config, stamp.ts))]))
  {
    if b.rcvdReq {
      hide P.MakeFollowUp;
      var m := b.(t3 := stamp.ts, rcvdTxTimestamp := true);
      var m1, m2 := P.Turn(m), P.Turn(P.Turn(m));
      assert m1 == m.(state := P.WaitingForReq);
      assert m2.state == P.SentResp && m2.req.None? && !m2.crashed && m2.lastState == P.WaitingForReq;
      NullRequestCrashes(m2, stamp, P.Tick);
      assert P.RunToRest(m) == P.RunLoop(m) == P.RunLoop(m1) == P.RunLoop(m2) == P.Turn(m2);
    } else {
      StampWhenBusy(b, stamp);
    }
  }

  /** Two requests with one id, and the timestamp of the response to the first. */
  lemma RepeatedRequestCrashes(b: P.Machine, t2: UScaledNs, req: PdelayReq, again: UScaledNs, stamp: TsuTimestamp)
    requires Idle(b) && !b.config.begin && b.config.portOper && b.config.portEnabled1
    requires stamp.sequenceId == req.sequenceId
    ensures P.Handle(P.Handle(P.Handle(b, P.RecvReq(t2, req)), P.RecvReq(again, req)), P.TxTimestamp(stamp)).crashed
  {
    hide P.RunToRest;
    RequestWhenIdle(b, t2, req);
    RequestWhenBusy(P.Handle(b, P.RecvReq(t2, req)), again, req);
    StampCrashesExactly(P.Handle(P.Handle(b, P.RecvReq(t2, req)), P.RecvReq(again, req)), stamp);
  }

  // ---- The invariant of the whole system ----

  predicate RequestsInOrder(e: Epoch, q: seq<PdelayReq>, above: int, below: int) {
    && (forall j :: 0 <= j < |q| ==> q[j].source == e.self && above < e.Ordinal(q[j].sequenceId) < below)
    && (forall i, j :: 0 <= i < j < |q| ==> e.Ordinal(q[i].sequenceId) < e.Ordinal(q[j].sequenceId))
  }

  /** Position of a reply in the epoch: a response, then its follow-up. */
  function Key(e: Epoch, r: P.Sent): int {
    match r
    case Resp(resp) => 2 * e.Ordinal(resp.sequenceId)
    case FollowUp(followUp) => 2 * e.Ordinal(followUp.sequenceId) + 1
  }

  predicate RepliesInOrder(e: Epoch, q: seq<P.Sent>, above: int, upTo: int) {
    && (forall j :: 0 <= j < |q| ==> above < Key(e, q[j]) <= upTo)
    && (forall i, j :: 0 <= i < j < |q| ==> Key(e, q[i]) < Key(e, q[j]))
  }

  /** A reply tells the truth about its own exchange, and only about that one. */
  predicate Truthful(e: Epoch, physics: Physics, r: P.Sent) {
    match r
    case Resp(resp) => resp.requesting == e.self && resp.requestReceipt == ToPtp(physics(resp.sequenceId).t2)
    case FollowUp(followUp) => followUp.responseOrigin == ToPtp(physics(followUp.sequenceId).t3)
  }

  predicate AllTruthful(e: Epoch, physics: Physics, q: seq<P.Sent>) {
    forall j :: 0 <= j < |q| ==> Truthful(e, physics, q[j])
  }

  function LastSeen(s: System): int {
    if 2 * s.seenResp > 2 * s.seenFollowUp + 1 then 2 * s.seenResp else 2 * s.seenFollowUp + 1
  }

  function LastSent(e: Epoch, s: System): int {
    if s.replied == [] then -1 else Key(e, s.replied[|s.replied| - 1])
  }

  predicate ResponderInv(e: Epoch, physics: Physics, s: System) {
    || ((Idle(s.b) || Off(s.b)) && LastSent(e, s) <= 2 * s.asked + 1)
    || (&& Busy(s.b) && s.asked >= 0
        && s.b.req.value == PdelayReq(e.Id(s.asked), e.self) && s.b.t2 == physics(e.Id(s.asked)).t2
        && if s.b.rcvdReq then LastSent(e, s) < 2 * s.asked else LastSent(e, s) == 2 * s.asked)
  }

  predicate LinksInv(e: Epoch, physics: Physics, s: System) {
    && -1 <= s.asked < Count(e, s.a)
    && RequestsInOrder(e, s.requests, s.asked, Count(e, s.a))
    && RepliesInOrder(e, s.replies, LastSeen(s), LastSent(e, s))
    && RepliesInOrder(e, s.replied, -1, LastSent(e, s))
    && LastSeen(s) <= LastSent(e, s)
    && AllTruthful(e, physics, s.replies)
  }

  function ViewOf(e: Epoch, physics: Physics, s: System): View {
    View(e, physics, s.seenResp, s.seenFollowUp, false)
  }

  /** Holds in every reachable state, as long as no sequence id of the epoch has been used twice. */
  predicate SystemInv(e: Epoch, physics: Physics, s: System) {
    Count(e, s.a) <= TWO16 ==>
      RequesterAtRest(ViewOf(e, physics, s), s.a) && LinksInv(e, physics, s) && ResponderInv(e, physics, s)
  }

  /** The epoch has just begun, and earlier epochs left nothing on the links. */
  predicate Start(e: Epoch, physics: Physics, s: System) {
    && RequesterAtRest(View(e, physics, -1, -1, false), s.a) && Count(e, s.a) == 1
    && s.requests == [PdelayReq(e.firstId, e.self)] && s.replies == [] && s.replied == []
    && s.seenResp == s.seenFollowUp == s.asked == -1
    && Idle(s.b)
  }

  lemma StartInv(e: Epoch, physics: Physics, s: System)
    requires Start(e, physics, s)
    ensures SystemInv(e, physics, s)
  {
  }

  /** Enabling the requester's port beside an idle responder, with nothing on the links, is such a start. */
  lemma StartReached(a: Q.Machine, i: Q.Inputs, b: P.Machine, physics: Physics)
    requires a.state == Q.NotEnabled && !a.report.exited && a.config.Enabled() && Idle(b)
    ensures var self := PortIdentity(a.config.thisClock, a.config.thisPort);
            Start(Epoch(self, i.random, |a.log.sent|, |a.log.measured|), physics,
                  System(Q.RunToRest(a, i), b, [PdelayReq(i.random, self)], [], -1, -1, -1, []))
  {
    hide Q.RunToRest, RequesterAtRest;
    EpochBegins(a, i, physics);
  }

  lemma CreatedResponderIsIdle(m: P.Machine, config: P.Config)
    requires P.Created(m, config) && config.Enabled()
    ensures Idle(P.RunToRest(m)) && P.RunToRest(m).out == []
  {
    hide P.MakeResp, P.MakeFollowUp;
    var m1, m2 := P.Turn(m), P.Turn(P.Turn(m));
    assert m1.state == P.NotEnabled && m2.state == P.InitialWaiting;
    assert P.RunLoop(m) == P.RunLoop(m1) == P.RunLoop(m2) == P.Turn(m2);
  }

  // ---- Every step keeps it ----

  lemma IdOfOrdinal(e: Epoch, id: u16)
    ensures e.Id(e.Ordinal(id)) == id
  {
  }

  /** Whatever the requester sends joins its link in order. */
  lemma RequesterKeepsLinks(e: Epoch, physics: Physics, s: System, a: Q.Machine)
    requires LinksInv(e, physics, s) && ResponderInv(e, physics, s)
    requires s.a.log.sent <= a.log.sent && IdsConsecutive(e, a.log.sent) && 0 <= Count(e, s.a) && Count(e, a) <= TWO16
    ensures LinksInv(e, physics, AfterRequester(e, s, a)) && ResponderInv(e, physics, AfterRequester(e, s, a))
  {
    hide RepliesInOrder, AllTruthful, Epoch.Id, Epoch.Ordinal;
    var added := NewRequests(e, a.log.sent[|s.a.log.sent|..]);
    forall j | 0 <= j < |added|
      ensures added[j].source == e.self && e.Ordinal(added[j].sequenceId) == Count(e, s.a) + j
    {
      assert added[j].sequenceId == a.log.sent[|s.a.log.sent| + j].id;
      OrdinalOfId(e, Count(e, s.a) + j);
    }
    AppendedInOrder(e, s.requests, added, s.asked, Count(e, s.a), Count(e, a));
  }

  lemma AppendedInOrder(e: Epoch, q: seq<PdelayReq>, added: seq<PdelayReq>, above: int, n: int, m: int)
    requires RequestsInOrder(e, q, above, n) && above < n && m == n + |added|
    requires forall j :: 0 <= j < |added| ==> added[j].source == e.self && e.Ordinal(added[j].sequenceId) == n + j
    ensures RequestsInOrder(e, q + added, above, m)
  {
    hide Epoch.Ordinal;
  }

  lemma RequesterEventKeeps(e: Epoch, physics: Physics, s: System, event: Q.Event)
    requires Count(e, s.a) <= TWO16 ==>
               && RequesterAtRest(ViewOf(e, physics, s), Q.Handle(s.a, event))
               && LinksInv(e, physics, s) && ResponderInv(e, physics, s)
    ensures SystemInv(e, physics, RequesterHandles(e, s, event))
  {
    hide Q.Handle, LinksInv, ResponderInv, RequesterAtRest;
    R.HandleGrows(s.a, event);
    var a := Q.Handle(s.a, event);
    if Count(e, a) <= TWO16 {
      CountPositive(e, physics, s);
      ConsecutiveAtRest(ViewOf(e, physics, s), a);
      RequesterKeepsLinks(e, physics, s, a);
    }
  }

  lemma CountPositive(e: Epoch, physics: Physics, s: System)
    requires LinksInv(e, physics, s)
    ensures 0 <= Count(e, s.a)
  {
  }

  lemma ConsecutiveAtRest(v: View, a: Q.Machine)
    requires RequesterAtRest(v, a) && Count(v.epoch, a) <= TWO16
    ensures IdsConsecutive(v.epoch, a.log.sent)
  {
  }

  lemma RequesterStepKeeps(e: Epoch, physics: Physics, s: System, step: Step)
    requires SystemInv(e, physics, s) && (step.RequesterTick? || step.RequestStamped?)
    ensures SystemInv(e, physics, Next(e, physics, s, step))
  {
    hide Q.Handle, LinksInv, ResponderInv, RequesterAtRest;
    var v := ViewOf(e, physics, s);
    match step
    case RequesterTick(i) =>
      if Count(e, s.a) <= TWO16 { TickKeepsRequester(v, s.a, i); }
      RequesterEventKeeps(e, physics, s, Q.Tick(i));
    case RequestStamped(i, id) =>
      if Count(e, s.a) <= TWO16 { StampKeepsRequester(v, s.a, i, id); }
      RequesterEventKeeps(e, physics, s, Q.TxTimestamp(i, TsuTimestamp(physics(id).t1, id)));
  }

  lemma DeliveryKeepsLinks(e: Epoch, physics: Physics, s: System)
    requires LinksInv(e, physics, s) && ResponderInv(e, physics, s) && s.replies != []
    ensures LinksInv(e, physics, Delivered(e, s)) && ResponderInv(e, physics, Delivered(e, s))
  {
    hide Epoch.Id, Epoch.Ordinal, ToPtp, RequestsInOrder;
  }

  lemma ReplyKeepsRequester(e: Epoch, physics: Physics, s: System, i: Q.Inputs)
    requires LinksInv(e, physics, s) && ResponderInv(e, physics, s) && s.replies != []
    requires RequesterAtRest(ViewOf(e, physics, s), s.a)
    ensures RequesterAtRest(ViewOf(e, physics, Delivered(e, s)), Q.Handle(s.a, ReplyEvent(physics, s.replies[0], i)))
  {
    hide Q.Handle, RequesterAtRest, Epoch.Id, Epoch.Ordinal, ToPtp, RequestsInOrder;
    var v := ViewOf(e, physics, s);
    assert Truthful(e, physics, s.replies[0]) && LastSeen(s) < Key(e, s.replies[0]) <= LastSent(e, s);
    match s.replies[0]
    case Resp(resp) =>
      IdOfOrdinal(e, resp.sequenceId);
      RespKeepsRequester(v, s.a, i, resp, e.Ordinal(resp.sequenceId));
    case FollowUp(followUp) =>
      IdOfOrdinal(e, followUp.sequenceId);
      FollowUpKeepsRequester(v, s.a, i, followUp, e.Ordinal(followUp.sequenceId));
  }

  lemma ReplyStepKeeps(e: Epoch, physics: Physics, s: System, i: Q.Inputs)
    requires SystemInv(e, physics, s) && s.replies != []
    ensures SystemInv(e, physics, Next(e, physics, s, ReplyArrives(i)))
  {
    hide Q.Handle, RequesterAtRest, LinksInv, ResponderInv, Epoch.Ordinal;
    if Count(e, s.a) <= TWO16 {
      ReplyKeepsRequester(e, physics, s, i);
      DeliveryKeepsLinks(e, physics, s);
    }
    RequesterEventKeeps(e, physics, Delivered(e, s), ReplyEvent(physics, s.replies[0], i));
  }

  // ---- The responder's steps ----

  /** One more reply, later than all the others. */
  lemma SendingKeepsLinks(e: Epoch, physics: Physics, s: System, b: P.Machine, r: P.Sent)
    requires LinksInv(e, physics, s) && b.out == s.b.out + [r]
    requires LastSent(e, s) < Key(e, r) && Truthful(e, physics, r)
    ensures LinksInv(e, physics, AfterResponder(s, b)) && LastSent(e, AfterResponder(s, b)) == Key(e, r)
  {
    hide Epoch.Ordinal, Truthful, RequestsInOrder;
    assert b.out[|s.b.out|..] == [r];
    AppendedReply(e, s.replies, LastSeen(s), LastSent(e, s), r);
    AppendedReply(e, s.replied, -1, LastSent(e, s), r);
  }

  lemma AppendedReply(e: Epoch, q: seq<P.Sent>, above: int, upTo: int, r: P.Sent)
    requires RepliesInOrder(e, q, above, upTo) && above <= upTo < Key(e, r)
    ensures RepliesInOrder(e, q + [r], above, Key(e, r))
  {
    hide Key;
  }

  lemma SilenceKeepsLinks(e: Epoch, physics: Physics, s: System, b: P.Machine)
    requires LinksInv(e, physics, s) && b.out == s.b.out
    ensures AfterResponder(s, b) == s.(b := b)
    ensures LinksInv(e, physics, AfterResponder(s, b)) && LastSent(e, AfterResponder(s, b)) == LastSent(e, s)
  {
    hide RepliesInOrder, AllTruthful, RequestsInOrder, Key;
    assert b.out[|s.b.out|..] == [];
    assert s.replies + [] == s.replies && s.replied + [] == s.replied;
  }

  function Popped(e: Epoch, s: System): System
    requires s.requests != []
  {
    s.(requests := s.requests[1..], asked := e.Ordinal(s.requests[0].sequenceId))
  }

  lemma PoppedKeepsLinks(e: Epoch, physics: Physics, s: System)
    requires LinksInv(e, physics, s) && s.requests != []
    ensures LinksInv(e, physics, Popped(e, s)) && LastSent(e, Popped(e, s)) == LastSent(e, s)
    ensures s.asked < Popped(e, s).asked < Count(e, s.a)
    ensures s.requests[0] == PdelayReq(e.Id(Popped(e, s).asked), e.self)
  {
    hide RepliesInOrder, AllTruthful, Key;
    IdOfOrdinal(e, s.requests[0].sequenceId);
  }

  lemma RequestStepKeeps(e: Epoch, physics: Physics, s: System)
    requires SystemInv(e, physics, s) && s.requests != []
    ensures SystemInv(e, physics, Next(e, physics, s, RequestArrives))
  {
    hide P.Handle, RequesterAtRest, LinksInv, Epoch.Id, Epoch.Ordinal, ToPtp, LastSent;
    if Count(e, s.a) <= TWO16 {
      PoppedKeepsLinks(e, physics, s);
      var req := s.requests[0];
      var ingress := physics(req.sequenceId).t2;
      var p := Popped(e, s);
      var b := P.Handle(s.b, P.RecvReq(ingress, req));
      assert Next(e, physics, s, RequestArrives) == AfterResponder(p, b);
      if !s.b.config.Enabled() || s.b.state == P.NotEnabled {
        RunResets(s.b.(rcvdReq := true, req := P.Some(req), t2 := ingress));
        RecvRuns(s.b, ingress, req);
        SilenceKeepsLinks(e, physics, p, b);
      } else if Idle(s.b) {
        RequestWhenIdle(s.b, ingress, req);
        OrdinalOfId(e, p.asked);
        SendingKeepsLinks(e, physics, p, b, P.Resp(P.MakeResp(req, s.b.config, ingress)));
      } else {
        RequestWhenBusy(s.b, ingress, req);
        SilenceKeepsLinks(e, physics, p, b);
      }
    }
  }

  lemma RecvRuns(b: P.Machine, ingress: UScaledNs, req: PdelayReq)
    requires !b.crashed
    ensures P.Handle(b, P.RecvReq(ingress, req)) == P.RunToRest(b.(rcvdReq := true, req := P.Some(req), t2 := ingress))
  {
    hide P.RunToRest;
  }

  /** A reported departure is either that of the response just sent, or one that is long answered. */
  lemma SentOrdinal(e: Epoch, physics: Physics, s: System, id: u16)
    requires LinksInv(e, physics, s) && HasResponse(s.replied, id)
    ensures 2 * e.Ordinal(id) <= LastSent(e, s)
  {
    hide Epoch.Ordinal, RequestsInOrder, AllTruthful;
  }

  lemma StampStepKeeps(e: Epoch, physics: Physics, s: System, id: u16)
    requires SystemInv(e, physics, s) && Enabled(s, ResponseStamped(id))
    ensures SystemInv(e, physics, Next(e, physics, s, ResponseStamped(id)))
  {
    hide P.RunToRest, RequesterAtRest, LinksInv, Epoch.Id, Epoch.Ordinal, ToPtp, LastSent, HasResponse;
    if Count(e, s.a) <= TWO16 {
      SentOrdinal(e, physics, s, id);
      AskedOrdinal(e, physics, s);
      var stamp := TsuTimestamp(physics(id).t3, id);
      var b := P.Handle(s.b, P.TxTimestamp(stamp));
      if P.Awaits(s.b, stamp) && !s.b.config.Enabled() {
        RunResets(s.b.(t3 := stamp.ts, rcvdTxTimestamp := true));
        SilenceKeepsLinks(e, physics, s, b);
      } else if Busy(s.b) && !s.b.rcvdReq && P.Awaits(s.b, stamp) {
        StampWhenBusy(s.b, stamp);
        SendingKeepsLinks(e, physics, s, b, P.FollowUp(P.MakeFollowUp(s.b.req.value, s.b.config, stamp.ts)));
      } else {
        assert b == s.b;
        SilenceKeepsLinks(e, physics, s, b);
      }
    }
  }

  lemma AskedOrdinal(e: Epoch, physics: Physics, s: System)
    requires LinksInv(e, physics, s) && Count(e, s.a) <= TWO16
    ensures s.asked >= 0 ==> e.Ordinal(e.Id(s.asked)) == s.asked
  {
    if s.asked >= 0 {
      OrdinalOfId(e, s.asked);
    }
  }

  lemma ResponderTickKeeps(e: Epoch, physics: Physics, s: System)
    requires SystemInv(e, physics, s)
    ensures SystemInv(e, physics, Next(e, physics, s, ResponderTick))
  {
    hide P.RunToRest, RequesterAtRest, LinksInv;
    if Count(e, s.a) <= TWO16 {
      if s.b.config.Enabled() && s.b.state != P.NotEnabled {
        TickWhenSettled(s.b);
      } else {
        RunResets(s.b);
      }
      SilenceKeepsLinks(e, physics, s, P.Handle(s.b, P.Tick));
    }
  }

  lemma ResponderPortKeeps(e: Epoch, physics: Physics, s: System, step: Step)
    requires SystemInv(e, physics, s) && step.ResponderPort?
    ensures SystemInv(e, physics, Next(e, physics, s, step))
  {
    hide RequesterAtRest, LinksInv;
    if Count(e, s.a) <= TWO16 {
      SilenceKeepsLinks(e, physics, s, P.Handle(s.b, P.SetPort(step.begin, step.portOper, step.portEnabled1)));
    }
  }

  lemma LostRequestKeeps(e: Epoch, q: seq<PdelayReq>, above: int, below: int, k: nat)
    requires RequestsInOrder(e, q, above, below) && k < |q|
    ensures RequestsInOrder(e, WithoutIndex(q, k), above, below)
  {
    hide Epoch.Ordinal;
  }

  lemma LostReplyKeeps(e: Epoch, physics: Physics, q: seq<P.Sent>, above: int, upTo: int, k: nat)
    requires RepliesInOrder(e, q, above, upTo) && AllTruthful(e, physics, q) && k < |q|
    ensures RepliesInOrder(e, WithoutIndex(q, k), above, upTo) && AllTruthful(e, physics, WithoutIndex(q, k))
  {
    hide Truthful, Key;
  }

  lemma LossKeeps(e: Epoch, physics: Physics, s: System, step: Step)
    requires SystemInv(e, physics, s) && Enabled(s, step) && (step.RequestLost? || step.ReplyLost?)
    ensures SystemInv(e, physics, Next(e, physics, s, step))
  {
    hide RequesterAtRest, RequestsInOrder, RepliesInOrder, AllTruthful, Key, Epoch.Id, WithoutIndex;
    if Count(e, s.a) <= TWO16 {
      match step
      case RequestLost(k) => LostRequestKeeps(e, s.requests, s.asked, Count(e, s.a), k);
      case ReplyLost(k) => LostReplyKeeps(e, physics, s.replies, LastSeen(s), LastSent(e, s), k);
    }
  }

  lemma StepKeeps(e: Epoch, physics: Physics, s: System, step: Step)
    requires SystemInv(e, physics, s) && Enabled(s, step)
    ensures SystemInv(e, physics, Next(e, physics, s, step))
  {
    hide SystemInv;
    match step
    case RequesterTick(_) => RequesterStepKeeps(e, physics, s, step);
    case RequestStamped(_, _) => RequesterStepKeeps(e, physics, s, step);
    case RequestArrives => RequestStepKeeps(e, physics, s);
    case RequestLost(_) => LossKeeps(e, physics, s, step);
    case ResponderTick => ResponderTickKeeps(e, physics, s);
    case ResponderPort(_, _, _) => ResponderPortKeeps(e, physics, s, step);
    case ResponseStamped(id) => StampStepKeeps(e, physics, s, id);
    case ReplyArrives(i) => ReplyStepKeeps(e, physics, s, i);
    case ReplyLost(_) => LossKeeps(e, physics, s, step);
  }

  // ---- Whole runs ----

  /** Each step of the run can happen when its turn comes. */
  predicate Possible(e: Epoch, physics: Physics, s: System, steps: seq<Step>)
    decreases |steps|, 0
  {
    steps != [] ==>
      var before := steps[..|steps| - 1];
      Possible(e, physics, s, before) && Enabled(After(e, physics, s, before), steps[|steps| - 1])
  }

  function After(e: Epoch, physics: Physics, s: System, steps: seq<Step>): System
    requires Possible(e, physics, s, steps)
    decreases |steps|, 1
  {
    if steps == [] then s
    else Next(e, physics, After(e, physics, s, steps[..|steps| - 1]), steps[|steps| - 1])
  }

  lemma {:induction false} RunKeeps(e: Epoch, physics: Physics, s: System, steps: seq<Step>)
    requires SystemInv(e, physics, s) && Possible(e, physics, s, steps)
    ensures SystemInv(e, physics, After(e, physics, s, steps))
  {
    hide SystemInv, Enabled, Next;
    if steps != [] {
      RunKeeps(e, physics, s, steps[..|steps| - 1]);
      StepKeeps(e, physics, After(e, physics, s, steps[..|steps| - 1]), steps[|steps| - 1]);
    }
  }

  /**
    Whatever the network loses and however the events interleave: every recomputation of the link
    delay uses four timestamps of one and the same exchange, the one with its id; a fatal exit is
    taken only on such timestamps; and the responder never answers a request it does not hold.
   */
  lemma PeerDelaySafety(e: Epoch, physics: Physics, s: System, steps: seq<Step>)
    requires Start(e, physics, s) && Possible(e, physics, s, steps)
    ensures var r := After(e, physics, s, steps);
            Count(e, r.a) <= TWO16 ==>
              && AllMeasuredRight(e, physics, r.a.log.measured)
              && (r.a.report.exited ==>
                    r.a.stamps == Expected(physics, r.a.request.txSequenceId) && R.ExitExplained(r.a))
              && !r.b.crashed
  {
    hide Next, Enabled, RepliesInOrder, RequestsInOrder, AllTruthful, R.ExitExplained, Expected;
    StartInv(e, physics, s);
    RunKeeps(e, physics, s, steps);
  }

  // ---- How the responder can get stuck ----

  /** A second request has taken the place of the one whose response is out. */
  predicate Stuck(e: Epoch, physics: Physics, s: System) {
    && SystemInv(e, physics, s) && Count(e, s.a) <= TWO16
    && Busy(s.b) && s.b.config.Enabled() && s.b.rcvdReq
  }

  lemma SecondRequestSticks(e: Epoch, physics: Physics, s: System)
    requires SystemInv(e, physics, s) && Count(e, s.a) <= TWO16
    requires Busy(s.b) && s.b.config.Enabled() && s.requests != []
    ensures Stuck(e, physics, Next(e, physics, s, RequestArrives))
  {
    hide P.RunToRest, RequesterAtRest, LinksInv, ResponderInv, Epoch.Ordinal;
    StepKeeps(e, physics, s, RequestArrives);
    RequestWhenBusy(s.b, physics(s.requests[0].sequenceId).t2, s.requests[0]);
  }

  /** The report that the response with this id has left makes the responder send something. */
  predicate SpeaksAt(physics: Physics, s: System, id: u16) {
    HasResponse(s.replied, id) && P.Handle(s.b, P.TxTimestamp(TsuTimestamp(physics(id).t3, id))).out != s.b.out
  }

  /**
    A responder waiting for its response's departure goes on to send the follow-up, at some report
    there can be, exactly if no second request has arrived.
   */
  lemma SpeaksExactly(e: Epoch, physics: Physics, s: System)
    requires SystemInv(e, physics, s) && Count(e, s.a) <= TWO16 && Busy(s.b) && s.b.config.Enabled()
    ensures (exists id: u16 :: SpeaksAt(physics, s, id)) <==> !s.b.rcvdReq
  {
    hide P.RunToRest, RequesterAtRest, LinksInv, Epoch.Id, Epoch.Ordinal, ToPtp, HasResponse;
    AskedOrdinal(e, physics, s);
    if s.b.rcvdReq {
      forall id: u16 ensures !SpeaksAt(physics, s, id) {
        if HasResponse(s.replied, id) {
          SentOrdinal(e, physics, s, id);
        }
      }
    } else {
      var id := e.Id(s.asked);
      LastResponse(e, physics, s);
      StampWhenBusy(s.b, TsuTimestamp(physics(id).t3, id));
      assert SpeaksAt(physics, s, id);
    }
  }

  lemma LastResponse(e: Epoch, physics: Physics, s: System)
    requires LinksInv(e, physics, s) && s.asked >= 0 && LastSent(e, s) == 2 * s.asked
    ensures HasResponse(s.replied, e.Id(s.asked))
  {
    hide Epoch.Id, Epoch.Ordinal, RequestsInOrder, AllTruthful;
    var last := s.replied[|s.replied| - 1];
    assert last.Resp?;
    IdOfOrdinal(e, last.resp.sequenceId);
  }

  lemma StuckStep(e: Epoch, physics: Physics, s: System, step: Step)
    requires Stuck(e, physics, s) && Enabled(s, step) && !step.ResponderPort?
    requires Count(e, Next(e, physics, s, step).a) <= TWO16
    ensures Stuck(e, physics, Next(e, physics, s, step))
    ensures Next(e, physics, s, step).b.out == s.b.out
  {
    hide P.RunToRest, Q.Handle, RequesterAtRest, LinksInv, Epoch.Id, Epoch.Ordinal, ToPtp, LastSent, HasResponse;
    StepKeeps(e, physics, s, step);
    AskedOrdinal(e, physics, s);
    match step
    case RequestArrives =>
      RequestWhenBusy(s.b, physics(s.requests[0].sequenceId).t2, s.requests[0]);
    case ResponderTick => TickWhenSettled(s.b);
    case ResponseStamped(id) => SentOrdinal(e, physics, s, id);
    case _ =>
  }

  lemma NextCounts(e: Epoch, physics: Physics, s: System, step: Step)
    requires Enabled(s, step)
    ensures Count(e, s.a) <= Count(e, Next(e, physics, s, step).a)
  {
    hide Q.Handle, P.Handle;
    match step
    case RequesterTick(i) => R.HandleGrows(s.a, Q.Tick(i));
    case RequestStamped(i, id) => R.HandleGrows(s.a, Q.TxTimestamp(i, TsuTimestamp(physics(id).t1, id)));
    case ReplyArrives(i) => R.HandleGrows(s.a, ReplyEvent(physics, s.replies[0], i));
    case _ =>
  }

  /** Then, until its port changes, nothing either node or the network does makes it send again. */
  lemma {:induction false} StuckUntilPortChanges(e: Epoch, physics: Physics, s: System, steps: seq<Step>)
    requires Stuck(e, physics, s) && Possible(e, physics, s, steps)
    requires forall k :: 0 <= k < |steps| ==> !steps[k].ResponderPort?
    requires Count(e, After(e, physics, s, steps).a) <= TWO16
    ensures Stuck(e, physics, After(e, physics, s, steps))
    ensures After(e, physics, s, steps).b.out == s.b.out
  {
    hide Stuck, Enabled, Next, Count;
    if steps != [] {
      var before := steps[..|steps| - 1];
      NextCounts(e, physics, After(e, physics, s, before), steps[|steps| - 1]);
      StuckUntilPortChanges(e, physics, s, before);
      StuckStep(e, physics, After(e, physics, s, before), steps[|steps| - 1]);
    }
  }

  /** Taking the port down for one run and up again is what frees it. */
  lemma PortResetFrees(b: P.Machine, portEnabled1: bool)
    requires !b.crashed
    ensures var down := P.Handle(P.Handle(b, P.SetPort(false, false, portEnabled1)), P.Tick);
            var up := P.Handle(P.Handle(down, P.SetPort(false, true, true)), P.Tick);
            Idle(up) && up.config.Enabled() && up.out == b.out
  {
    hide P.RunToRest;
    RunResets(P.Handle(b, P.SetPort(false, false, portEnabled1)));
    var down := P.Handle(P.Handle(b, P.SetPort(false, false, portEnabled1)), P.Tick);
    var raised := P.Handle(down, P.SetPort(false, true, true));
    if raised.state == P.NotEnabled {
      RunResets(raised);
    } else {
      TickWhenSettled(raised);
    }
  }
}
