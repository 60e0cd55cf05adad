/** How many faults and losses in a row the peer-delay requester tolerates, counted in rounds of events. */
module PdelayTolerance {
  import opened Words
  import opened ScaledTime
  import opened PtpMessages
  import opened PdelayRequester
  import opened PdelayExchanges
  import R = PdelayRequesterRuns
  import Steps = PdelaySteps

  // ---- Answered exchanges ----

  /** Ready for an exchange that MeasuredExactly says will be measured. */
  predicate Clear(m: Machine) {
    RequestOut(m) && !m.inbox.rcvdResp && !m.inbox.rcvdFollowUp && !m.config.asymmetryMeasurementMode
  }

  /** An answer from another clock settles it: capable exactly below the threshold with a valid ratio. */
  lemma OtherAnswerSettles(m: Machine, x: Exchange)
    requires Clear(m) && Answers(m, x) && x.resp.source.clock != m.config.thisClock && !Completed(m, x).report.exited
    ensures var r := Completed(m, x).report;
            && r.isMeasuringDelay && r.detectedFaults == 0
            && (r.asCapableAcrossDomains <==>
                  Value(r.meanLinkDelay) <= Value(m.config.meanLinkDelayThresh) && m.config.neighborRateRatioValid)
  {
    hide Completed, IntervalAction, FromPtp, IntervalElapsed;
    CompletedIs(m, x);
    Steps.EvaluationIs(Answered(m, x), x.followed.estimate);
    Steps.EvaluationKeeps(Answered(m, x), x.followed.estimate);
  }

  lemma RoundIs(m: Machine, x: Exchange)
    requires Clear(m) && Answers(m, x) && !Round(m, x).report.exited
    ensures var c := Completed(m, x);
            && !c.report.exited && Clear(Round(m, x)) && Round(m, x).report == c.report && Round(m, x).config == m.config
  {
    hide Completed, Handle, IntervalAction, FromPtp, Compare, Subtract, StampsOf;
    hide R.ExitExplained, R.MeasuresOnce;
    CompletedIs(m, x);
    R.IntervalActionEffects(Answered(m, x), x.followed.estimate);
    var c := Completed(m, x);
    if c.report.exited {
      Steps.ExitedStays(c, Tick(x.due));
    } else {
      assert c.request == m.request.(lostResponses := 0) && c.config == m.config;
      DueAfterInterval(c, x.due);
    }
  }

  lemma DueAfterInterval(m: Machine, i: Inputs)
    requires m.config.Enabled() && !m.report.exited && m.state == m.lastState == WaitingForInterval
    requires !m.inbox.rcvdTxTimestamp && !OnTime(m, i.now)
    ensures Handle(m, Tick(i)) == Steps.Asked(m, i.now)
  {
    hide Handle, IntervalElapsed, Steps.Late;
    Steps.LateMeansElapsed(m, i.now);
    Steps.HandleIsResult(m, Tick(i));
  }

  function RoundsDone(m: Machine, xs: seq<Exchange>): Machine {
    if xs == [] then m else Round(RoundsDone(m, xs[..|xs| - 1]), xs[|xs| - 1])
  }

  /** Prompt exchanges, all answered by a node with this node's own clock identity. */
  predicate AllOwnAnswers(m: Machine, xs: seq<Exchange>) {
    xs != [] ==>
      var before, x := RoundsDone(m, xs[..|xs| - 1]), xs[|xs| - 1];
      && AllOwnAnswers(m, xs[..|xs| - 1])
      && Answers(before, x) && x.resp.source.clock == m.config.thisClock && !Round(before, x).report.exited
  }

  /**
    Answers from the node's own clock are tolerated allowedFaults + 1 rounds in a row without touching
    asCapable; the next one takes it away, together with isMeasuringDelay.
   */
  lemma {:induction false} OwnAnswersTolerated(m: Machine, xs: seq<Exchange>)
    requires Clear(m) && m.report.detectedFaults == 0 && AllOwnAnswers(m, xs) && 0 < |xs| <= m.config.allowedFaults + 2
    ensures var r := RoundsDone(m, xs);
            && Clear(r) && r.config == m.config
            && if |xs| <= m.config.allowedFaults + 1
               then r.report.detectedFaults == |xs| && r.report.isMeasuringDelay
                    && r.report.asCapableAcrossDomains == m.report.asCapableAcrossDomains
               else r.report.detectedFaults == 0 && !r.report.isMeasuringDelay && !r.report.asCapableAcrossDomains
  {
    hide Clear, Answers, Round, Completed;
    var before, x := RoundsDone(m, xs[..|xs| - 1]), xs[|xs| - 1];
    if |xs| > 1 {
      OwnAnswersTolerated(m, xs[..|xs| - 1]);
    }
    RoundIs(before, x);
    OwnAnswerCounts(before, x);
  }

  lemma OwnAnswerCounts(m: Machine, x: Exchange)
    requires Clear(m) && Answers(m, x) && x.resp.source.clock == m.config.thisClock && !Completed(m, x).report.exited
    ensures var r := Completed(m, x).report;
            if m.report.detectedFaults <= m.config.allowedFaults
            then r.detectedFaults == m.report.detectedFaults + 1 && r.isMeasuringDelay
                 && r.asCapableAcrossDomains == m.report.asCapableAcrossDomains
            else r.detectedFaults == 0 && !r.isMeasuringDelay && !r.asCapableAcrossDomains
  {
    hide Completed, IntervalAction, FromPtp, IntervalElapsed;
    CompletedIs(m, x);
    Steps.EvaluationIs(Answered(m, x), x.followed.estimate);
    Steps.EvaluationKeeps(Answered(m, x), x.followed.estimate);
  }

  // ---- Incomplete ones ----

  /** Nothing comes before the interval is over, or the response does and its follow-up does not. */
  datatype Loss = NoResponse(x: Exchange) | NoFollowUp(x: Exchange)

  function UpToLoss(m: Machine, loss: Loss): Machine {
    var stamped := Stamped(m, loss.x);
    match loss
    case NoResponse(_) => stamped
    case NoFollowUp(x) => Handle(stamped, RecvResp(x.answered, x.ingress, x.resp))
  }

  function LostRound(m: Machine, loss: Loss): Machine { Handle(UpToLoss(m, loss), Tick(loss.x.due)) }

  predicate Lost(m: Machine, loss: Loss) {
    var x := loss.x;
    && OnTime(m, x.stamped.now) && !OnTime(m, x.due.now)
    && (loss.NoFollowUp? ==>
          && OnTime(m, x.answered.now) && NoEarlyFollowUp(m) && x.resp.sequenceId == m.request.txSequenceId
          && x.resp.requesting == PortIdentity(m.config.thisClock, m.config.thisPort))
  }

  lemma LostRoundIs(m: Machine, loss: Loss)
    requires RequestOut(m) && !m.inbox.rcvdResp && Lost(m, loss)
    ensures LostRound(m, loss) == Steps.Asked(Steps.GivenUp(UpToLoss(m, loss)), loss.x.due.now)
    ensures var w := UpToLoss(m, loss);
            w.request == m.request && w.report == m.report && w.log.measured == m.log.measured && w.config == m.config
            && !w.inbox.rcvdTxTimestamp
  {
    hide Handle, IntervalElapsed, FromPtp, Steps.Late;
    StampAccepted(m, loss.x.stamped, loss.x.t1);
    if loss.NoFollowUp? {
      RespAccepted(Stamped(m, loss.x), loss.x.answered, loss.x.ingress, loss.x.resp);
    }
    var w := UpToLoss(m, loss);
    Steps.LateMeansElapsed(w, loss.x.due.now);
    Steps.HandleIsResult(w, Tick(loss.x.due));
  }

  function LostRounds(m: Machine, losses: seq<Loss>): Machine {
    if losses == [] then m else LostRound(LostRounds(m, losses[..|losses| - 1]), losses[|losses| - 1])
  }

  predicate AllLost(m: Machine, losses: seq<Loss>) {
    losses != [] ==>
      && AllLost(m, losses[..|losses| - 1])
      && Lost(LostRounds(m, losses[..|losses| - 1]), losses[|losses| - 1])
  }

  /**
    Rounds whose response or follow-up is lost, in any mixture, are tolerated allowedLostResponses + 1
    in a row, and not once more; each ends with the next request.
   */
  lemma {:induction false} LossesTolerated(m: Machine, losses: seq<Loss>)
    requires RequestOut(m) && !m.inbox.rcvdResp && m.request.lostResponses == 0 && AllLost(m, losses)
    ensures var r, n, allowed := LostRounds(m, losses), |losses|, m.config.allowedLostResponses;
            && RequestOut(r) && !r.inbox.rcvdResp && r.config == m.config && r.log.measured == m.log.measured
            && r.request.lostResponses == (if n <= allowed + 1 then n else allowed + 1)
            && r.report == (if n <= allowed + 1 then m.report
                            else m.report.(isMeasuringDelay := false, asCapableAcrossDomains := false))
  {
    hide RequestOut, LostRound, Lost;
    if losses != [] {
      LossesTolerated(m, losses[..|losses| - 1]);
      LossCounts(LostRounds(m, losses[..|losses| - 1]), losses[|losses| - 1]);
    }
  }

  lemma LossCounts(m: Machine, loss: Loss)
    requires RequestOut(m) && !m.inbox.rcvdResp && Lost(m, loss)
    ensures var r, lost := LostRound(m, loss), m.request.lostResponses;
            && RequestOut(r) && !r.inbox.rcvdResp && r.config == m.config && r.log.measured == m.log.measured
            && if lost <= m.config.allowedLostResponses then r.request.lostResponses == lost + 1 && r.report == m.report
               else r.request.lostResponses == lost
                    && r.report == m.report.(isMeasuringDelay := false, asCapableAcrossDomains := false)
  {
    hide Handle, IntervalElapsed, UpToLoss, LostRound;
    LostRoundIs(m, loss);
  }
}
