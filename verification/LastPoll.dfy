/** What a request that is inside a poll when the token fires can still do: exactly, for every
    request and whichever calls may complete in the poll that issues them. */
module LastPoll {
  import opened Types
  import opened Errors
  import opened Tasks
  import opened Protocol
  import opened Viability
  import Cancellation
  import Progress

  /** The poll in progress can still deliver the pending answer. */
  predicate Live(w: World, t: Task) {
    t.running && Prompt(w.eager, t)
  }

  /** ... and lead to a signature: suitable answers exist and the calls yet to be issued may
      complete in the poll that issues them. */
  ghost predicate CanSign(w: World, t: Task) {
    Live(w, t) && Unsigned(t) && Viable(w.config, t) && ToSign(t) <= w.eager
  }

  ghost predicate CanSend(w: World, t: Task) {
    t.request.submit && CanSign(w, t)
  }

  /** ... or to a response. */
  ghost predicate CanSucceed(w: World, t: Task) {
    Live(w, t) && Viable(w.config, t) && ToSucceed(t) <= w.eager
  }

  /** ... or to any end but "cancelled": a failure needs one answer, and one more where the
      pending await cannot fail. */
  ghost predicate CanAnswer(w: World, t: Task) {
    && Live(w, t)
    && (t.stage.Arrived? && Sane(w.config, t.request) ==> BaseFeeCall in w.eager)
    && (t.stage.LockWait? ==> NonceCall in w.eager)
    && (t.stage.Sending? && t.flight.Accepted? ==> ReceiptCall in w.eager)
  }

  predicate Answered(t: Task) {
    t.stage.Done? && t.stage.outcome.Returned? && t.stage.outcome.result != Err(Cancelled)
  }

  ghost predicate MaySend(w: World, s: State, i: nat) {
    exists steps :: && ValidRun(w, s, steps) && i < |s.tasks| && i < |End(w, s, steps).tasks|
                    && End(w, s, steps).tasks[i].sends > s.tasks[i].sends
  }

  ghost predicate MaySucceed(w: World, s: State, i: nat) {
    exists steps :: && ValidRun(w, s, steps) && i < |End(w, s, steps).tasks|
                    && Succeeded(End(w, s, steps).tasks[i])
  }

  ghost predicate MayAnswer(w: World, s: State, i: nat) {
    exists steps :: && ValidRun(w, s, steps) && i < |End(w, s, steps).tasks|
                    && Answered(End(w, s, steps).tasks[i])
  }

  // --- What cannot happen any more -------------------------------------------------

  /** No event gives a request what it could not get before. */
  lemma NoNewHope(w: World, t: Task, ev: Event)
    requires TaskOk(w.config, t) && Ready(w.eager, t, ev)
    ensures var t' := Deliver(w.config, t, ev);
            && (CanSign(w, t') ==> CanSign(w, t))
            && (CanSucceed(w, t') ==> CanSucceed(w, t))
  {
    hide TaskOk, Deliver, Viable, ToSign, ToSucceed;
    var t' := Deliver(w.config, t, ev);
    DeliverEffect(w.config, t, ev);
    DeliverIssues(w.config, t, ev);
    DeliverUnsigned(w.config, t, ev);
    if Viable(w.config, t') {
      BackViable(w.config, t, ev);
      ViableStages(w.config, t');
    }
  }

  lemma DeliverUnsigned(c: Config, t: Task, ev: Event)
    requires Expects(t, ev)
    ensures Unsigned(Deliver(c, t, ev)) ==> Unsigned(t)
  {
    hide TakeDeposit, TakeSimulation, TakeHash, TakeEstimate, NextOp, OuterTx, ResponseTo;
  }

  lemma ViableStages(c: Config, t: Task)
    requires Viable(c, t)
    ensures Unsigned(t) || t.stage.Sending? || t.stage.Receipt?
  {
    hide OpsViable, LoopViable, Affordable;
  }

  /** A broadcast or a response comes only from where it was possible. */
  lemma HopeFulfilled(w: World, t: Task, ev: Event)
    requires Ready(w.eager, t, ev)
    ensures var t' := Deliver(w.config, t, ev);
            && t'.request == t.request
            && (t'.sends != t.sends ==> CanSend(w, t))
            && (Succeeded(t') ==> CanSucceed(w, t))
  {
    hide Deliver;
    DeliverEffect(w.config, t, ev);
    if ev.Signed? && t.request.submit {
      SubmitSends(w.config, t);
    }
  }

  lemma SubmitSends(c: Config, t: Task)
    requires t.stage.Signing? && t.request.submit
    ensures !Succeeded(Deliver(c, t, Signed))
  {
  }

  lemma NoSendStep(w: World, s: State, step: Step, i: nat)
    requires Inv(w, s) && s.cancelled && Enabled(w, s, step) && i < |s.tasks| && !CanSend(w, s.tasks[i])
    ensures var s' := Apply(w, s, step);
            && s'.cancelled && i < |s'.tasks|
            && !CanSend(w, s'.tasks[i]) && s'.tasks[i].sends == s.tasks[i].sends
  {
    hide TaskOk, Deliver, LockOk, LogOk, CancelOk, DropOk, NonceOk, OpsViable, LoopViable, Affordable;
    if step.Run? && step.i == i {
      NoNewHope(w, s.tasks[i], step.event);
      HopeFulfilled(w, s.tasks[i], step.event);
    }
  }

  lemma {:induction false} NoSendRun(w: World, s: State, steps: seq<Step>, i: nat)
    requires Inv(w, s) && s.cancelled && ValidRun(w, s, steps) && i < |s.tasks| && !CanSend(w, s.tasks[i])
    ensures i < |End(w, s, steps).tasks| && End(w, s, steps).tasks[i].sends == s.tasks[i].sends
    decreases |steps|
  {
    hide Inv, Apply, Enabled, CanSend;
    if steps != [] {
      NoSendStep(w, s, steps[0], i);
      StepKeepsInv(w, s, steps[0]);
      NoSendRun(w, Apply(w, s, steps[0]), steps[1..], i);
    }
  }

  /** The request neither has succeeded nor can. */
  ghost predicate Lost(w: World, t: Task) {
    !CanSucceed(w, t) && !Succeeded(t)
  }

  lemma LostStep(w: World, s: State, step: Step, i: nat)
    requires Inv(w, s) && s.cancelled && Enabled(w, s, step) && i < |s.tasks| && Lost(w, s.tasks[i])
    ensures var s' := Apply(w, s, step);
            s'.cancelled && i < |s'.tasks| && Lost(w, s'.tasks[i])
  {
    hide TaskOk, Deliver, LockOk, LogOk, CancelOk, DropOk, NonceOk, OpsViable, LoopViable, Affordable;
    if step.Run? && step.i == i {
      NoNewHope(w, s.tasks[i], step.event);
      HopeFulfilled(w, s.tasks[i], step.event);
    }
  }

  lemma {:induction false} LostRun(w: World, s: State, steps: seq<Step>, i: nat)
    requires Inv(w, s) && s.cancelled && ValidRun(w, s, steps) && i < |s.tasks| && Lost(w, s.tasks[i])
    ensures i < |End(w, s, steps).tasks| && Lost(w, End(w, s, steps).tasks[i])
    decreases |steps|
  {
    hide Inv, Apply, Enabled, Lost;
    if steps != [] {
      LostStep(w, s, steps[0], i);
      StepKeepsInv(w, s, steps[0]);
      LostRun(w, Apply(w, s, steps[0]), steps[1..], i);
    }
  }

  /** The request neither has an answer of its own nor can get one. */
  ghost predicate Mute(w: World, t: Task) {
    !CanAnswer(w, t) && !Answered(t)
  }

  lemma MuteEvent(w: World, t: Task, ev: Event)
    requires Ready(w.eager, t, ev) && Mute(w, t)
    ensures Mute(w, Deliver(w.config, t, ev))
  {
    hide TakeDeposit, TakeSimulation, TakeHash, TakeEstimate, NextOp, OuterTx, ResponseTo;
  }

  lemma MuteStep(w: World, s: State, step: Step, i: nat)
    requires s.cancelled && Enabled(w, s, step) && i < |s.tasks| && Mute(w, s.tasks[i])
    ensures var s' := Apply(w, s, step);
            s'.cancelled && i < |s'.tasks| && Mute(w, s'.tasks[i])
  {
    hide Deliver;
    if step.Run? && step.i == i {
      MuteEvent(w, s.tasks[i], step.event);
    }
  }

  lemma {:induction false} MuteRun(w: World, s: State, steps: seq<Step>, i: nat)
    requires s.cancelled && ValidRun(w, s, steps) && i < |s.tasks| && Mute(w, s.tasks[i])
    ensures i < |End(w, s, steps).tasks| && Mute(w, End(w, s, steps).tasks[i])
    decreases |steps|
  {
    hide Apply, Enabled, Mute;
    if steps != [] {
      MuteStep(w, s, steps[0], i);
      MuteRun(w, Apply(w, s, steps[0]), steps[1..], i);
    }
  }

  // --- What can still happen -------------------------------------------------------

  /** The cancelled holder is dropped, after leaving its poll if it is in one. */
  lemma FreeLock(w: World, s: State, i: nat) returns (steps: seq<Step>)
    requires Inv(w, s) && s.cancelled && i < |s.tasks| && s.tasks[i].stage.LockWait?
    ensures ValidRun(w, s, steps)
    ensures var s' := End(w, s, steps);
            s'.lock.None? && i < |s'.tasks| && s'.tasks[i] == s.tasks[i]
  {
    hide TasksOk, LogOk, NonceOk, CancelOk, DropOk, ValidRun, End;
    AllShapes(w, s);
    assert Shape(s.tasks[i]);
    if s.lock.None? {
      steps := NoSteps(w, s);
    } else {
      var j := s.lock.value;
      assert Shape(s.tasks[j]);
      if s.tasks[j].running {
        var s1 := Apply(w, s, Suspend(j));
        Single(w, s1, Poll(j));
        Prepend(w, s, Suspend(j), [Poll(j)]);
        steps := [Suspend(j)] + [Poll(j)];
      } else {
        Single(w, s, Poll(j));
        steps := [Poll(j)];
      }
    }
  }

  lemma NoSteps(w: World, s: State) returns (steps: seq<Step>)
    ensures steps == [] && ValidRun(w, s, steps) && End(w, s, steps) == s
  {
    steps := [];
  }

  lemma {:induction false} StillCancelled(w: World, s: State, steps: seq<Step>)
    requires s.cancelled && ValidRun(w, s, steps)
    ensures End(w, s, steps).cancelled
    decreases |steps|
  {
    hide Deliver;
    if steps != [] {
      StillCancelled(w, Apply(w, s, steps[0]), steps[1..]);
    }
  }

  /** A queueing request is let in once the lock is freed. */
  lemma EnterLock(w: World, s: State, i: nat) returns (steps: seq<Step>)
    requires i < |s.tasks| && Ready(w.eager, s.tasks[i], LockGranted)
    requires Inv(w, s) && s.cancelled
    ensures ValidRun(w, s, steps)
    ensures i < |End(w, s, steps).tasks| && End(w, s, steps).tasks[i] == Deliver(w.config, s.tasks[i], LockGranted)
    ensures Inv(w, End(w, s, steps)) && End(w, s, steps).cancelled
  {
    hide Inv, ValidRun, End, Deliver;
    var first := FreeLock(w, s, i);
    var s1 := End(w, s, first);
    Single(w, s1, Run(i, LockGranted));
    Concat(w, s, first, [Run(i, LockGranted)]);
    steps := first + [Run(i, LockGranted)];
    RunKeepsInv(w, s, steps);
    StillCancelled(w, s, steps);
  }

  /** One phase of work on request `i`: let the node do its part, let the request into the lock,
      or deliver `ev`. */
  lemma Phase(w: World, s: State, i: nat, ev: Event) returns (steps: seq<Step>, t: Task)
    requires Inv(w, s) && s.cancelled && i < |s.tasks| && Ready(w.eager, s.tasks[i], ev)
    requires s.tasks[i].stage.LockWait? <==> ev.LockGranted?
    ensures ValidRun(w, s, steps) && t == Deliver(w.config, s.tasks[i], ev)
    ensures Progress.Rank(t) < Progress.Rank(s.tasks[i])
    ensures var s' := End(w, s, steps);
            Inv(w, s') && s'.cancelled && i < |s'.tasks| && s'.tasks[i] == t
  {
    hide Inv, ValidRun, End, Deliver, Progress.Rank;
    t := Deliver(w.config, s.tasks[i], ev);
    Progress.DeliverDescends(w.config, s.tasks[i], ev);
    if ev.LockGranted? {
      steps := EnterLock(w, s, i);
    } else {
      Single(w, s, Run(i, ev));
      steps := [Run(i, ev)];
      RunKeepsInv(w, s, steps);
    }
  }

  /** The node does its part: it answers the nonce query, or accepts or refuses the send. */
  lemma NodePhase(w: World, s: State, i: nat, accept: bool) returns (steps: seq<Step>, t: Task)
    requires Inv(w, s) && s.cancelled && i < |s.tasks|
    requires s.tasks[i].flight.InFlight? || (s.tasks[i].stage.NonceRead? && s.tasks[i].stage.answer.None?)
    ensures ValidRun(w, s, steps) && Progress.Rank(t) < Progress.Rank(s.tasks[i])
    ensures if s.tasks[i].flight.InFlight? then
              t == s.tasks[i].(flight := if accept then Accepted(s.tasks[i].flight.tx)
                                         else Refused(s.tasks[i].flight.tx))
            else t == s.tasks[i].(stage := NonceRead(s.tasks[i].stage.plan, Some(s.pending)))
    ensures var s' := End(w, s, steps);
            Inv(w, s') && s'.cancelled && i < |s'.tasks| && s'.tasks[i] == t
  {
    hide Inv, ValidRun, End, Progress.Rank;
    var step := if !s.tasks[i].flight.InFlight? then NodeReads(i)
                else if accept then NodeAccepts(i) else NodeRefuses(i);
    Progress.NodeRank(s.tasks[i], s.pending);
    Single(w, s, step);
    steps := [step];
    RunKeepsInv(w, s, steps);
    t := Apply(w, s, step).tasks[i];
  }

  /** The request waits for the node, not for the scheduler. */
  predicate AtNode(t: Task) {
    t.flight.InFlight? || (t.stage.NonceRead? && t.stage.answer.None?)
  }

  lemma TaskOfInv(w: World, s: State, i: nat)
    requires Inv(w, s) && i < |s.tasks|
    ensures TaskOk(w.config, s.tasks[i]) && Shape(s.tasks[i])
  {
    hide TaskOk, Shape, LockOk, LogOk, CancelOk, DropOk, NonceOk;
    ShapeOf(w.config, s.tasks[i]);
  }

  lemma LuckyExpected(c: Config, t: Task)
    requires Shape(t) && !AtNode(t) && !t.stage.Done?
    ensures Expects(t, Lucky(t)) && (t.stage.LockWait? <==> Lucky(t).LockGranted?)
  {
  }

  /** The favourable answer keeps hope alive. */
  lemma LuckyNearer(w: World, t: Task)
    requires TaskOk(w.config, t) && Expects(t, Lucky(t)) && Live(w, t)
    ensures var t' := Deliver(w.config, t, Lucky(t));
            && t'.request == t.request
            && (CanSign(w, t) && !t.stage.Signing? ==> CanSign(w, t'))
            && (CanSucceed(w, t) ==> CanSucceed(w, t') || Succeeded(t'))
            && (CanSend(w, t) && t.stage.Signing? ==> t'.sends == t.sends + 1)
  {
    hide TaskOk, Deliver, Viable, ToSign, ToSucceed;
    var t' := Deliver(w.config, t, Lucky(t));
    DeliverEffect(w.config, t, Lucky(t));
    DeliverIssues(w.config, t, Lucky(t));
    if Viable(w.config, t) {
      LuckyViable(w.config, t);
      if Viable(w.config, t') {
        ViableStages(w.config, t');
        ViableRuns(w.config, t');
      } else {
        ResponseIsLast(w.config, t);
      }
    }
  }

  lemma ViableRuns(c: Config, t: Task)
    requires Viable(c, t)
    ensures !t.stage.Done?
  {
    hide OpsViable, LoopViable, Affordable;
  }

  lemma ResponseIsLast(c: Config, t: Task)
    requires Expects(t, Lucky(t)) && Succeeded(Deliver(c, t, Lucky(t)))
    ensures t.stage.Signing? || t.stage.Receipt?
  {
    hide Deliver;
    DeliverEffect(c, t, Lucky(t));
  }

  /** What the node does before a favourable answer changes nothing about the hopes. */
  lemma NodeNeutral(w: World, t: Task, nonce: nat)
    requires AtNode(t) && Shape(t)
    ensures var t' := if t.flight.InFlight? then t.(flight := Accepted(t.flight.tx))
                      else t.(stage := NonceRead(t.stage.plan, Some(nonce)));
            && (CanSign(w, t) ==> CanSign(w, t')) && (CanSucceed(w, t) ==> CanSucceed(w, t'))
  {
    hide OpsViable, LoopViable, Affordable;
  }

  lemma Hope(w: World, t: Task)
    requires CanSign(w, t) || CanSucceed(w, t)
    ensures !t.stage.Done? && Live(w, t)
  {
    hide OpsViable, LoopViable, Affordable;
  }

  /** One phase towards a signature or a response. */
  lemma Nearer(w: World, s: State, i: nat) returns (steps: seq<Step>, t: Task)
    requires Inv(w, s) && s.cancelled && i < |s.tasks|
    requires CanSign(w, s.tasks[i]) || CanSucceed(w, s.tasks[i])
    ensures ValidRun(w, s, steps) && Progress.Rank(t) < Progress.Rank(s.tasks[i])
    ensures var s', t0 := End(w, s, steps), s.tasks[i];
            && Inv(w, s') && s'.cancelled && i < |s'.tasks| && s'.tasks[i] == t && t.request == t0.request
            && (CanSign(w, t0) && !t0.stage.Signing? ==> CanSign(w, t) && t.sends == t0.sends)
            && (CanSucceed(w, t0) ==> CanSucceed(w, t) || Succeeded(t))
            && (CanSend(w, t0) && t0.stage.Signing? ==> t.sends == t0.sends + 1)
  {
    hide Inv, ValidRun, End, Deliver, TaskOk, Progress.Rank, CanSign, CanSucceed;
    TaskOfInv(w, s, i);
    Hope(w, s.tasks[i]);
    if AtNode(s.tasks[i]) {
      steps, t := NodePhase(w, s, i, true);
      NodeNeutral(w, s.tasks[i], s.pending);
    } else {
      LuckyExpected(w.config, s.tasks[i]);
      steps, t := Phase(w, s, i, Lucky(s.tasks[i]));
      LuckyNearer(w, s.tasks[i]);
      DeliverEffect(w.config, s.tasks[i], Lucky(s.tasks[i]));
    }
  }

  lemma {:induction false} SendAtLast(w: World, s: State, i: nat) returns (steps: seq<Step>)
    requires Inv(w, s) && s.cancelled && i < |s.tasks| && CanSend(w, s.tasks[i])
    ensures ValidRun(w, s, steps) && i < |End(w, s, steps).tasks|
    ensures End(w, s, steps).tasks[i].sends > s.tasks[i].sends
    decreases Progress.Rank(s.tasks[i])
  {
    hide Inv, Apply, Enabled, CanSign, Progress.Rank;
    var t;
    steps, t := Nearer(w, s, i);
    if !s.tasks[i].stage.Signing? {
      var rest := SendAtLast(w, End(w, s, steps), i);
      Concat(w, s, steps, rest);
      steps := steps + rest;
    }
  }

  lemma {:induction false} SucceedAtLast(w: World, s: State, i: nat) returns (steps: seq<Step>)
    requires Inv(w, s) && s.cancelled && i < |s.tasks| && CanSucceed(w, s.tasks[i])
    ensures ValidRun(w, s, steps) && i < |End(w, s, steps).tasks| && Succeeded(End(w, s, steps).tasks[i])
    decreases Progress.Rank(s.tasks[i])
  {
    hide Inv, Apply, Enabled, CanSucceed, Progress.Rank;
    var t;
    steps, t := Nearer(w, s, i);
    if !Succeeded(t) {
      var rest := SucceedAtLast(w, End(w, s, steps), i);
      Concat(w, s, steps, rest);
      steps := steps + rest;
    }
  }

  /** An answer that ends the request, or brings it to one that does. */
  function Failing(t: Task): Event
    requires Shape(t) && !t.stage.Done? && !t.flight.InFlight?
  {
    if t.stage.NonceRead? then NonceFailed(Transport)
    else if t.stage.Signing? then SignFailed(SigningFailed)
    else Progress.SomeAnswer(t)
  }

  lemma BuildFails(c: Config, t: Task)
    requires Shape(t) && !t.stage.Done? && !t.flight.InFlight? && Builds(Failing(t))
    ensures Answered(Deliver(c, t, Failing(t)))
  {
    hide NextOp, TakeReceipt, TakeReplay, TakeNonce, StartRequest;
  }

  lemma FailingEnds(w: World, t: Task)
    requires Shape(t) && CanAnswer(w, t) && !t.stage.Done? && !t.flight.InFlight?
    ensures var t' := Deliver(w.config, t, Failing(t));
            Answered(t') || CanAnswer(w, t')
  {
    hide TakeDeposit, TakeSimulation, TakeHash, TakeEstimate, NextOp, OuterTx, ResponseTo;
    if Builds(Failing(t)) {
      BuildFails(w.config, t);
    }
  }

  lemma {:induction false} Conclude(w: World, s: State, i: nat) returns (steps: seq<Step>)
    requires Inv(w, s) && s.cancelled && i < |s.tasks| && CanAnswer(w, s.tasks[i])
    ensures ValidRun(w, s, steps) && i < |End(w, s, steps).tasks| && Answered(End(w, s, steps).tasks[i])
    decreases Progress.Rank(s.tasks[i])
  {
    hide Inv, Apply, Enabled, Progress.Rank, Deliver, TaskOk;
    var t;
    TaskOfInv(w, s, i);
    if s.tasks[i].flight.InFlight? {
      steps, t := NodePhase(w, s, i, false);
    } else {
      steps, t := Phase(w, s, i, Failing(s.tasks[i]));
      FailingEnds(w, s.tasks[i]);
    }
    if !Answered(t) {
      var rest := Conclude(w, End(w, s, steps), i);
      Concat(w, s, steps, rest);
      steps := steps + rest;
    }
  }

  // --- The exact conditions ----------------------------------------------------------

  /** After the token has fired, a request can still broadcast exactly when it submits and the
      poll it is in can lead to a signature. */
  lemma SendsAfterCancelIff(w: World, s: State, i: nat)
    requires Inv(w, s) && s.cancelled && i < |s.tasks|
    ensures MaySend(w, s, i) <==> CanSend(w, s.tasks[i])
  {
    hide Inv, CanSend;
    if CanSend(w, s.tasks[i]) {
      var steps := SendAtLast(w, s, i);
      assert MaySend(w, s, i);
    } else if MaySend(w, s, i) {
      var steps :| && ValidRun(w, s, steps) && i < |End(w, s, steps).tasks|
                   && End(w, s, steps).tasks[i].sends > s.tasks[i].sends;
      NoSendRun(w, s, steps, i);
    }
  }

  /** In particular it is inside a poll, submits and has not broadcast before. */
  lemma OnlyPolledSend(w: World, s: State, i: nat)
    requires Inv(w, s) && s.cancelled && i < |s.tasks| && MaySend(w, s, i)
    ensures s.tasks[i].running && s.tasks[i].request.submit && s.tasks[i].flight.NotSent?
  {
    hide Inv, MaySend, Viable, ToSign;
    SendsAfterCancelIff(w, s, i);
    TaskOfInv(w, s, i);
    UnsignedIsUnsent(w.config, s.tasks[i]);
  }

  lemma UnsignedIsUnsent(c: Config, t: Task)
    requires TaskOk(c, t) && Unsigned(t)
    ensures t.flight.NotSent?
  {
    hide Planned, Sound, Absorbed, Examining;
  }

  /** ... and can still return a response exactly when that poll can lead to one. */
  lemma SucceedsAfterCancelIff(w: World, s: State, i: nat)
    requires Inv(w, s) && s.cancelled && i < |s.tasks| && !s.tasks[i].stage.Done?
    ensures MaySucceed(w, s, i) <==> CanSucceed(w, s.tasks[i])
  {
    hide Inv, CanSucceed;
    if CanSucceed(w, s.tasks[i]) {
      var steps := SucceedAtLast(w, s, i);
      assert MaySucceed(w, s, i);
    } else if MaySucceed(w, s, i) {
      var steps :| && ValidRun(w, s, steps) && i < |End(w, s, steps).tasks|
                   && Succeeded(End(w, s, steps).tasks[i]);
      LostRun(w, s, steps, i);
    }
  }

  /** ... and an unfinished one can still return anything but "cancelled" exactly when that poll
      can deliver an answer that ends it. */
  lemma AnswersAfterCancelIff(w: World, s: State, i: nat)
    requires Inv(w, s) && s.cancelled && i < |s.tasks| && !s.tasks[i].stage.Done?
    ensures MayAnswer(w, s, i) <==> CanAnswer(w, s.tasks[i])
  {
    hide Inv, CanAnswer;
    if CanAnswer(w, s.tasks[i]) {
      var steps := Conclude(w, s, i);
      assert MayAnswer(w, s, i);
    } else if MayAnswer(w, s, i) {
      var steps :| && ValidRun(w, s, steps) && i < |End(w, s, steps).tasks|
                   && Answered(End(w, s, steps).tasks[i]);
      MuteRun(w, s, steps, i);
    }
  }

  /** All of it, for every request of every reachable state: who can still broadcast, return a
      response, or return anything but "cancelled" once the token has fired. */
  lemma AfterCancel(w: World, s: State, i: nat)
    requires Reachable(w, s) && s.cancelled && i < |s.tasks|
    ensures MaySend(w, s, i) <==> CanSend(w, s.tasks[i])
    ensures !s.tasks[i].stage.Done? ==> (MaySucceed(w, s, i) <==> CanSucceed(w, s.tasks[i]))
    ensures !s.tasks[i].stage.Done? ==> (MayAnswer(w, s, i) <==> CanAnswer(w, s.tasks[i]))
  {
    hide Reachable, Inv, CanSend, CanSucceed, CanAnswer, MaySend, MaySucceed, MayAnswer;
    ReachableInv(w, s);
    SendsAfterCancelIff(w, s, i);
    if !s.tasks[i].stage.Done? {
      SucceedsAfterCancelIff(w, s, i);
      AnswersAfterCancelIff(w, s, i);
    }
  }

  /** With every call over the network and a local signer: only a request polled while it signs,
      or again while it waits for its nonce, can still broadcast; only one polled again while it
      waits for its receipt, or a sign-only one, can still return a response; and an answer of
      any kind needs a poll begun after the pending call was issued. */
  lemma AfterCancelOverNetwork(w: World, s: State, i: nat)
    requires Reachable(w, s) && s.cancelled && i < |s.tasks| && !s.tasks[i].stage.Done? && w.eager == {SignCall}
    ensures var t := s.tasks[i];
            var signing := t.stage.Signing? || (t.stage.NonceRead? && !t.issuedNow);
            && (MaySend(w, s, i) <==> t.running && t.request.submit && signing)
            && (MaySucceed(w, s, i) <==>
                t.running && (if t.request.submit then t.stage.Receipt? && !t.issuedNow else signing))
            && (MayAnswer(w, s, i) <==>
                && t.running && (t.issuedNow ==> t.stage.Arrived? || t.stage.Signing?)
                && (t.stage.Arrived? ==> !Sane(w.config, t.request))
                && !t.stage.LockWait? && !(t.stage.Sending? && t.flight.Accepted?))
  {
    hide Reachable, MaySend, MaySucceed, MayAnswer, OpsViable, LoopViable, Affordable;
    AfterCancel(w, s, i);
    SubmitOnly(w, s, i);
  }

  lemma SubmitOnly(w: World, s: State, i: nat)
    requires Reachable(w, s) && i < |s.tasks|
    ensures var t := s.tasks[i];
            && (t.stage.Sending? || t.stage.Receipt? ==> t.request.submit)
  {
    hide Reachable, Inv, Planned, Sound, Absorbed, Examining;
    ReachableInv(w, s);
    TaskOfInv(w, s, i);
  }

  /** With every call completing at once, as in the repository's pipeline tests: every request
      polled before its signature can still broadcast if suitable answers exist, and every
      polled request can still get an answer. */
  lemma AfterCancelAtOnce(w: World, s: State, i: nat)
    requires Reachable(w, s) && s.cancelled && i < |s.tasks| && !s.tasks[i].stage.Done? && w.eager == EVERY_CALL
    ensures var t := s.tasks[i];
            && (MaySend(w, s, i) <==> t.running && t.request.submit && Unsigned(t) && Viable(w.config, t))
            && (MaySucceed(w, s, i) <==> t.running && Viable(w.config, t))
            && (MayAnswer(w, s, i) <==> t.running)
  {
    hide Reachable, MaySend, MaySucceed, MayAnswer, Viable;
    AfterCancel(w, s, i);
  }
}
