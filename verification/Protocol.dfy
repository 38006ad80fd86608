/** Any number of requests sharing one submit lock, one cancellation token and one execution
    layer, interleaved in any way. */
module Protocol {
  import opened Types
  import opened Packing
  import opened Errors
  import opened Tasks
  import Pipeline
  import Prefund
  import Validation

  /** `eager`: the calls that may complete in the very poll that issues them.
      `dropsSends`: a client may drop its request while the send is in flight. */
  datatype World = World(config: Config, firstNonce: nat, eager: set<Call>, dropsSends: bool)

  /** A request that enters the lock can get its nonce and its signature in the same poll. */
  predicate Hasty(w: World) {
    {NonceCall, SignCall} <= w.eager
  }

  /** A transaction the execution layer has accepted, with the request that sent it. */
  datatype Entry = Entry(task: nat, tx: Tx)

  datatype State = State(
    tasks: seq<Task>,
    lock: Option<nat>,
    cancelled: bool,
    pending: nat,
    log: seq<Entry>)

  datatype Step =
    | Arrive(request: Request)
    | Cancel
    | Poll(i: nat)
    | Suspend(i: nat)
    | Run(i: nat, event: Event)
    | Drop(i: nat)
    | NodeReads(i: nat)
    | NodeAccepts(i: nat)
    | NodeRefuses(i: nat)

  function Init(w: World): State {
    State([], None, false, w.firstNonce, [])
  }

  // --- Transitions -------------------------------------------------------------

  predicate Enabled(w: World, s: State, step: Step) {
    match step
    case Arrive(_) => true
    case Cancel => !s.cancelled
    case Poll(i) => i < |s.tasks| && !s.tasks[i].running && !s.tasks[i].stage.Done?
    case Suspend(i) => i < |s.tasks| && s.tasks[i].running
    case Run(i, ev) => i < |s.tasks| && Ready(w.eager, s.tasks[i], ev) && (ev.LockGranted? ==> s.lock.None?)
    case Drop(i) =>
      && i < |s.tasks| && !s.tasks[i].running && !s.tasks[i].stage.Done?
      && (s.tasks[i].flight.InFlight? ==> w.dropsSends)
    case NodeReads(i) => i < |s.tasks| && s.tasks[i].stage.NonceRead? && s.tasks[i].stage.answer.None?
    case NodeAccepts(i) => i < |s.tasks| && s.tasks[i].flight.InFlight?
    case NodeRefuses(i) => i < |s.tasks| && s.tasks[i].flight.InFlight?
  }

  /** A poll looks at the cancellation token first; a cancelled request is dropped whole. */
  function Polled(t: Task, cancelled: bool): Task {
    if cancelled then Fail(t, Cancelled) else t.(running := true, issuedNow := false)
  }

  /** The client goes away between two polls; the future and its guard are dropped. */
  function Dropped(t: Task): Task {
    Finish(t, Abandoned(t.flight.InFlight?))
  }

  /** The lock follows the guard of the task that moved. */
  function Move(s: State, i: nat, t: Task): State
    requires i < |s.tasks|
  {
    var held := s.tasks[i].guard;
    s.(tasks := s.tasks[i := t],
       lock := if held && !t.guard then None else if !held && t.guard then Some(i) else s.lock)
  }

  function Apply(w: World, s: State, step: Step): State
    requires Enabled(w, s, step)
  {
    match step
    case Arrive(r) => s.(tasks := s.tasks + [NewTask(r)])
    case Cancel => s.(cancelled := true)
    case Poll(i) => Move(s, i, Polled(s.tasks[i], s.cancelled))
    case Suspend(i) => Move(s, i, s.tasks[i].(running := false))
    case Run(i, ev) => Move(s, i, Deliver(w.config, s.tasks[i], ev))
    case Drop(i) => Move(s, i, Dropped(s.tasks[i]))
    case NodeReads(i) =>
      Move(s, i, s.tasks[i].(stage := NonceRead(s.tasks[i].stage.plan, Some(s.pending))))
    case NodeAccepts(i) =>
      var tx := s.tasks[i].flight.tx;
      Move(s, i, s.tasks[i].(flight := Accepted(tx))).(pending := s.pending + 1, log := s.log + [Entry(i, tx)])
    case NodeRefuses(i) => Move(s, i, s.tasks[i].(flight := Refused(s.tasks[i].flight.tx)))
  }

  ghost predicate ValidRun(w: World, s: State, steps: seq<Step>)
    decreases |steps|
  {
    steps == [] || (Enabled(w, s, steps[0]) && ValidRun(w, Apply(w, s, steps[0]), steps[1..]))
  }

  ghost function End(w: World, s: State, steps: seq<Step>): State
    requires ValidRun(w, s, steps)
    decreases |steps|
  {
    if steps == [] then s else End(w, Apply(w, s, steps[0]), steps[1..])
  }

  // --- The inductive invariant -----------------------------------------------

  ghost predicate TasksOk(w: World, s: State) {
    forall i :: 0 <= i < |s.tasks| ==> TaskOk(w.config, s.tasks[i])
  }

  /** The lock is held by exactly the task that has the guard. */
  ghost predicate LockOk(s: State) {
    && (s.lock.Some? ==> s.lock.value < |s.tasks|)
    && forall i :: 0 <= i < |s.tasks| ==> (s.tasks[i].guard <==> s.lock == Some(i))
  }

  ghost predicate CancelOk(s: State) {
    forall i :: 0 <= i < |s.tasks| && WasCancelled(s.tasks[i]) ==> s.cancelled
  }

  /** The log lists each accepted flight exactly once. */
  ghost predicate LogOk(s: State) {
    && (forall k :: 0 <= k < |s.log| ==>
          s.log[k].task < |s.tasks| && s.tasks[s.log[k].task].flight == Accepted(s.log[k].tx))
    && (forall i :: 0 <= i < |s.tasks| && s.tasks[i].flight.Accepted? ==> Entry(i, s.tasks[i].flight.tx) in s.log)
    && (forall j, k :: 0 <= j < k < |s.log| ==> s.log[j].task != s.log[k].task)
  }

  ghost predicate Contiguous(w: World, s: State) {
    && s.pending == w.firstNonce + |s.log|
    && forall k :: 0 <= k < |s.log| ==> s.log[k].tx.nonce == w.firstNonce + k
  }

  ghost predicate OnlyFlight(s: State, i: nat) {
    forall j :: 0 <= j < |s.tasks| && s.tasks[j].flight.InFlight? ==> j == i
  }

  /** What the task knows of the nonce, if anything, is the pending one. */
  ghost predicate KnowsPending(t: Task, pending: nat) {
    && (t.stage.NonceRead? && t.stage.answer.Some? ==> t.stage.answer.value == pending)
    && (t.stage.Signing? ==> t.stage.tx.nonce == pending)
  }

  /** Cancelled before it could use a nonce: its next poll drops it. */
  ghost predicate Stranded(w: World, s: State, t: Task) {
    && s.cancelled && (t.issuedNow || !t.running)
    && (t.stage.NonceRead? || (t.stage.Signing? && SignCall !in w.eager))
  }

  ghost predicate HolderOk(w: World, s: State, i: nat)
    requires i < |s.tasks|
  {
    Stranded(w, s, s.tasks[i]) || (OnlyFlight(s, i) && KnowsPending(s.tasks[i], s.pending))
  }

  ghost predicate Disciplined(w: World, s: State) {
    && Contiguous(w, s)
    && (forall i :: 0 <= i < |s.tasks| && s.tasks[i].flight.InFlight? ==>
          s.tasks[i].flight.tx.nonce == s.pending && OnlyFlight(s, i))
    && (forall i :: 0 <= i < |s.tasks| && s.tasks[i].guard ==> HolderOk(w, s, i))
  }

  /** Some client dropped its request while the send was in flight. */
  ghost predicate Orphaned(s: State) {
    exists i :: 0 <= i < |s.tasks| && IsOrphan(s.tasks[i])
  }

  /** The nonces are in order until the lock is let go under an unsettled send and somebody can
      still take it: after a client's drop, or after the token in a hasty world. */
  ghost predicate NonceOk(w: World, s: State) {
    (Hasty(w) && s.cancelled) || Orphaned(s) || Disciplined(w, s)
  }

  ghost predicate DropOk(w: World, s: State) {
    Orphaned(s) ==> w.dropsSends
  }

  ghost predicate Inv(w: World, s: State) {
    TasksOk(w, s) && LockOk(s) && CancelOk(s) && DropOk(w, s) && LogOk(s) && NonceOk(w, s)
  }

  // --- Views of a task that do not open its batch ----------------------------

  predicate WasCancelled(t: Task) {
    t.stage.Done? && t.stage.outcome == Returned(Err(Cancelled))
  }

  predicate WasAbandoned(t: Task) {
    t.stage.Done? && t.stage.outcome.Abandoned?
  }

  predicate Succeeded(t: Task) {
    t.stage.Done? && t.stage.outcome.Returned? && t.stage.outcome.result.Ok?
  }

  predicate IsOrphan(t: Task) {
    t.stage == Done(Abandoned(true))
  }

  /** The part of task well-formedness the interleaving argument needs. */
  ghost predicate Shape(t: Task) {
    && t.guard == Critical(t)
    && (t.flight.InFlight? ==> t.request.submit && (t.stage.Sending? || WasCancelled(t) || IsOrphan(t)))
    && (t.stage.NonceRead? || t.stage.Signing? || t.stage.LockWait? ==> t.flight.NotSent?)
    && (t.stage.LockWait? ==> t.request.submit)
    && (t.stage.Sending? ==> !t.flight.NotSent?)
    && (t.running ==> !t.stage.Done?)
  }

  lemma ShapeOf(c: Config, t: Task)
    requires TaskOk(c, t)
    ensures Shape(t)
  {
    hide Planned, Sound, Absorbed, Examining;
  }

  ghost predicate Shapes(s: State) {
    forall i :: 0 <= i < |s.tasks| ==> Shape(s.tasks[i])
  }

  lemma AllShapes(w: World, s: State)
    requires TasksOk(w, s)
    ensures Shapes(s)
  {
    hide TaskOk, Shape;
    forall i | 0 <= i < |s.tasks| ensures Shape(s.tasks[i]) {
      ShapeOf(w.config, s.tasks[i]);
    }
  }

  /** What an event can change, seen from outside. */
  ghost predicate Effect(t: Task, ev: Event, t': Task)
    requires Expects(t, ev)
  {
    && t'.request == t.request
    && t'.flight == (if ev.Signed? && t.request.submit then InFlight(t.stage.tx) else t.flight)
    && t'.sends == (if ev.Signed? && t.request.submit then t.sends + 1 else t.sends)
    && (t'.stage.Done? || (t'.issuedNow && t'.running == t.running))
    && (t'.stage.NonceRead? ==> t'.stage.answer.None? && (ev.LockGranted? || ev.EstimateIs?))
    && (t'.stage.Signing? ==> ev.NonceTaken? && t'.stage.tx.nonce == t.stage.answer.value)
    && (t'.stage.Sending? ==> ev.Signed?)
    && (t'.stage.LockWait? ==> ev.EstimateIs?)
    && (t'.stage.Receipt? ==> ev.SendAnswered? && t.flight.Accepted?)
    && (Succeeded(t') ==> ev.Signed? || ev.ReceiptIs?)
    && (t'.guard && !t.guard ==> ev.LockGranted?)
    && !WasCancelled(t') && !WasAbandoned(t')
  }

  lemma NextOpEffect(c: Config, t: Task, ev: Event, q: Pipeline.Quote, b: Pipeline.Batch)
    requires Expects(t, ev) && (ev.TipIs? || ev.HashIs?)
    ensures Effect(t, ev, NextOp(c, t, q, b))
  {
    hide Pack, Prefund.QuotePrefund;
  }

  predicate Builds(ev: Event) {
    ev.TipIs? || ev.DepositIs? || ev.SimulationIs? || ev.HashIs? || ev.EstimateIs?
  }

  lemma DeliverEffect(c: Config, t: Task, ev: Event)
    requires Expects(t, ev)
    ensures Effect(t, ev, Deliver(c, t, ev))
  {
    hide TakeDeposit, TakeSimulation, TakeHash, TakeEstimate, NextOp;
    if Builds(ev) {
      BuildEffect(c, t, ev);
    }
  }

  lemma BuildEffect(c: Config, t: Task, ev: Event)
    requires Expects(t, ev) && Builds(ev)
    ensures Effect(t, ev, Deliver(c, t, ev))
  {
    hide Pack, Prefund.QuotePrefund, Validation.Simulate, NextOp, Pipeline.Admit,
         Pipeline.GasWithMargin, TakeHash, TakeNonce, TakeReceipt, TakeReplay, StartRequest;
    match ev {
      case TipIs(a, now) =>
        if a.Ok? {
          NextOpEffect(c, t, ev, Pipeline.Quote(t.stage.baseFee, a.value, now), Pipeline.EMPTY_BATCH);
        }
      case HashIs(a) => HashEffect(c, t, a);
      case _ =>
    }
  }

  lemma HashEffect(c: Config, t: Task, hash: Answer<Pipeline.UserOpHash>)
    requires Expects(t, HashIs(hash))
    ensures Effect(t, HashIs(hash), TakeHash(c, t, hash))
  {
    hide NextOp, Pipeline.Admit;
    if hash.Ok? && |t.stage.batch.packed| < |t.request.ops| {
      NextOpEffect(c, t, HashIs(hash), t.stage.quote,
                   Pipeline.Admit(t.stage.batch, t.request.ops[|t.stage.batch.packed|], t.stage.packed, hash.value));
    }
  }

  // --- Each step keeps the invariant -------------------------------------------

  lemma PolledOk(c: Config, t: Task, cancelled: bool)
    requires TaskOk(c, t) && !t.stage.Done?
    ensures TaskOk(c, Polled(t, cancelled))
  {
    hide Planned, Sound, Absorbed, Examining;
    if cancelled {
      FailOk(c, t, Cancelled);
    }
  }

  lemma DroppedOk(c: Config, t: Task)
    requires TaskOk(c, t) && !t.stage.Done?
    ensures TaskOk(c, Dropped(t))
  {
    hide Planned, Sound, Absorbed, Examining;
  }

  lemma SuspendedOk(c: Config, t: Task)
    requires TaskOk(c, t)
    ensures TaskOk(c, t.(running := false))
  {
    hide Planned, Sound, Absorbed, Examining;
  }

  lemma NonceAnsweredOk(c: Config, t: Task, nonce: nat)
    requires TaskOk(c, t) && t.stage.NonceRead?
    ensures TaskOk(c, t.(stage := NonceRead(t.stage.plan, Some(nonce))))
  {
    hide Planned, Sound, Absorbed, Examining;
  }

  /** The node may settle an outstanding send before or after the request is dropped. */
  lemma SettledOk(c: Config, t: Task, flight: Flight)
    requires TaskOk(c, t) && t.flight.InFlight?
    requires flight == Accepted(t.flight.tx) || flight == Refused(t.flight.tx)
    ensures TaskOk(c, t.(flight := flight))
  {
    hide Planned, Sound, Absorbed, Examining;
  }

  lemma NewTaskOk(c: Config, r: Request)
    ensures TaskOk(c, NewTask(r)) && Shape(NewTask(r))
  {
  }

  lemma TasksStep(w: World, s: State, step: Step)
    requires TasksOk(w, s) && Enabled(w, s, step)
    ensures TasksOk(w, Apply(w, s, step))
  {
    hide TaskOk, Deliver;
    match step {
      case Arrive(r) => NewTaskOk(w.config, r);
      case Cancel =>
      case Poll(i) => PolledOk(w.config, s.tasks[i], s.cancelled);
      case Suspend(i) => SuspendedOk(w.config, s.tasks[i]);
      case Run(i, ev) => DeliverKeepsOk(w.config, s.tasks[i], ev);
      case Drop(i) => DroppedOk(w.config, s.tasks[i]);
      case NodeReads(i) => NonceAnsweredOk(w.config, s.tasks[i], s.pending);
      case NodeAccepts(i) => SettledOk(w.config, s.tasks[i], Accepted(s.tasks[i].flight.tx));
      case NodeRefuses(i) => SettledOk(w.config, s.tasks[i], Refused(s.tasks[i].flight.tx));
    }
  }

  lemma MoveLock(s: State, i: nat, t: Task)
    requires LockOk(s) && i < |s.tasks| && (t.guard && !s.tasks[i].guard ==> s.lock.None?)
    ensures LockOk(Move(s, i, t))
  {
  }

  lemma LockStep(w: World, s: State, step: Step)
    requires LockOk(s) && Enabled(w, s, step)
    ensures LockOk(Apply(w, s, step))
  {
    hide Deliver, Move, Effect;
    match step {
      case Arrive(_) =>
      case Cancel =>
      case Poll(i) => MoveLock(s, i, Polled(s.tasks[i], s.cancelled));
      case Suspend(i) => MoveLock(s, i, s.tasks[i].(running := false));
      case Run(i, ev) =>
        RunGuard(w, s.tasks[i], ev);
        MoveLock(s, i, Deliver(w.config, s.tasks[i], ev));
      case Drop(i) => MoveLock(s, i, Dropped(s.tasks[i]));
      case NodeReads(i) => MoveLock(s, i, s.tasks[i].(stage := NonceRead(s.tasks[i].stage.plan, Some(s.pending))));
      case NodeAccepts(i) => MoveLock(s, i, s.tasks[i].(flight := Accepted(s.tasks[i].flight.tx)));
      case NodeRefuses(i) => MoveLock(s, i, s.tasks[i].(flight := Refused(s.tasks[i].flight.tx)));
    }
  }

  lemma RunGuard(w: World, t: Task, ev: Event)
    requires Expects(t, ev)
    ensures Deliver(w.config, t, ev).guard && !t.guard ==> ev.LockGranted?
    ensures !WasCancelled(Deliver(w.config, t, ev)) && !WasAbandoned(Deliver(w.config, t, ev))
  {
    hide Deliver;
    DeliverEffect(w.config, t, ev);
  }

  lemma CancelStep(w: World, s: State, step: Step)
    requires CancelOk(s) && Enabled(w, s, step)
    ensures CancelOk(Apply(w, s, step))
  {
    hide Deliver;
    if step.Run? {
      RunGuard(w, s.tasks[step.i], step.event);
    }
  }

  /** Only a drop makes an orphan, and an orphan stays one. */
  lemma OrphanStep(w: World, s: State, step: Step)
    requires Shapes(s) && Enabled(w, s, step)
    ensures Orphaned(s) ==> Orphaned(Apply(w, s, step))
    ensures Orphaned(Apply(w, s, step)) ==> Orphaned(s) || (step.Drop? && s.tasks[step.i].flight.InFlight?)
  {
    hide Deliver;
    var s' := Apply(w, s, step);
    if Orphaned(s) {
      var k :| 0 <= k < |s.tasks| && IsOrphan(s.tasks[k]);
      OrphanStays(w, s, step, k);
    }
    if Orphaned(s') {
      var k :| 0 <= k < |s'.tasks| && IsOrphan(s'.tasks[k]);
      if step.Run? {
        RunGuard(w, s.tasks[step.i], step.event);
      }
    }
  }

  lemma OrphanStays(w: World, s: State, step: Step, k: nat)
    requires Shapes(s) && Enabled(w, s, step) && k < |s.tasks| && IsOrphan(s.tasks[k])
    ensures k < |Apply(w, s, step).tasks| && IsOrphan(Apply(w, s, step).tasks[k])
  {
    hide Deliver;
    assert Shape(s.tasks[k]);
  }

  lemma MoveLog(s: State, i: nat, t: Task)
    requires LogOk(s) && i < |s.tasks|
    requires s.tasks[i].flight.Accepted? || t.flight.Accepted? ==> t.flight == s.tasks[i].flight
    ensures LogOk(Move(s, i, t))
  {
  }

  lemma AcceptLog(w: World, s: State, i: nat)
    requires LogOk(s) && Enabled(w, s, NodeAccepts(i))
    ensures LogOk(Apply(w, s, NodeAccepts(i)))
  {
    var s' := Apply(w, s, NodeAccepts(i));
    forall j | 0 <= j < |s'.tasks| && s'.tasks[j].flight.Accepted?
      ensures Entry(j, s'.tasks[j].flight.tx) in s'.log
    {
      if j == i {
        assert s'.log[|s.log|] == Entry(i, s'.tasks[i].flight.tx);
      } else {
        assert Entry(j, s.tasks[j].flight.tx) in s.log;
      }
    }
  }

  lemma RunFlight(w: World, t: Task, ev: Event)
    requires Shape(t) && Expects(t, ev)
    ensures var t' := Deliver(w.config, t, ev);
            t.flight.Accepted? || t'.flight.Accepted? ==> t'.flight == t.flight
  {
    hide Deliver;
    DeliverEffect(w.config, t, ev);
  }

  lemma LogStep(w: World, s: State, step: Step)
    requires Shapes(s) && LogOk(s) && Enabled(w, s, step)
    ensures LogOk(Apply(w, s, step))
  {
    hide Deliver, Move, Shape;
    match step {
      case Arrive(_) =>
      case Cancel =>
      case Poll(i) => MoveLog(s, i, Polled(s.tasks[i], s.cancelled));
      case Suspend(i) => MoveLog(s, i, s.tasks[i].(running := false));
      case Run(i, ev) =>
        RunFlight(w, s.tasks[i], ev);
        MoveLog(s, i, Deliver(w.config, s.tasks[i], ev));
      case Drop(i) => MoveLog(s, i, Dropped(s.tasks[i]));
      case NodeReads(i) => MoveLog(s, i, s.tasks[i].(stage := NonceRead(s.tasks[i].stage.plan, Some(s.pending))));
      case NodeAccepts(i) => AcceptLog(w, s, i);
      case NodeRefuses(i) => MoveLog(s, i, s.tasks[i].(flight := Refused(s.tasks[i].flight.tx)));
    }
  }

  /** A task whose flight is untouched moves without disturbing the discipline, provided that
      it ends up as an orderly holder or no holder at all. */
  lemma MoveKeepsDiscipline(w: World, s: State, i: nat, t: Task)
    requires Disciplined(w, s) && i < |s.tasks| && t.flight == s.tasks[i].flight
    requires t.guard ==> Stranded(w, s, t) || (OnlyFlight(s, i) && KnowsPending(t, s.pending))
    ensures Disciplined(w, Move(s, i, t))
  {
    var s' := Move(s, i, t);
    forall j | 0 <= j < |s'.tasks| && s'.tasks[j].guard ensures HolderOk(w, s', j) {
      if j != i {
        assert HolderOk(w, s, j);
      }
    }
  }

  lemma PollDiscipline(w: World, s: State, i: nat)
    requires Disciplined(w, s) && Enabled(w, s, Poll(i))
    ensures Disciplined(w, Apply(w, s, Poll(i)))
  {
    hide Disciplined;
    if s.tasks[i].guard {
      HolderFacts(w, s, i);
    }
    MoveKeepsDiscipline(w, s, i, Polled(s.tasks[i], s.cancelled));
  }

  lemma HolderFacts(w: World, s: State, i: nat)
    requires Disciplined(w, s) && i < |s.tasks| && s.tasks[i].guard
    ensures HolderOk(w, s, i)
  {
  }

  lemma SuspendDiscipline(w: World, s: State, i: nat)
    requires Disciplined(w, s) && Enabled(w, s, Suspend(i))
    ensures Disciplined(w, Apply(w, s, Suspend(i)))
  {
    hide Disciplined;
    if s.tasks[i].guard {
      HolderFacts(w, s, i);
    }
    MoveKeepsDiscipline(w, s, i, s.tasks[i].(running := false));
  }

  lemma DropDiscipline(w: World, s: State, i: nat)
    requires Disciplined(w, s) && Enabled(w, s, Drop(i))
    ensures Disciplined(w, Apply(w, s, Drop(i)))
  {
    hide Disciplined;
    MoveKeepsDiscipline(w, s, i, Dropped(s.tasks[i]));
  }

  lemma ReadDiscipline(w: World, s: State, i: nat)
    requires Disciplined(w, s) && Enabled(w, s, NodeReads(i))
    ensures Disciplined(w, Apply(w, s, NodeReads(i)))
  {
    hide Disciplined;
    if s.tasks[i].guard {
      HolderFacts(w, s, i);
    }
    MoveKeepsDiscipline(w, s, i, s.tasks[i].(stage := NonceRead(s.tasks[i].stage.plan, Some(s.pending))));
  }

  /** The node settles the only outstanding send; nobody else was counting on the nonce. */
  lemma SettleDiscipline(w: World, s: State, i: nat, step: Step)
    requires Disciplined(w, s) && Shapes(s) && Enabled(w, s, step)
    requires step == NodeAccepts(i) || step == NodeRefuses(i)
    ensures Disciplined(w, Apply(w, s, step))
  {
    var s' := Apply(w, s, step);
    assert OnlyFlight(s, i) && s.tasks[i].flight.tx.nonce == s.pending;
    forall j | 0 <= j < |s'.tasks| && s'.tasks[j].guard ensures HolderOk(w, s', j) {
      assert HolderOk(w, s, j);
      if j == i {
        assert Shape(s.tasks[i]);
      }
    }
  }

  /** Nothing is in flight while the lock is free, the token is quiet and no send is orphaned. */
  lemma NoFlightWhenFree(s: State)
    requires Shapes(s) && LockOk(s) && CancelOk(s) && s.lock.None? && !s.cancelled && !Orphaned(s)
    ensures forall j :: 0 <= j < |s.tasks| ==> !s.tasks[j].flight.InFlight?
  {
    forall j | 0 <= j < |s.tasks| ensures !s.tasks[j].flight.InFlight? {
      assert Shape(s.tasks[j]);
    }
  }

  lemma BroadcastDiscipline(w: World, s: State, i: nat, t: Task)
    requires Disciplined(w, s) && LockOk(s) && i < |s.tasks| && s.tasks[i].guard && s.tasks[i].stage.Signing?
    requires !Stranded(w, s, s.tasks[i])
    requires t.flight == InFlight(s.tasks[i].stage.tx) && t.stage.Sending?
    ensures Disciplined(w, Move(s, i, t))
  {
    assert HolderOk(w, s, i);
    var s' := Move(s, i, t);
    assert OnlyFlight(s', i);
    forall j | 0 <= j < |s'.tasks| && s'.tasks[j].guard ensures HolderOk(w, s', j) {
      assert j == i;
    }
  }

  lemma RunDiscipline(w: World, s: State, i: nat, ev: Event)
    requires Disciplined(w, s) && Shapes(s) && LockOk(s) && CancelOk(s) && Enabled(w, s, Run(i, ev))
    requires !(Hasty(w) && s.cancelled) && !Orphaned(s) && Shape(Deliver(w.config, s.tasks[i], ev))
    ensures Disciplined(w, Apply(w, s, Run(i, ev)))
  {
    hide Deliver, Disciplined;
    var t, t' := s.tasks[i], Deliver(w.config, s.tasks[i], ev);
    DeliverEffect(w.config, t, ev);
    assert Shape(t);
    if t.guard {
      HolderFacts(w, s, i);
    }
    if ev.Signed? && t.request.submit {
      BroadcastDiscipline(w, s, i, t');
    } else {
      if ev.LockGranted? && !s.cancelled {
        NoFlightWhenFree(s);
      }
      MoveKeepsDiscipline(w, s, i, t');
    }
  }

  lemma CancelDiscipline(w: World, s: State)
    requires Disciplined(w, s)
    ensures Disciplined(w, s.(cancelled := true))
  {
    forall i | 0 <= i < |s.tasks| && s.tasks[i].guard ensures HolderOk(w, s.(cancelled := true), i) {
      assert HolderOk(w, s, i);
    }
  }

  lemma ArriveDiscipline(w: World, s: State, r: Request)
    requires Disciplined(w, s)
    ensures Disciplined(w, s.(tasks := s.tasks + [NewTask(r)]))
  {
    var s' := s.(tasks := s.tasks + [NewTask(r)]);
    forall i | 0 <= i < |s'.tasks| && s'.tasks[i].guard ensures HolderOk(w, s', i) {
      assert HolderOk(w, s, i);
    }
  }

  lemma NonceStep(w: World, s: State, step: Step)
    requires Shapes(s) && LockOk(s) && CancelOk(s) && NonceOk(w, s) && Enabled(w, s, step)
    requires Shapes(Apply(w, s, step))
    ensures NonceOk(w, Apply(w, s, step))
  {
    hide Disciplined, Deliver, Shape, Orphaned;
    OrphanStep(w, s, step);
    if !(Hasty(w) && s.cancelled) && !Orphaned(s) {
      match step {
        case Arrive(r) => ArriveDiscipline(w, s, r);
        case Cancel => CancelDiscipline(w, s);
        case Poll(i) => PollDiscipline(w, s, i);
        case Suspend(i) => SuspendDiscipline(w, s, i);
        case Run(i, ev) =>
          assert Shape(Apply(w, s, step).tasks[i]);
          RunDiscipline(w, s, i, ev);
        case Drop(i) => DropDiscipline(w, s, i);
        case NodeReads(i) => ReadDiscipline(w, s, i);
        case NodeAccepts(i) => SettleDiscipline(w, s, i, step);
        case NodeRefuses(i) => SettleDiscipline(w, s, i, step);
      }
    }
  }

  /** Every step of every interleaving keeps the invariant. */
  lemma StepKeepsInv(w: World, s: State, step: Step)
    requires Inv(w, s) && Enabled(w, s, step)
    ensures Inv(w, Apply(w, s, step))
  {
    hide TasksOk, LockOk, CancelOk, LogOk, NonceOk, Shapes, Apply, Orphaned;
    AllShapes(w, s);
    TasksStep(w, s, step);
    AllShapes(w, Apply(w, s, step));
    LockStep(w, s, step);
    CancelStep(w, s, step);
    OrphanStep(w, s, step);
    LogStep(w, s, step);
    NonceStep(w, s, step);
  }

  lemma {:induction false} RunKeepsInv(w: World, s: State, steps: seq<Step>)
    requires Inv(w, s) && ValidRun(w, s, steps)
    ensures Inv(w, End(w, s, steps))
    decreases |steps|
  {
    hide Inv, Apply, Enabled;
    if steps != [] {
      StepKeepsInv(w, s, steps[0]);
      RunKeepsInv(w, Apply(w, s, steps[0]), steps[1..]);
    }
  }

  /** States that some run from the empty bundler ends in. */
  ghost predicate Reachable(w: World, s: State) {
    exists steps :: ValidRun(w, Init(w), steps) && End(w, Init(w), steps) == s
  }

  lemma EmptyReachable(w: World)
    ensures Reachable(w, Init(w))
  {
    assert ValidRun(w, Init(w), []);
    assert End(w, Init(w), []) == Init(w);
  }

  lemma ReachableInv(w: World, s: State)
    requires Reachable(w, s)
    ensures Inv(w, s)
  {
    var steps :| ValidRun(w, Init(w), steps) && End(w, Init(w), steps) == s;
    assert Inv(w, Init(w));
    RunKeepsInv(w, Init(w), steps);
  }

  lemma Prepend(w: World, s: State, step: Step, rest: seq<Step>)
    requires Enabled(w, s, step) && ValidRun(w, Apply(w, s, step), rest)
    ensures ValidRun(w, s, [step] + rest)
    ensures End(w, s, [step] + rest) == End(w, Apply(w, s, step), rest)
  {
    hide Apply, Enabled;
    assert ([step] + rest)[1..] == rest;
  }

  lemma {:induction false} Concat(w: World, s: State, a: seq<Step>, b: seq<Step>)
    requires ValidRun(w, s, a) && ValidRun(w, End(w, s, a), b)
    ensures ValidRun(w, s, a + b) && End(w, s, a + b) == End(w, End(w, s, a), b)
    decreases |a|
  {
    hide Apply, Enabled;
    if a == [] {
      assert a + b == b;
    } else {
      Concat(w, Apply(w, s, a[0]), a[1..], b);
      assert a + b == [a[0]] + (a[1..] + b);
      Prepend(w, s, a[0], a[1..] + b);
    }
  }

  lemma Single(w: World, s: State, step: Step)
    requires Enabled(w, s, step)
    ensures ValidRun(w, s, [step]) && End(w, s, [step]) == Apply(w, s, step)
  {
    hide Apply, Enabled;
    assert ValidRun(w, Apply(w, s, step), []);
    assert [step] == [step] + [];
    Prepend(w, s, step, []);
  }

  lemma ReachStep(w: World, s: State, step: Step)
    requires Reachable(w, s) && Enabled(w, s, step)
    ensures Reachable(w, Apply(w, s, step))
  {
    hide Apply, Enabled;
    var steps :| ValidRun(w, Init(w), steps) && End(w, Init(w), steps) == s;
    Single(w, s, step);
    Concat(w, Init(w), steps, [step]);
  }
}
