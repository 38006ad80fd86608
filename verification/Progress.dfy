/** Every run does a bounded amount of work, and no reachable state is stuck. */
module Progress {
  import opened Types
  import opened Tasks
  import opened Protocol
  import Fees
  import Packing
  import Pipeline
  import Prefund
  import Validation

  // --- A measure over stages and remaining operations ----------------------------

  function Remaining(r: Request, b: Pipeline.Batch): nat {
    if |b.packed| < |r.ops| then |r.ops| - |b.packed| else 0
  }

  function StageRank(r: Request, stage: Stage): nat {
    match stage
    case Arrived => 12 + 3 * |r.ops|
    case BaseFee => 11 + 3 * |r.ops|
    case SuggestedTip(_) => 10 + 3 * |r.ops|
    case Deposit(_, b, _, _) => 9 + 3 * Remaining(r, b)
    case Simulation(_, b, _) => 8 + 3 * Remaining(r, b)
    case OpHash(_, b, _) => 7 + 3 * Remaining(r, b)
    case GasEstimate(_, _) => 9
    case LockWait(_) => 8
    case NonceRead(_, answer) => if answer.None? then 7 else 6
    case Signing(_, _) => 5
    case Sending(_, _) => 3
    case Receipt(_, _) => 2
    case Replay(_, _, _) => 1
    case Done(_) => 0
  }

  function Rank(t: Task): nat {
    StageRank(t.request, t.stage) + if t.flight.InFlight? then 1 else 0
  }

  function Ranks(tasks: seq<Task>): nat {
    if tasks == [] then 0 else Ranks(tasks[..|tasks| - 1]) + Rank(tasks[|tasks| - 1])
  }

  function Work(s: State): nat {
    Ranks(s.tasks) + if s.cancelled then 0 else 1
  }

  lemma {:induction false} RanksUpdate(tasks: seq<Task>, i: nat, t: Task)
    requires i < |tasks|
    ensures Ranks(tasks[i := t]) == Ranks(tasks) - Rank(tasks[i]) + Rank(t)
  {
    hide Rank;
    var n := |tasks| - 1;
    if i == n {
      assert tasks[i := t][..n] == tasks[..n];
    } else {
      RanksUpdate(tasks[..n], i, t);
      assert tasks[i := t][..n] == tasks[..n][i := t];
    }
  }

  lemma NextOpRank(c: Config, t: Task, q: Pipeline.Quote, b: Pipeline.Batch)
    ensures Rank(NextOp(c, t, q, b)) <=
            9 + 3 * Remaining(t.request, b) + if t.flight.InFlight? then 1 else 0
  {
    hide Packing.Pack, Prefund.QuotePrefund;
  }

  lemma HashDescends(c: Config, t: Task, hash: Answer<Pipeline.UserOpHash>)
    requires t.stage.OpHash?
    ensures Rank(TakeHash(c, t, hash)) < Rank(t)
  {
    hide NextOp;
    if hash.Ok? && |t.stage.batch.packed| < |t.request.ops| {
      NextOpRank(c, t, t.stage.quote,
                 Pipeline.Admit(t.stage.batch, t.request.ops[|t.stage.batch.packed|], t.stage.packed, hash.value));
    }
  }

  lemma BuildDescends(c: Config, t: Task, ev: Event)
    requires Expects(t, ev) && Builds(ev)
    ensures Rank(Deliver(c, t, ev)) < Rank(t)
  {
    hide Packing.Pack, Prefund.QuotePrefund, Prefund.CompareDeposit, Validation.Simulate, NextOp, TakeHash,
         Fees.ChooseOuterFees, Pipeline.GasWithMargin, TakeNonce, TakeReceipt, TakeReplay, StartRequest;
    match ev {
      case TipIs(a, now) =>
        if a.Ok? {
          NextOpRank(c, t, Pipeline.Quote(t.stage.baseFee, a.value, now), Pipeline.EMPTY_BATCH);
        }
      case HashIs(a) => HashDescends(c, t, a);
      case _ =>
    }
  }

  /** Every event brings its request strictly closer to its end. */
  lemma DeliverDescends(c: Config, t: Task, ev: Event)
    requires Expects(t, ev)
    ensures Rank(Deliver(c, t, ev)) < Rank(t)
  {
    hide TakeDeposit, TakeSimulation, TakeHash, TakeEstimate, NextOp, OuterTx, ResponseTo;
    if Builds(ev) {
      BuildDescends(c, t, ev);
    }
  }

  /** Steps that move the protocol, as opposed to a scheduler entering or leaving a poll. */
  predicate IsWork(step: Step) {
    !step.Arrive? && !step.Poll? && !step.Suspend?
  }

  function Arrival(step: Step): nat {
    if step.Arrive? then 12 + 3 * |step.request.ops| else 0
  }

  lemma PollRank(t: Task, cancelled: bool)
    requires !t.stage.Done?
    ensures Rank(Polled(t, cancelled)) <= Rank(t)
    ensures cancelled ==> Rank(Polled(t, cancelled)) < Rank(t)
  {
  }

  lemma NodeRank(t: Task, nonce: nat)
    ensures t.stage.NonceRead? && t.stage.answer.None? ==>
              Rank(t.(stage := NonceRead(t.stage.plan, Some(nonce)))) < Rank(t)
    ensures t.flight.InFlight? ==>
              && Rank(t.(flight := Accepted(t.flight.tx))) < Rank(t)
              && Rank(t.(flight := Refused(t.flight.tx))) < Rank(t)
  {
  }

  lemma StepWork(w: World, s: State, step: Step)
    requires Enabled(w, s, step)
    ensures Work(Apply(w, s, step)) + (if IsWork(step) then 1 else 0) <= Work(s) + Arrival(step)
    ensures step.Poll? && s.cancelled ==> Work(Apply(w, s, step)) < Work(s)
  {
    hide Deliver, Rank, Polled, Dropped;
    match step {
      case Arrive(r) => ArriveWork(s, r);
      case Cancel =>
      case Poll(i) =>
        PollRank(s.tasks[i], s.cancelled);
        RanksUpdate(s.tasks, i, Polled(s.tasks[i], s.cancelled));
      case Suspend(i) =>
        SuspendRank(s.tasks[i]);
        RanksUpdate(s.tasks, i, s.tasks[i].(running := false));
      case Run(i, ev) =>
        DeliverDescends(w.config, s.tasks[i], ev);
        RanksUpdate(s.tasks, i, Deliver(w.config, s.tasks[i], ev));
      case Drop(i) =>
        DropRank(s.tasks[i]);
        RanksUpdate(s.tasks, i, Dropped(s.tasks[i]));
      case NodeReads(i) =>
        NodeRank(s.tasks[i], s.pending);
        RanksUpdate(s.tasks, i, s.tasks[i].(stage := NonceRead(s.tasks[i].stage.plan, Some(s.pending))));
      case NodeAccepts(i) =>
        NodeRank(s.tasks[i], s.pending);
        RanksUpdate(s.tasks, i, s.tasks[i].(flight := Accepted(s.tasks[i].flight.tx)));
      case NodeRefuses(i) =>
        NodeRank(s.tasks[i], s.pending);
        RanksUpdate(s.tasks, i, s.tasks[i].(flight := Refused(s.tasks[i].flight.tx)));
    }
  }

  lemma DropRank(t: Task)
    requires !t.stage.Done?
    ensures Rank(Dropped(t)) < Rank(t)
  {
  }

  lemma SuspendRank(t: Task)
    ensures Rank(t.(running := false)) == Rank(t)
  {
  }

  lemma ArriveWork(s: State, r: Request)
    ensures Work(s.(tasks := s.tasks + [NewTask(r)])) == Work(s) + 12 + 3 * |r.ops|
  {
    assert (s.tasks + [NewTask(r)])[..|s.tasks|] == s.tasks;
  }

  ghost function WorkSteps(steps: seq<Step>): nat {
    if steps == [] then 0 else (if IsWork(steps[0]) then 1 else 0) + WorkSteps(steps[1..])
  }

  ghost function Arrivals(steps: seq<Step>): nat {
    if steps == [] then 0 else Arrival(steps[0]) + Arrivals(steps[1..])
  }

  lemma {:induction false} RunWork(w: World, s: State, steps: seq<Step>)
    requires ValidRun(w, s, steps)
    ensures WorkSteps(steps) + Work(End(w, s, steps)) <= Work(s) + Arrivals(steps)
    decreases |steps|
  {
    hide Apply, Enabled, Work;
    if steps != [] {
      StepWork(w, s, steps[0]);
      RunWork(w, Apply(w, s, steps[0]), steps[1..]);
    }
  }

  /** A run does at most `12 + 3 * |ops|` steps of work per request, plus one for the token. */
  lemma BoundedWork(w: World, steps: seq<Step>)
    requires ValidRun(w, Init(w), steps)
    ensures WorkSteps(steps) <= 1 + Arrivals(steps)
  {
    RunWork(w, Init(w), steps);
  }

  // --- No reachable state is stuck -------------------------------------------------

  /** Every request is over and every send has been settled. */
  ghost predicate Settled(s: State) {
    forall i :: 0 <= i < |s.tasks| ==> s.tasks[i].stage.Done? && !s.tasks[i].flight.InFlight?
  }

  /** Runs in which no request arrives, no client goes away and the token does not fire. */
  ghost predicate Internal(steps: seq<Step>) {
    forall k :: 0 <= k < |steps| ==> !steps[k].Arrive? && !steps[k].Drop? && !steps[k].Cancel?
  }

  /** Some answer to the await the task is suspended at. */
  function SomeAnswer(t: Task): (ev: Event)
    requires Shape(t) && !t.stage.Done? && !t.flight.InFlight?
    requires t.stage.NonceRead? ==> t.stage.answer.Some?
    ensures Expects(t, ev) && (ev.LockGranted? ==> t.stage.LockWait?)
  {
    match t.stage
    case Arrived => Started
    case BaseFee => BaseFeeIs(Err(Transport))
    case SuggestedTip(_) => TipIs(Err(Transport), 0)
    case Deposit(_, _, _, _) => DepositIs(Err(Transport))
    case Simulation(_, _, _) => SimulationIs(Err(Transport))
    case OpHash(_, _, _) => HashIs(Err(Transport))
    case GasEstimate(_, _) => EstimateIs(Err(Transport))
    case LockWait(_) => LockGranted
    case NonceRead(_, _) => NonceTaken
    case Signing(_, _) => Signed
    case Sending(_, _) => SendAnswered(Transport)
    case Receipt(_, _) => ReceiptIs(Ok(None))
    case Replay(_, _, _) => ReplayIs(Ok(None))
  }

  /** Not waiting for the node, and not queueing for a lock that is taken. */
  ghost predicate CanMove(s: State, j: nat) {
    && j < |s.tasks| && Shape(s.tasks[j])
    && !s.tasks[j].stage.Done? && !s.tasks[j].flight.InFlight?
    && (s.tasks[j].stage.NonceRead? ==> s.tasks[j].stage.answer.Some?)
    && (s.tasks[j].stage.LockWait? ==> s.lock.None?)
  }

  /** Outside a poll: entering one is enough to work, or to be dropped if the token has fired. */
  lemma MoveFromIdle(w: World, s: State, j: nat) returns (steps: seq<Step>)
    requires CanMove(s, j) && !s.tasks[j].running
    ensures ValidRun(w, s, steps) && Internal(steps) && Work(End(w, s, steps)) < Work(s)
  {
    hide Deliver, Work, ValidRun, End;
    StepWork(w, s, Poll(j));
    if s.cancelled {
      Single(w, s, Poll(j));
      steps := [Poll(j)];
    } else {
      var s1 := Apply(w, s, Poll(j));
      assert s1.tasks[j] == s.tasks[j].(running := true, issuedNow := false) && s1.lock == s.lock;
      var run := Run(j, SomeAnswer(s1.tasks[j]));
      StepWork(w, s1, run);
      Single(w, s1, run);
      Prepend(w, s, Poll(j), [run]);
      steps := [Poll(j)] + [run];
    }
  }

  lemma MoveTask(w: World, s: State, j: nat) returns (steps: seq<Step>)
    requires CanMove(s, j)
    ensures ValidRun(w, s, steps) && Internal(steps) && Work(End(w, s, steps)) < Work(s)
  {
    if !s.tasks[j].running {
      steps := MoveFromIdle(w, s, j);
    } else {
      hide Work, ValidRun, End;
      var s1 := Apply(w, s, Suspend(j));
      StepWork(w, s, Suspend(j));
      assert s1.tasks[j] == s.tasks[j].(running := false) && s1.lock == s.lock;
      var rest := MoveFromIdle(w, s1, j);
      Prepend(w, s, Suspend(j), rest);
      steps := [Suspend(j)] + rest;
    }
  }

  /** From every state that is not settled, some internal run strictly reduces the work left. */
  lemma Advance(w: World, s: State) returns (steps: seq<Step>)
    requires Inv(w, s) && !Settled(s)
    ensures ValidRun(w, s, steps) && Internal(steps) && Work(End(w, s, steps)) < Work(s)
  {
    hide ValidRun, End, Work, TasksOk, Deliver, LogOk, NonceOk, CancelOk, DropOk;
    AllShapes(w, s);
    var i :| 0 <= i < |s.tasks| && !(s.tasks[i].stage.Done? && !s.tasks[i].flight.InFlight?);
    var j := if s.tasks[i].stage.LockWait? && s.lock.Some? then s.lock.value else i;
    assert Shape(s.tasks[i]) && Shape(s.tasks[j]);
    if s.tasks[j].flight.InFlight? {
      StepWork(w, s, NodeAccepts(j));
      Single(w, s, NodeAccepts(j));
      steps := [NodeAccepts(j)];
    } else if s.tasks[j].stage.NonceRead? && s.tasks[j].stage.answer.None? {
      StepWork(w, s, NodeReads(j));
      Single(w, s, NodeReads(j));
      steps := [NodeReads(j)];
    } else {
      steps := MoveTask(w, s, j);
    }
  }

  /** From every reachable state, without any new arrival, every request can still be brought
      to its end with every send settled and the lock free. */
  lemma {:induction false} CanFinish(w: World, s: State) returns (steps: seq<Step>)
    requires Inv(w, s)
    ensures ValidRun(w, s, steps) && Internal(steps)
    ensures Settled(End(w, s, steps)) && End(w, s, steps).lock.None?
    decreases Work(s)
  {
    hide Inv, Work, Apply, Enabled;
    if Settled(s) {
      SettledIsFree(w, s);
      steps := [];
    } else {
      var first := Advance(w, s);
      RunKeepsInv(w, s, first);
      var rest := CanFinish(w, End(w, s, first));
      Concat(w, s, first, rest);
      steps := first + rest;
    }
  }

  lemma SettledIsFree(w: World, s: State)
    requires Inv(w, s) && Settled(s)
    ensures s.lock.None?
  {
    hide LogOk, NonceOk, CancelOk, DropOk, TasksOk;
    AllShapes(w, s);
    forall i | 0 <= i < |s.tasks| ensures !s.tasks[i].guard {
      assert Shape(s.tasks[i]);
    }
  }

  /** The same, for reachable states. */
  lemma NeverStuck(w: World, s: State)
    requires Reachable(w, s)
    ensures exists steps :: && ValidRun(w, s, steps) && Internal(steps)
                            && Settled(End(w, s, steps)) && End(w, s, steps).lock.None?
  {
    hide Reachable, Inv, Settled, Internal;
    ReachableInv(w, s);
    var steps := CanFinish(w, s);
  }
}
