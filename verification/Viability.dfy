/** Which requests can still be brought to a signature, or to a response, by suitable answers,
    and which calls they have yet to issue on the way. */
module Viability {
  import opened Types
  import BigEndian
  import opened Packing
  import opened Validation
  import opened Errors
  import opened Fees
  import opened Prefund
  import opened Pipeline
  import opened Receipts
  import opened Tasks
  import opened Protocol

  // --- The request and its stage -----------------------------------------------------

  /** The loop does not reject the operation before asking anybody. */
  predicate OpViable(c: Config, baseFee: U256, i: nat, op: UserOp) {
    && CheckPerOpFees(c, i, op, baseFee).Ok?
    && Pack(op).Ok? && QuotePrefund(op, Pack(op).value).Ok?
  }

  predicate OpsViable(c: Config, baseFee: U256, ops: seq<UserOp>, from: nat) {
    forall j :: from <= j < |ops| ==> OpViable(c, baseFee, j, ops[j])
  }

  /** The outer fees can be chosen. */
  ghost predicate Affordable(c: Config, q: Quote, ops: seq<UserOp>) {
    ops != [] && BatchFees(c, q.baseFee, q.suggestedTip, ops).Ok?
  }

  ghost predicate LoopViable(c: Config, q: Quote, ops: seq<UserOp>, from: nat) {
    OpsViable(c, q.baseFee, ops, from) && Affordable(c, q, ops)
  }

  /** Suitable answers exist: before the quote a base fee of zero is the best there is, and no
      validity window reaches past 2^48. */
  ghost predicate Viable(c: Config, t: Task) {
    var ops := t.request.ops;
    match t.stage
    case Arrived => Sane(c, t.request) && OpsViable(c, 0, ops, 0)
    case BaseFee => OpsViable(c, 0, ops, 0)
    case SuggestedTip(baseFee) => OpsViable(c, baseFee, ops, 0)
    case Deposit(q, b, _, _) => LoopViable(c, q, ops, |b.packed| + 1) && q.now < TWO_48
    case Simulation(q, b, _) => LoopViable(c, q, ops, |b.packed| + 1) && q.now < TWO_48
    case OpHash(q, b, _) =>
      LoopViable(c, q, ops, |b.packed| + 1) && (|b.packed| + 1 < |ops| ==> q.now < TWO_48)
    case GasEstimate(q, _) => Affordable(c, q, ops)
    case LockWait(_) => true
    case NonceRead(_, _) => true
    case Signing(_, _) => true
    case Sending(_, _) => !t.flight.Refused?
    case Receipt(_, _) => true
    case Replay(_, _, _) => false
    case Done(_) => false
  }

  // --- The calls ahead ---------------------------------------------------------------

  const LOOP_CALLS: set<Call> := {DepositCall, SimulationCall, HashCall}
  const LAST_CALLS: set<Call> := {EstimateCall, NonceCall, SignCall}

  /** The calls to issue after the hash of the operation at hand. */
  function AfterHash(r: Request, b: Batch): set<Call> {
    if |b.packed| + 1 < |r.ops| then LOOP_CALLS + LAST_CALLS else LAST_CALLS
  }

  /** Not yet signed. */
  predicate Unsigned(t: Task) {
    !t.stage.Sending? && !t.stage.Receipt? && !t.stage.Replay? && !t.stage.Done?
  }

  /** The calls yet to be issued before there is a signature. */
  function ToSign(t: Task): set<Call> {
    match t.stage
    case Arrived => {BaseFeeCall, TipCall} + LOOP_CALLS + LAST_CALLS
    case BaseFee => {TipCall} + LOOP_CALLS + LAST_CALLS
    case SuggestedTip(_) => LOOP_CALLS + LAST_CALLS
    case Deposit(_, b, _, _) => {SimulationCall, HashCall} + AfterHash(t.request, b)
    case Simulation(_, b, _) => {HashCall} + AfterHash(t.request, b)
    case OpHash(_, b, _) => AfterHash(t.request, b)
    case GasEstimate(_, _) => {NonceCall, SignCall}
    case LockWait(_) => {NonceCall, SignCall}
    case NonceRead(_, _) => {SignCall}
    case _ => {}
  }

  /** ... before there is a response. */
  function ToSucceed(t: Task): set<Call> {
    if t.stage.Sending? then {ReceiptCall}
    else if Unsigned(t) && t.request.submit then ToSign(t) + {SendCall, ReceiptCall}
    else ToSign(t)
  }

  /** From `t` to `t'` exactly the call `t'` is suspended at was issued. */
  predicate Issues(t: Task, t': Task) {
    && (Unsigned(t') ==> ToSign(t) == ToSign(t') + Pending(t'.stage))
    && (Unsigned(t') || t'.stage.Sending? || t'.stage.Receipt? ==>
          ToSucceed(t) == ToSucceed(t') + Pending(t'.stage))
  }

  lemma NextOpIssues(c: Config, t: Task, q: Quote, b: Batch)
    requires |b.packed| <= |t.request.ops| && t.request.ops != []
    requires || (t.stage.SuggestedTip? && b.packed == [])
             || (t.stage.OpHash? && |b.packed| == |t.stage.batch.packed| + 1)
    ensures Issues(t, NextOp(c, t, q, b))
  {
    hide Pack, QuotePrefund, CheckPerOpFees;
  }

  lemma LoopIssues(c: Config, t: Task, ev: Event)
    requires TaskOk(c, t) && Expects(t, ev) && (ev.TipIs? || ev.HashIs?)
    ensures Issues(t, Deliver(c, t, ev))
  {
    hide Issues, NextOp, Planned, Sound, Records, PerOpPass, Pack, ToSign, ToSucceed;
    if ev.TipIs? && ev.tip.Ok? {
      NextOpIssues(c, t, Quote(t.stage.baseFee, ev.tip.value, ev.now), EMPTY_BATCH);
    } else if ev.HashIs? && ev.hash.Ok? {
      var b := Admit(t.stage.batch, t.request.ops[|t.stage.batch.packed|], t.stage.packed, ev.hash.value);
      NextOpIssues(c, t, t.stage.quote, b);
    } else {
      FailIssues(t, Deliver(c, t, ev));
    }
  }

  lemma FailIssues(t: Task, t': Task)
    requires t'.stage.Done?
    ensures Issues(t, t')
  {
  }

  lemma BuildIssues(c: Config, t: Task, ev: Event)
    requires TaskOk(c, t) && Expects(t, ev) && Builds(ev)
    ensures Issues(t, Deliver(c, t, ev))
  {
    hide TaskOk, NextOp, TakeHash, Simulate, CompareDeposit, ChooseOuterFees, GasWithMargin, TakeReceipt, TakeReplay;
    if ev.TipIs? || ev.HashIs? {
      LoopIssues(c, t, ev);
    }
  }

  lemma DeliverIssues(c: Config, t: Task, ev: Event)
    requires TaskOk(c, t) && Expects(t, ev)
    ensures Issues(t, Deliver(c, t, ev))
  {
    hide TaskOk, NextOp, TakeDeposit, TakeSimulation, TakeHash, TakeEstimate, OuterTx, ResponseTo;
    if Builds(ev) {
      BuildIssues(c, t, ev);
    }
  }

  // --- Whatever the answer, only a viable request becomes a viable one -------------------

  /** Entering the loop body keeps what is viable, and reveals what is not. */
  lemma NextOpViable(c: Config, t: Task, q: Quote, b: Batch)
    requires |b.packed| <= |t.request.ops| && t.request.ops != []
    ensures var ops := t.request.ops;
            Viable(c, NextOp(c, t, q, b)) <==>
            && LoopViable(c, q, ops, |b.packed|)
            && (|b.packed| < |ops| ==> q.now < TWO_48)
  {
    hide Pack, QuotePrefund, CheckPerOpFees, BatchFees;
    var i, ops := |b.packed|, t.request.ops;
    if i < |ops| {
      assert OpsViable(c, q.baseFee, ops, i) <==>
             OpViable(c, q.baseFee, i, ops[i]) && OpsViable(c, q.baseFee, ops, i + 1);
    }
  }

  lemma CheaperIsViable(c: Config, baseFee: U256, ops: seq<UserOp>)
    requires OpsViable(c, baseFee, ops, 0)
    ensures OpsViable(c, 0, ops, 0)
  {
    hide Pack, QuotePrefund;
    forall j | 0 <= j < |ops| ensures OpViable(c, 0, j, ops[j]) {
      assert OpViable(c, baseFee, j, ops[j]);
    }
  }

  /** No validity window reaches past 2^48. */
  lemma AcceptedNow(answer: Answer<ReturnInfo>, now: U64)
    requires Simulate(answer, now).Ok?
    ensures now < TWO_48
  {
    hide Simulate;
    assert answer.Ok? by { SimulatedIsAnswered(answer, now); }
    AcceptsIff(answer.value, now);
  }

  lemma SimulatedIsAnswered(answer: Answer<ReturnInfo>, now: U64)
    requires Simulate(answer, now).Ok?
    ensures answer.Ok?
  {
  }

  lemma BackFromHash(c: Config, t: Task, hash: Answer<UserOpHash>)
    requires TaskOk(c, t) && Expects(t, HashIs(hash)) && Viable(c, TakeHash(c, t, hash))
    ensures Viable(c, t)
  {
    hide NextOp, Planned, Sound, Records, PerOpPass, Pack, LoopViable, BatchFees, CheckPerOpFees;
    var b := t.stage.batch;
    NextOpViable(c, t, t.stage.quote, Admit(b, t.request.ops[|b.packed|], t.stage.packed, hash.value));
  }

  lemma BackFromTip(c: Config, t: Task, tip: U256, now: U64)
    requires TaskOk(c, t) && t.stage.SuggestedTip?
    requires Viable(c, NextOp(c, t, Quote(t.stage.baseFee, tip, now), EMPTY_BATCH))
    ensures Viable(c, t)
  {
    hide NextOp, Planned, Sound, Absorbed, OpsViable, BatchFees;
    NextOpViable(c, t, Quote(t.stage.baseFee, tip, now), EMPTY_BATCH);
  }

  lemma BackFromEstimate(c: Config, t: Task, estimate: Answer<U64>)
    requires TaskOk(c, t) && t.stage.GasEstimate? && Viable(c, TakeEstimate(c, t, estimate))
    ensures Viable(c, t)
  {
    hide Planned, Sound, Records, PerOpPass, BatchFees, ChooseOuterFees, GasWithMargin;
    var b, ops := t.stage.batch, t.request.ops;
    assert ops[..|b.packed|] == ops;
    RecordedFees(c, t.stage.quote, b, ops);
  }

  lemma BackViable(c: Config, t: Task, ev: Event)
    requires TaskOk(c, t) && Expects(t, ev) && Viable(c, Deliver(c, t, ev))
    ensures Viable(c, t)
  {
    hide TaskOk, NextOp, TakeHash, TakeEstimate, Simulate, CompareDeposit, LoopViable, OpsViable;
    match ev {
      case BaseFeeIs(a) => CheaperIsViable(c, a.value, t.request.ops);
      case TipIs(a, now) => BackFromTip(c, t, a.value, now);
      case SimulationIs(a) => AcceptedNow(a, t.stage.quote.now);
      case HashIs(a) => BackFromHash(c, t, a);
      case EstimateIs(a) => BackFromEstimate(c, t, a);
      case _ =>
    }
  }

  // --- Suitable answers ----------------------------------------------------------------

  const NO_INFO := ReturnInfo(0, 0, 0, 0)
  const NO_HASH: Bytes32 := BigEndian.ToBE(0, 32)

  /** The most favourable answer to the await the request is suspended at. */
  function Lucky(t: Task): Event {
    match t.stage
    case Arrived => Started
    case BaseFee => BaseFeeIs(Ok(0))
    case SuggestedTip(_) => TipIs(Ok(0), 0)
    case Deposit(_, _, _, _) => DepositIs(Ok(MAX_U256))
    case Simulation(_, _, _) => SimulationIs(Ok(NO_INFO))
    case OpHash(_, _, packed) => HashIs(Ok(UserOpHash(packed, NO_HASH)))
    case GasEstimate(_, _) => EstimateIs(Ok(0))
    case LockWait(_) => LockGranted
    case NonceRead(_, _) => NonceTaken
    case Signing(_, _) => Signed
    case Sending(_, _) => SendAnswered(Transport)
    case Receipt(_, tx) => ReceiptIs(Ok(Some(ReceiptInfo(tx, 0, true))))
    case Replay(_, _, _) => ReplayIs(Ok(None))
    case Done(_) => Started
  }

  /** Free tips are always affordable. */
  lemma NoTipIsAffordable(c: Config, baseFee: U256, ops: seq<UserOp>)
    requires ops != [] && OpsViable(c, baseFee, ops, 0)
    ensures Affordable(c, Quote(baseFee, 0, 0), ops)
  {
    hide Pack, QuotePrefund, BatchFees;
    forall i | 0 <= i < |ops| ensures CheckPerOpFees(c, i, ops[i], baseFee).Ok? {
      assert OpViable(c, baseFee, i, ops[i]);
    }
    if BatchFees(c, baseFee, 0, ops).Err? {
      LateRejectionCause(c, baseFee, 0, ops);
    }
  }

  lemma LuckyTip(c: Config, t: Task)
    requires TaskOk(c, t) && t.stage.SuggestedTip? && Viable(c, t)
    ensures Viable(c, NextOp(c, t, Quote(t.stage.baseFee, 0, 0), EMPTY_BATCH))
  {
    hide NextOp, Planned, Sound, Absorbed, OpsViable, Affordable;
    NoTipIsAffordable(c, t.stage.baseFee, t.request.ops);
    NextOpViable(c, t, Quote(t.stage.baseFee, 0, 0), EMPTY_BATCH);
  }

  lemma LuckyHash(c: Config, t: Task)
    requires TaskOk(c, t) && t.stage.OpHash? && Viable(c, t)
    ensures Viable(c, TakeHash(c, t, Ok(UserOpHash(t.stage.packed, NO_HASH))))
  {
    hide NextOp, Planned, Sound, Records, PerOpPass, Pack, LoopViable, BatchFees, CheckPerOpFees;
    var b := t.stage.batch;
    NextOpViable(c, t, t.stage.quote,
                 Admit(b, t.request.ops[|b.packed|], t.stage.packed, UserOpHash(t.stage.packed, NO_HASH)));
  }

  lemma LuckyEstimate(c: Config, t: Task)
    requires TaskOk(c, t) && t.stage.GasEstimate? && Viable(c, t)
    ensures Viable(c, TakeEstimate(c, t, Ok(0)))
  {
    hide Planned, Sound, Records, PerOpPass, BatchFees, ChooseOuterFees, GasWithMargin;
    var b, ops := t.stage.batch, t.request.ops;
    assert ops[..|b.packed|] == ops;
    RecordedFees(c, t.stage.quote, b, ops);
  }

  lemma LuckySimulation(now: U64)
    requires now < TWO_48
    ensures Simulate(Ok(NO_INFO), now).Ok?
  {
    hide Simulate;
    AcceptsIff(NO_INFO, now);
  }

  lemma FeesFit(c: Config, t: Task)
    requires TaskOk(c, t) && t.stage.NonceRead?
    ensures t.stage.plan.cap < TWO_128 && t.stage.plan.tip < TWO_128
  {
    hide Planned, Sound, SoundResponse, Absorbed, Examining;
    PlannedIsSound(c, t.request, t.stage.plan, 0);
  }

  lemma LuckyBuild(c: Config, t: Task)
    requires TaskOk(c, t) && Viable(c, t) && Expects(t, Lucky(t)) && Builds(Lucky(t))
    ensures Viable(c, Deliver(c, t, Lucky(t)))
  {
    hide TaskOk, NextOp, TakeHash, TakeEstimate, Simulate, LoopViable, OpsViable;
    match t.stage {
      case SuggestedTip(_) => LuckyTip(c, t);
      case Simulation(q, _, _) => LuckySimulation(q.now);
      case OpHash(_, _, _) => LuckyHash(c, t);
      case GasEstimate(_, _) => LuckyEstimate(c, t);
      case _ =>
    }
  }

  /** The favourable answer keeps a viable request viable, up to the response. */
  lemma LuckyViable(c: Config, t: Task)
    requires TaskOk(c, t) && Viable(c, t) && Expects(t, Lucky(t))
    ensures Viable(c, Deliver(c, t, Lucky(t))) || Succeeded(Deliver(c, t, Lucky(t)))
  {
    hide TaskOk, NextOp, TakeDeposit, TakeSimulation, TakeHash, TakeEstimate, OpsViable, LoopViable;
    if Builds(Lucky(t)) {
      LuckyBuild(c, t);
    } else if t.stage.NonceRead? {
      FeesFit(c, t);
    }
  }
}
