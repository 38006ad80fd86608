/** The build of one request in its sequential form, shown to be one run of the protocol. */
module Bundling {
  import opened Types
  import opened Packing
  import opened Validation
  import opened Errors
  import opened Fees
  import opened Prefund
  import opened Pipeline
  import opened Receipts
  import opened Tasks
  import opened Protocol
  import Guarantees

  /** Everything the outside world will answer during one build. */
  datatype Script = Script(
    baseFee: Answer<U256>,
    suggestedTip: Answer<U256>,
    now: U64,
    ops: seq<OpAnswers>,
    estimate: Answer<U64>,
    nonceFailure: Option<ProviderError>,
    signFailure: Option<SignerError>,
    sendFailure: Option<ProviderError>,
    receipts: Environment,
    replay: Answer<Option<RevertReason>>)

  /** Any call may complete at once, so that a whole build fits in one poll. */
  predicate AtOnce(w: World) {
    w.eager == EVERY_CALL
  }

  // --- A request that has the bundler for itself -----------------------------------

  ghost function Alone(w: World, t: Task): State {
    State([t], if t.guard then Some(0) else None, false, w.firstNonce, [])
  }

  /** ... after its transaction has been accepted. */
  ghost function Landed(w: World, t: Task, tx: Tx): State {
    State([t], if t.guard then Some(0) else None, false, w.firstNonce + 1, [Entry(0, tx)])
  }

  ghost function At(r: Request, stage: Stage, guard: bool): Task {
    Task(r, stage, true, true, guard, NotSent, 0)
  }

  ghost function Failed(r: Request, e: BundlerError): Task {
    Task(r, Done(Returned(Err(e))), false, false, false, NotSent, 0)
  }

  lemma AloneStart(w: World, r: Request)
    ensures Reachable(w, Alone(w, Polled(NewTask(r), false)))
  {
    hide Reachable;
    EmptyReachable(w);
    ReachStep(w, Init(w), Arrive(r));
    assert [] + [NewTask(r)] == [NewTask(r)];
    ReachStep(w, Alone(w, NewTask(r)), Poll(0));
    assert [NewTask(r)][0 := Polled(NewTask(r), false)] == [Polled(NewTask(r), false)];
  }

  lemma AloneStep(w: World, t: Task, ev: Event)
    requires Reachable(w, Alone(w, t)) && AtOnce(w) && t.running && Expects(t, ev) && (ev.LockGranted? ==> !t.guard)
    ensures Reachable(w, Alone(w, Deliver(w.config, t, ev)))
  {
    hide Reachable, Deliver;
    ReachStep(w, Alone(w, t), Run(0, ev));
    assert [t][0 := Deliver(w.config, t, ev)] == [Deliver(w.config, t, ev)];
  }

  lemma LandedStep(w: World, t: Task, tx: Tx, ev: Event)
    requires Reachable(w, Landed(w, t, tx)) && AtOnce(w) && t.running && Expects(t, ev) && !ev.LockGranted?
    ensures Reachable(w, Landed(w, Deliver(w.config, t, ev), tx))
  {
    hide Reachable, Deliver;
    RunGuard(w, t, ev);
    ReachStep(w, Landed(w, t, tx), Run(0, ev));
    assert [t][0 := Deliver(w.config, t, ev)] == [Deliver(w.config, t, ev)];
  }

  // --- The loop, operation by operation ---------------------------------------------

  ghost function LoopTask(c: Config, r: Request, q: Quote, b: Batch): Task {
    NextOp(c, At(r, Arrived, false), q, b)
  }

  lemma CollectedLength(c: Config, q: Quote, ops: seq<UserOp>, answers: seq<OpAnswers>, n: nat)
    requires |answers| == |ops| && n <= |ops| && AllPass(c, q, ops, answers, n)
    ensures |Collected(c, q, ops, answers, n).packed| == n
  {
    CollectedRecords(c, q, ops, answers, n);
  }

  /** Where the loop stands on an operation it has not rejected synchronously. */
  lemma LoopDeposit(c: Config, r: Request, q: Quote, b: Batch)
    requires |b.packed| < |r.ops|
    requires var op := r.ops[|b.packed|];
             && CheckPerOpFees(c, |b.packed|, op, q.baseFee).Ok? && Pack(op).Ok?
             && QuotePrefund(op, Pack(op).value).Ok?
    ensures var op := r.ops[|b.packed|];
            LoopTask(c, r, q, b) ==
            At(r, Deposit(q, b, Pack(op).value, QuotePrefund(op, Pack(op).value).value), false)
  {
    hide Pack, QuotePrefund;
  }

  /** One full turn of the loop on an operation that passes. */
  lemma LoopTurn(w: World, r: Request, q: Quote, b: Batch, a: OpAnswers)
    requires AtOnce(w) && |b.packed| < |r.ops|
    requires Passes(w.config, q, |b.packed|, r.ops[|b.packed|], a)
    requires Reachable(w, Alone(w, LoopTask(w.config, r, q, b)))
    ensures Pack(r.ops[|b.packed|]).Ok? && a.hash(Pack(r.ops[|b.packed|]).value).Ok?
    ensures var packed := Pack(r.ops[|b.packed|]).value;
            Reachable(w, Alone(w, LoopTask(w.config, r, q, Admit(b, r.ops[|b.packed|], packed,
                                                             UserOpHash(packed, a.hash(packed).value)))))
  {
    hide Reachable, Pack, QuotePrefund, Simulate, Passes, NextOp;
    var c, op := w.config, r.ops[|b.packed|];
    PassesMeans(c, q, |b.packed|, op, a);
    var p := Pack(op).value;
    var due := QuotePrefund(op, p).value;
    LoopDeposit(c, r, q, b);
    AloneStep(w, At(r, Deposit(q, b, p, due), false), DepositIs(a.deposit(due.sponsor)));
    AloneStep(w, At(r, Simulation(q, b, p), false), SimulationIs(a.simulation(p)));
    AloneStep(w, At(r, OpHash(q, b, p), false), HashIs(Asked(p, a.hash(p))));
    NextOpIgnoresStage(c, r, q, Admit(b, op, p, UserOpHash(p, a.hash(p).value)), OpHash(q, b, p));
  }

  lemma NextOpIgnoresStage(c: Config, r: Request, q: Quote, b: Batch, stage: Stage)
    ensures NextOp(c, At(r, stage, false), q, b) == LoopTask(c, r, q, b)
  {
    hide Pack, QuotePrefund;
  }

  /** After `n` passing operations the request stands where the gathered batch says. */
  lemma {:induction false} LoopReaches(w: World, r: Request, q: Quote, answers: seq<OpAnswers>, n: nat)
    requires AtOnce(w) && |answers| == |r.ops| && n <= |r.ops| && AllPass(w.config, q, r.ops, answers, n)
    requires Reachable(w, Alone(w, LoopTask(w.config, r, q, EMPTY_BATCH)))
    ensures Reachable(w, Alone(w, LoopTask(w.config, r, q, Collected(w.config, q, r.ops, answers, n))))
  {
    hide Reachable, LoopTask, Pack, Passes;
    if n > 0 {
      LoopReaches(w, r, q, answers, n - 1);
      CollectedLength(w.config, q, r.ops, answers, n - 1);
      LoopTurn(w, r, q, Collected(w.config, q, r.ops, answers, n - 1), answers[n - 1]);
    }
  }

  /** A failing operation ends the request with the first failing check's error. */
  lemma LoopFails(w: World, r: Request, q: Quote, b: Batch, a: OpAnswers, check: Check, e: BundlerError)
    requires AtOnce(w) && |b.packed| < |r.ops|
    requires Reports(w.config, q, |b.packed|, r.ops[|b.packed|], a, check, e)
    requires Reachable(w, Alone(w, LoopTask(w.config, r, q, b)))
    ensures Reachable(w, Alone(w, Failed(r, e)))
  {
    hide Reachable, Pack, QuotePrefund, Simulate;
    var c, i, op := w.config, |b.packed|, r.ops[|b.packed|];
    assert check.FeePolicy? || check.Packable? || Failure(c, q, i, op, a, Packable) == None;
    if check.FeePolicy? || check.Packable? {
      LoopFailsEarly(c, r, q, b, a, check, e);
    } else if QuotePrefund(op, Pack(op).value).Err? {
      LoopFailsEarly(c, r, q, b, a, check, e);
    } else {
      var p := Pack(op).value;
      var due := QuotePrefund(op, p).value;
      assert Failure(c, q, i, op, a, FeePolicy) == None;
      LoopDeposit(c, r, q, b);
      AloneStep(w, At(r, Deposit(q, b, p, due), false), DepositIs(a.deposit(due.sponsor)));
      if !check.Funded? {
        assert Failure(c, q, i, op, a, Funded) == None;
        AloneStep(w, At(r, Simulation(q, b, p), false), SimulationIs(a.simulation(p)));
        if check.Hashed? {
          assert Failure(c, q, i, op, a, Simulated) == None;
          AloneStep(w, At(r, OpHash(q, b, p), false), HashIs(Asked(p, a.hash(p))));
        }
      }
    }
  }

  lemma LoopFailsEarly(c: Config, r: Request, q: Quote, b: Batch, a: OpAnswers, check: Check, e: BundlerError)
    requires |b.packed| < |r.ops| && Reports(c, q, |b.packed|, r.ops[|b.packed|], a, check, e)
    requires || check.FeePolicy? || check.Packable?
             || (Pack(r.ops[|b.packed|]).Ok? &&
                 QuotePrefund(r.ops[|b.packed|], Pack(r.ops[|b.packed|]).value).Err?)
    ensures LoopTask(c, r, q, b) == Failed(r, e)
  {
    hide Pack, QuotePrefund, Simulate;
    assert check.FeePolicy? || Failure(c, q, |b.packed|, r.ops[|b.packed|], a, FeePolicy) == None;
    assert check.Rank() <= 2 || Failure(c, q, |b.packed|, r.ops[|b.packed|], a, Funded) == None;
  }

  // --- The build ---------------------------------------------------------------------

  /** A loop verdict, read off the protocol. */
  lemma LoopVerdict(w: World, r: Request, q: Quote, answers: seq<OpAnswers>, v: Result<Batch, BundlerError>)
    requires AtOnce(w) && |answers| == |r.ops|
    requires Reachable(w, Alone(w, LoopTask(w.config, r, q, EMPTY_BATCH)))
    requires v.Ok? ==> AllPass(w.config, q, r.ops, answers, |r.ops|)
                       && v.value == Collected(w.config, q, r.ops, answers, |r.ops|)
    requires v.Err? ==> exists k, check :: FirstFailure(w.config, q, r.ops, answers, k, check, v.error)
    ensures v.Ok? ==> Reachable(w, Alone(w, At(r, GasEstimate(q, v.value), false)))
    ensures v.Err? ==> Reachable(w, Alone(w, Failed(r, v.error)))
  {
    hide Reachable, Passes, Reports, Pack, QuotePrefund;
    var c := w.config;
    if v.Ok? {
      LoopReaches(w, r, q, answers, |r.ops|);
      CollectedLength(c, q, r.ops, answers, |r.ops|);
    } else {
      var k: nat, check :| FirstFailure(c, q, r.ops, answers, k, check, v.error);
      LoopReaches(w, r, q, answers, k);
      CollectedLength(c, q, r.ops, answers, k);
      LoopFails(w, r, q, Collected(c, q, r.ops, answers, k), answers[k], check, v.error);
    }
  }

  /** The stage a planned request enters: the lock queue, or the nonce query in sign-only mode. */
  ghost function PlannedStage(r: Request, p: Plan): Stage {
    if r.submit then LockWait(p) else NonceRead(p, None)
  }

  ghost function QuoteOf(a: Script): Quote
    requires a.baseFee.Ok? && a.suggestedTip.Ok?
  {
    Quote(a.baseFee.value, a.suggestedTip.value, a.now)
  }

  /** The batch deserves a transaction: it is sane, every query is answered, every operation
      passes every check, and the outer fees can be chosen. */
  ghost predicate Plannable(c: Config, r: Request, a: Script)
    requires |a.ops| == |r.ops|
  {
    && Sane(c, r)
    && a.baseFee.Ok? && a.suggestedTip.Ok? && a.estimate.Ok?
    && AllPass(c, QuoteOf(a), r.ops, a.ops, |r.ops|)
    && BatchFees(c, a.baseFee.value, a.suggestedTip.value, r.ops).Ok?
  }

  /** ... and nothing stands in the way of signing it. */
  ghost predicate Signable(c: Config, r: Request, a: Script)
    requires |a.ops| == |r.ops|
  {
    Plannable(c, r, a) && a.nonceFailure.None? && a.signFailure.None?
  }

  /** The response is the one the answers call for: every operation passes the fee policy, the
      fees are the declarative verdict on the batch, the gas limit the margin over the estimate,
      and hash `i` the provider's answer about `pack(ops[i])`. */
  ghost predicate Answers(c: Config, r: Request, a: Script, gas: U64, tip: U256, cap: U256, hashes: seq<UserOpHash>)
    requires |a.ops| == |r.ops|
  {
    && Plannable(c, r, a)
    && FeesAccept(c, a.baseFee.value, a.suggestedTip.value, r.ops)
    && BatchFees(c, a.baseFee.value, a.suggestedTip.value, r.ops) == Ok(OuterFees(tip, cap))
    && gas == GasWithMargin(a.estimate.value, c.gasMarginPct)
    && |hashes| == |r.ops|
    && forall i :: 0 <= i < |r.ops| ==>
         Pack(r.ops[i]).Ok? &&
         Asked(Pack(r.ops[i]).value, a.ops[i].hash(Pack(r.ops[i]).value)) == Ok(hashes[i])
  }

  ghost predicate AnswersPlan(c: Config, r: Request, a: Script, p: Plan)
    requires |a.ops| == |r.ops|
  {
    Answers(c, r, a, p.gas, p.tip, p.cap, p.batch.hashes) && PacksTo(r.ops, p.batch.packed)
  }

  /** The first obstacle before the lock, in the order of the code, and the error it calls for. */
  ghost predicate Rejected(c: Config, r: Request, a: Script, e: BundlerError)
    requires |a.ops| == |r.ops|
  {
    if r.chainId != c.chainId then e == WrongChainId(c.chainId, r.chainId)
    else if r.ops == [] then e == EmptyBatch
    else if |r.ops| > c.maxBatchSize then e == BatchTooLarge(|r.ops|, c.maxBatchSize)
    else if a.baseFee.Err? then e == ProviderFault(a.baseFee.error)
    else if a.suggestedTip.Err? then e == ProviderFault(a.suggestedTip.error)
    else if !AllPass(c, QuoteOf(a), r.ops, a.ops, |r.ops|) then
      exists k, check :: FirstFailure(c, QuoteOf(a), r.ops, a.ops, k, check, e)
    else if a.estimate.Err? then e == ProviderFault(a.estimate.error)
    else
      && BatchFees(c, a.baseFee.value, a.suggestedTip.value, r.ops).Err?
      && e == BatchFees(c, a.baseFee.value, a.suggestedTip.value, r.ops).error
  }

  /** The sanity errors mean what they say: no later obstacle produces one. */
  lemma SanityErrors(c: Config, r: Request, a: Script, e: BundlerError)
    requires |a.ops| == |r.ops| && Rejected(c, r, a, e)
    ensures e.WrongChainId? <==> r.chainId != c.chainId
    ensures e.EmptyBatch? <==> r.chainId == c.chainId && r.ops == []
    ensures e.BatchTooLarge? <==> r.chainId == c.chainId && r.ops != [] && |r.ops| > c.maxBatchSize
    ensures e.FeeCapTooLow? && e.opIndex == OUTER && |r.ops| <= OUTER ==>
              && Sane(c, r) && a.baseFee.Ok? && a.suggestedTip.Ok? && a.estimate.Ok?
              && AllPass(c, QuoteOf(a), r.ops, a.ops, |r.ops|)
  {
    hide Pack, QuotePrefund, Simulate, AllPass;
  }

  /** The transaction is the one the request and the answers call for, at this nonce. */
  ghost predicate IsPlanned(c: Config, r: Request, a: Script, nonce: nat, tx: Tx)
    requires |a.ops| == |r.ops|
  {
    && Plannable(c, r, a)
    && tx.maxPriorityFeePerGas == BatchFees(c, a.baseFee.value, a.suggestedTip.value, r.ops).value.tip
    && tx.maxFeePerGas == BatchFees(c, a.baseFee.value, a.suggestedTip.value, r.ops).value.cap
    && tx.gasLimit == GasWithMargin(a.estimate.value, c.gasMarginPct)
    && tx.chainId == c.chainId && tx.nonce == nonce && tx.to == c.entryPoint && tx.beneficiary == c.signer
    && PacksTo(r.ops, tx.ops)
  }

  /** How the answers that follow an accepted send decide the result. */
  ghost predicate ReceiptVerdict(receipt: Answer<Option<ReceiptInfo>>, replay: Answer<Option<RevertReason>>, tx: Tx,
                                 v: Result<Response, BundlerError>)
  {
    if receipt.Err? then v == Err(ProviderFault(receipt.error))
    else if receipt.value.None? then v == Err(ReceiptTimeout(tx))
    else if receipt.value.value.success then v.Ok? && v.value.hash == tx
    else if replay.Err? then v == Err(ProviderFault(replay.error))
    else
      var reason := if replay.value.Some? then replay.value.value else Unknown([]);
      v == Err(HandleOpsReverted(tx, receipt.value.value.blockNumber, reason))
  }

  /** What a build does for every request and all answers: which result, and which transactions
      are accepted. */
  ghost predicate Verdict(c: Config, r: Request, a: Script, nonce: nat, sent: seq<Tx>,
                          v: Result<Response, BundlerError>)
    requires |a.ops| == |r.ops|
  {
    if !Plannable(c, r, a) then v.Err? && Rejected(c, r, a, v.error) && sent == []
    else if a.nonceFailure.Some? then v == Err(ProviderFault(a.nonceFailure.value)) && sent == []
    else if a.signFailure.Some? then v == Err(SignerFault(a.signFailure.value)) && sent == []
    else if !r.submit then v.Ok? && IsPlanned(c, r, a, nonce, v.value.hash) && sent == []
    else if a.sendFailure.Some? then v == Err(ProviderFault(a.sendFailure.value)) && sent == []
    else
      && |sent| == 1 && IsPlanned(c, r, a, nonce, sent[0])
      && ReceiptVerdict(ReceiptAnswer(a.receipts, RECEIPT_TIMEOUT, 0), a.replay, sent[0], v)
  }

  lemma PlanIsSane(c: Config, r: Request, a: Script)
    requires |a.ops| == |r.ops| && Plannable(c, r, a)
    ensures Sane(c, r)
  {
    hide AllPass;
  }

  lemma PlanIsPlanned(c: Config, r: Request, a: Script, p: Plan, nonce: nat)
    requires |a.ops| == |r.ops| && AnswersPlan(c, r, a, p)
    ensures IsPlanned(c, r, a, nonce, OuterTx(c, p, nonce))
  {
    hide Plannable, PacksTo, BatchFees, GasWithMargin;
  }

  /** A build whose first failing operation stumbles over an unanswered question reports an
      internal error, not a rejection. */
  lemma OutageVerdict(c: Config, r: Request, a: Script, nonce: nat, sent: seq<Tx>, v: Result<Response, BundlerError>,
                      k: nat, check: Check, e: BundlerError)
    requires |a.ops| == |r.ops| && Verdict(c, r, a, nonce, sent, v)
    requires Sane(c, r) && a.baseFee.Ok? && a.suggestedTip.Ok?
    requires FirstFailure(c, QuoteOf(a), r.ops, a.ops, k, check, e) && Pack(r.ops[k]).Ok?
    requires var p := Pack(r.ops[k]).value;
             || (check.Funded? && a.ops[k].deposit(SponsorOf(p)).Err?
                 && (p.paymasterAndData == [] || |p.paymasterAndData| >= PAYMASTER_HEADER_LEN))
             || (check.Simulated? && a.ops[k].simulation(p).Err?)
             || check.Hashed?
    ensures v == Err(e) && Classify(e) == RpcError(-32603, None) && sent == []
  {
    hide Pack, Failure, AllPass, Reports, SponsorOf;
    assert Reports(c, QuoteOf(a), k, r.ops[k], a.ops[k], check, e);
    OutageReport(c, QuoteOf(a), k, r.ops[k], a.ops[k], check, e);
    FailureEnds(c, QuoteOf(a), r.ops, a.ops, k, check, e);
    var k', check' :| FirstFailure(c, QuoteOf(a), r.ops, a.ops, k', check', v.error);
    FirstFailureUnique(c, QuoteOf(a), r.ops, a.ops, k, check, e, k', check', v.error);
  }

  lemma BatchAnswers(ops: seq<UserOp>, answers: seq<OpAnswers>, b: Batch)
    requires |answers| == |ops| && Records(b, ops) && HashesFrom(answers, b)
    ensures |b.hashes| == |ops| && PacksTo(ops, b.packed)
    ensures forall i :: 0 <= i < |ops| ==>
              Pack(ops[i]).Ok? && Asked(Pack(ops[i]).value, answers[i].hash(Pack(ops[i]).value)) == Ok(b.hashes[i])
  {
    hide Pack;
    forall i | 0 <= i < |ops|
      ensures Pack(ops[i]).Ok? && Asked(Pack(ops[i]).value, answers[i].hash(Pack(ops[i]).value)) == Ok(b.hashes[i])
    {
      assert Pack(ops[i]) == Ok(b.packed[i]);
    }
  }

  lemma LoopRejects(c: Config, r: Request, a: Script, e: BundlerError)
    requires |a.ops| == |r.ops| && Sane(c, r) && a.baseFee.Ok? && a.suggestedTip.Ok?
    requires !AllPass(c, QuoteOf(a), r.ops, a.ops, |r.ops|)
    requires exists k, check :: FirstFailure(c, QuoteOf(a), r.ops, a.ops, k, check, e)
    ensures Rejected(c, r, a, e) && !e.WrongChainId? && !e.EmptyBatch? && !e.BatchTooLarge?
  {
    hide AllPass, FirstFailure;
    SanityErrors(c, r, a, e);
  }

  /** From the sanity checks to the fee choice: everything before the lock. */
  method Prepare(c: Config, r: Request, a: Script, ghost w: World) returns (v: Result<Plan, BundlerError>)
    requires w.config == c && AtOnce(w) && |a.ops| == |r.ops|
    ensures v.Ok? <==> Plannable(c, r, a)
    ensures v.Ok? ==> AnswersPlan(c, r, a, v.value)
    ensures v.Err? ==> Rejected(c, r, a, v.error)
    ensures v.Err? && v.error.WrongChainId? <==> r.chainId != c.chainId
    ensures v.Err? && v.error.EmptyBatch? <==> r.chainId == c.chainId && r.ops == []
    ensures v.Err? && v.error.BatchTooLarge? <==>
            r.chainId == c.chainId && r.ops != [] && |r.ops| > c.maxBatchSize
    ensures v.Ok? ==> Reachable(w, Alone(w, At(r, PlannedStage(r, v.value), false)))
    ensures v.Err? ==> Reachable(w, Alone(w, Failed(r, v.error)))
  {
    hide Reachable, NextOp, AllPass, Collected, FirstFailure, Records, HashesFrom, BatchFees, Pack, GasWithMargin;
    AloneStart(w, r);
    AloneStep(w, Polled(NewTask(r), false), Started);
    if r.chainId != c.chainId {
      return Err(WrongChainId(c.chainId, r.chainId));
    }
    if r.ops == [] {
      return Err(EmptyBatch);
    }
    if |r.ops| > c.maxBatchSize {
      return Err(BatchTooLarge(|r.ops|, c.maxBatchSize));
    }
    AloneStep(w, At(r, BaseFee, false), BaseFeeIs(a.baseFee));
    if a.baseFee.Err? {
      return Err(ProviderFault(a.baseFee.error));
    }
    AloneStep(w, At(r, SuggestedTip(a.baseFee.value), false), TipIs(a.suggestedTip, a.now));
    if a.suggestedTip.Err? {
      return Err(ProviderFault(a.suggestedTip.error));
    }
    var q := Quote(a.baseFee.value, a.suggestedTip.value, a.now);
    NextOpIgnoresStage(c, r, q, EMPTY_BATCH, SuggestedTip(a.baseFee.value));
    var batch := CollectOps(c, q, r.ops, a.ops);
    LoopVerdict(w, r, q, a.ops, batch);
    if batch.Err? {
      LoopRejects(c, r, a, batch.error);
      return Err(batch.error);
    }
    BatchAnswers(r.ops, a.ops, batch.value);
    AcceptedPaysFees(c, q, r.ops, a.ops);
    v := Choose(c, r, q, batch.value, a.estimate, w);
    if v.Err? {
      SanityErrors(c, r, a, v.error);
    }
  }

  /** Gas margin and outer fees. The minima are there because the batch is not empty. */
  method Choose(c: Config, r: Request, q: Quote, b: Batch, estimate: Answer<U64>, ghost w: World)
    returns (v: Result<Plan, BundlerError>)
    requires w.config == c && AtOnce(w) && r.ops != [] && Records(b, r.ops)
    requires Reachable(w, Alone(w, At(r, GasEstimate(q, b), false)))
    ensures v.Ok? <==> estimate.Ok? && BatchFees(c, q.baseFee, q.suggestedTip, r.ops).Ok?
    ensures estimate.Err? ==> v == Err(ProviderFault(estimate.error))
    ensures estimate.Ok? && v.Err? ==> v == Err(BatchFees(c, q.baseFee, q.suggestedTip, r.ops).error)
    ensures v.Ok? ==> && v.value.batch == b && v.value.gas == GasWithMargin(estimate.value, c.gasMarginPct)
                      && BatchFees(c, q.baseFee, q.suggestedTip, r.ops) == Ok(OuterFees(v.value.tip, v.value.cap))
    ensures v.Ok? ==> Reachable(w, Alone(w, At(r, PlannedStage(r, v.value), false)))
    ensures v.Err? ==> Reachable(w, Alone(w, Failed(r, v.error)))
  {
    hide Reachable, Records, ChooseOuterFees, BatchFees, GasWithMargin;
    RecordedFees(c, q, b, r.ops);
    AloneStep(w, At(r, GasEstimate(q, b), false), EstimateIs(estimate));
    if estimate.Err? {
      return Err(ProviderFault(estimate.error));
    }
    var gas := GasWithMargin(estimate.value, c.gasMarginPct);
    var fees := ChooseOuterFees(c, q.baseFee, q.suggestedTip, b.minTip.value, b.minCap.value);
    if fees.Err? {
      return Err(fees.error);
    }
    v := Ok(Plan(q, b, estimate.value, gas, fees.value.tip, fees.value.cap));
  }

  /** The execution layer the bundler assumes: it accepts any transaction it does not refuse and
      then counts it; a refused one leaves no trace. */
  class ExecutionLayer {
    var pending: nat
    var accepted: seq<Tx>

    constructor (firstNonce: nat)
      ensures pending == firstNonce && accepted == []
    {
      pending, accepted := firstNonce, [];
    }

    method SendRawTransaction(tx: Tx, failure: Option<ProviderError>) returns (r: Answer<TxHash>)
      modifies this
      ensures failure.None? ==> r == Ok(tx) && pending == old(pending) + 1 && accepted == old(accepted) + [tx]
      ensures failure.Some? ==> r == Err(failure.value) && pending == old(pending) && accepted == old(accepted)
    {
      if failure.Some? {
        return Err(failure.value);
      }
      accepted := accepted + [tx];
      pending := pending + 1;
      r := Ok(tx);
    }
  }

  class Bundler {
    const config: Config
    const layer: ExecutionLayer
    var locked: bool

    constructor (config: Config, layer: ExecutionLayer)
      ensures this.config == config && this.layer == layer && !locked
    {
      this.config, this.layer, locked := config, layer, false;
    }

    /** One uncontended build is one run of the protocol: it ends in a reachable state whose only
        request is finished with the returned result, and the execution layer and the lock are as
        that state says. What comes back is determined by the request and the script. */
    method BuildInner(r: Request, a: Script)
      returns (v: Result<Response, BundlerError>, ghost s: State)
      requires |a.ops| == |r.ops| && !locked
      modifies this`locked, layer
      ensures !locked
      ensures Reachable(World(config, old(layer.pending), EVERY_CALL, false), s)
      ensures |s.tasks| == 1 && s.tasks[0].request == r && s.tasks[0].stage == Done(Returned(v))
      ensures s.lock.None? && !s.cancelled
      ensures layer.pending == s.pending
      ensures layer.accepted == old(layer.accepted) + (if s.log == [] then [] else [s.log[0].tx]) && |s.log| <= 1
      ensures v.Ok? ==> Answers(config, r, a, v.value.gas, v.value.maxPriorityFeePerGas, v.value.maxFeePerGas,
                                v.value.userOpHashes)
      ensures !r.submit ==> (v.Ok? <==> Signable(config, r, a))
      ensures r.submit ==> (s.log != [] <==> Signable(config, r, a) && a.sendFailure.None?)
      ensures r.submit ==> (v.Ok? <==> Signable(config, r, a) && a.sendFailure.None? && Confirmed(a))
      ensures Verdict(config, r, a, old(layer.pending), if s.log == [] then [] else [s.log[0].tx], v)
      ensures v.Err? && v.error.WrongChainId? <==> r.chainId != config.chainId
      ensures v.Err? && v.error.EmptyBatch? <==> r.chainId == config.chainId && r.ops == []
      ensures v.Err? && v.error.BatchTooLarge? <==>
              r.chainId == config.chainId && r.ops != [] && |r.ops| > config.maxBatchSize
    {
      hide Reachable, Deliver, Answers, Plannable, Planned, Rejected, IsPlanned, ReceiptAnswer, PacksTo;
      ghost var w := World(config, layer.pending, EVERY_CALL, false);
      var plan := Prepare(config, r, a, w);
      if plan.Err? {
        s := Alone(w, Failed(r, plan.error));
        return Err(plan.error), s;
      }
      if r.submit {
        locked := true;
      }
      var tx := ReadNonceAndSign(config, r, plan.value, layer.pending, a.nonceFailure, a.signFailure, w);
      PlanFits(w, r, plan.value);
      PlanIsSane(config, r, a);
      PlanIsPlanned(config, r, a, plan.value, layer.pending);
      if tx.Err? {
        locked := false;
        s := Alone(w, Failed(r, tx.error));
        return Err(tx.error), s;
      }
      if !r.submit {
        v := Ok(ResponseTo(config, plan.value, tx.value));
        s := SignOnlyEnds(w, r, plan.value, tx.value);
        return;
      }
      var submitted := layer.SendRawTransaction(tx.value, a.sendFailure);
      locked := false;
      if submitted.Err? {
        s := RefusedEnds(w, r, plan.value, tx.value, submitted.error);
        return Err(ProviderFault(submitted.error)), s;
      }
      v, s := AwaitReceipt(config, r, plan.value, tx.value, a.receipts, a.replay, w);
    }

    /** The token is looked at first. Otherwise a build leaves the lock free, appends at most one
        transaction, at the pending nonce, and its result tells exactly whether it did. */
    method BuildSignedUserOpsTx(r: Request, a: Script, cancelled: bool)
      returns (v: Result<Response, BundlerError>)
      requires |a.ops| == |r.ops| && !locked
      modifies this`locked, layer
      ensures !locked
      ensures cancelled ==> v == Err(Cancelled) && layer.accepted == old(layer.accepted)
      ensures layer.pending - old(layer.pending) == |layer.accepted| - |old(layer.accepted)| <= 1
      ensures layer.accepted == old(layer.accepted)
              || (&& r.submit && |layer.accepted| == |old(layer.accepted)| + 1
                  && old(layer.accepted) <= layer.accepted
                  && layer.accepted[|old(layer.accepted)|].nonce == old(layer.pending))
      ensures v.Ok? ==> && SoundResponse(config, r, v.value)
                        && layer.accepted == old(layer.accepted) + (if r.submit then [v.value.hash] else [])
      ensures v.Ok? ==> Answers(config, r, a, v.value.gas, v.value.maxPriorityFeePerGas, v.value.maxFeePerGas,
                                v.value.userOpHashes)
      ensures !r.submit && !cancelled ==> (v.Ok? <==> Signable(config, r, a))
      ensures r.submit && !cancelled ==>
                && (layer.accepted != old(layer.accepted) <==> Signable(config, r, a) && a.sendFailure.None?)
                && (v.Ok? <==> Signable(config, r, a) && a.sendFailure.None? && Confirmed(a))
      ensures !cancelled ==>
                && |old(layer.accepted)| <= |layer.accepted|
                && Verdict(config, r, a, old(layer.pending), layer.accepted[|old(layer.accepted)|..], v)
      ensures v.Err? && NothingSentCode(Classify(v.error).code) ==> layer.accepted == old(layer.accepted)
      ensures v.Err? && Classify(v.error).txHash.Some? ==>
                layer.accepted == old(layer.accepted) + [Classify(v.error).txHash.value]
    {
      hide Reachable, SoundResponse, Answers, Plannable, Verdict;
      if cancelled {
        return Err(Cancelled);
      }
      ghost var w := World(config, layer.pending, EVERY_CALL, false);
      ghost var s;
      v, s := BuildInner(r, a);
      AloneHonest(w, s, v);
      AloneLog(w, s);
      assert layer.accepted[|old(layer.accepted)|..] == if s.log == [] then [] else [s.log[0].tx];
    }
  }

  /** In a single-request state the log tells what the result tells. */
  lemma AloneHonest(w: World, s: State, v: Result<Response, BundlerError>)
    requires Reachable(w, s) && |s.tasks| == 1 && |s.log| <= 1 && s.tasks[0].stage == Done(Returned(v))
    ensures v.Ok? ==> && SoundResponse(w.config, s.tasks[0].request, v.value)
                      && (if s.tasks[0].request.submit then |s.log| == 1 && s.log[0].tx == v.value.hash
                          else s.log == [])
    ensures v.Err? && NothingSentCode(Classify(v.error).code) ==> s.log == []
    ensures v.Err? && Classify(v.error).txHash.Some? ==>
              |s.log| == 1 && s.log[0].tx == Classify(v.error).txHash.value
  {
    hide Reachable, Sound, SoundResponse, Planned, Absorbed, Examining;
    ReachableInv(w, s);
    assert TaskOk(w.config, s.tasks[0]);
    if s.log != [] {
      assert s.log[0].task == 0;
    }
  }

  lemma AloneLog(w: World, s: State)
    requires Reachable(w, s) && |s.tasks| == 1 && |s.log| <= 1 && !s.cancelled && !w.dropsSends
    ensures s.pending == w.firstNonce + |s.log|
    ensures s.log != [] ==> s.tasks[0].request.submit && s.log[0].tx.nonce == w.firstNonce
  {
    hide Reachable;
    Guarantees.NoOrphans(w, s);
    Guarantees.NoncesInOrder(w, s);
    if s.log != [] {
      assert s.log[0].task == 0;
    }
  }

  ghost function Signer(r: Request, p: Plan, tx: Tx): Task {
    At(r, Signing(p, tx), r.submit)
  }

  /** Takes the pending nonce and signs, holding the lock in submit mode. */
  method ReadNonceAndSign(c: Config, r: Request, p: Plan, pending: nat, nonceFailure: Option<ProviderError>,
                          signFailure: Option<SignerError>, ghost w: World)
    returns (v: Result<Tx, BundlerError>)
    requires w.config == c && AtOnce(w) && pending == w.firstNonce
    requires Reachable(w, Alone(w, At(r, PlannedStage(r, p), false)))
    ensures v.Ok? ==> nonceFailure.None? && signFailure.None?
    ensures v.Err? && nonceFailure.None? && signFailure.None? ==> p.cap >= TWO_128 || p.tip >= TWO_128
    ensures nonceFailure.Some? ==> v == Err(ProviderFault(nonceFailure.value))
    ensures nonceFailure.None? && signFailure.Some? && p.cap < TWO_128 && p.tip < TWO_128 ==>
              v == Err(SignerFault(signFailure.value))
    ensures v.Ok? ==> v.value == OuterTx(c, p, pending) && Reachable(w, Alone(w, Signer(r, p, v.value)))
    ensures v.Err? ==> Reachable(w, Alone(w, Failed(r, v.error)))
  {
    hide Reachable;
    LockTaken(w, r, p);
    if nonceFailure.Some? {
      AloneStep(w, At(r, NonceRead(p, None), r.submit), NonceFailed(nonceFailure.value));
      return Err(ProviderFault(nonceFailure.value));
    }
    NonceAnswered(w, r, p);
    AloneStep(w, At(r, NonceRead(p, Some(pending)), r.submit), NonceTaken);
    if p.cap >= TWO_128 {
      return Err(InvalidUserOp(OUTER, OuterFeeCapExceedsU128));
    }
    if p.tip >= TWO_128 {
      return Err(InvalidUserOp(OUTER, OuterTipExceedsU128));
    }
    var tx := OuterTx(c, p, pending);
    if signFailure.Some? {
      AloneStep(w, Signer(r, p, tx), SignFailed(signFailure.value));
      return Err(SignerFault(signFailure.value));
    }
    v := Ok(tx);
  }

  /** A reachable plan has fees that fit in 128 bits, so the narrowing conversions succeed. */
  lemma PlanFits(w: World, r: Request, p: Plan)
    requires Reachable(w, Alone(w, At(r, PlannedStage(r, p), false)))
    ensures p.cap < TWO_128 && p.tip < TWO_128
  {
    hide Reachable, Planned;
    ReachableInv(w, Alone(w, At(r, PlannedStage(r, p), false)));
    assert TaskOk(w.config, Alone(w, At(r, PlannedStage(r, p), false)).tasks[0]);
    PlannedIsSound(w.config, r, p, 0);
  }

  lemma LockTaken(w: World, r: Request, p: Plan)
    requires AtOnce(w) && Reachable(w, Alone(w, At(r, PlannedStage(r, p), false)))
    ensures Reachable(w, Alone(w, At(r, NonceRead(p, None), r.submit)))
  {
    hide Reachable;
    if r.submit {
      AloneStep(w, At(r, LockWait(p), false), LockGranted);
    }
  }

  lemma NonceAnswered(w: World, r: Request, p: Plan)
    requires Reachable(w, Alone(w, At(r, NonceRead(p, None), r.submit)))
    ensures Reachable(w, Alone(w, At(r, NonceRead(p, Some(w.firstNonce)), r.submit)))
  {
    hide Reachable;
    var t, t' := At(r, NonceRead(p, None), r.submit), At(r, NonceRead(p, Some(w.firstNonce)), r.submit);
    ReachStep(w, Alone(w, t), NodeReads(0));
    assert [t][0 := t'] == [t'];
  }

  lemma SignOnlyEnds(w: World, r: Request, p: Plan, tx: Tx) returns (s: State)
    requires AtOnce(w) && !r.submit && Reachable(w, Alone(w, Signer(r, p, tx)))
    ensures Reachable(w, s) && |s.tasks| == 1 && s.log == [] && s.pending == w.firstNonce
    ensures s.lock.None? && !s.cancelled
    ensures s.tasks[0].request == r && s.tasks[0].stage == Done(Returned(Ok(ResponseTo(w.config, p, tx))))
  {
    hide Reachable;
    AloneStep(w, Signer(r, p, tx), Signed);
    s := Alone(w, Deliver(w.config, Signer(r, p, tx), Signed));
  }

  ghost function Sender(r: Request, p: Plan, tx: Tx): Task {
    Task(r, Sending(p, tx), true, true, true, InFlight(tx), 1)
  }

  lemma Broadcasts(w: World, r: Request, p: Plan, tx: Tx)
    requires AtOnce(w) && r.submit && Reachable(w, Alone(w, Signer(r, p, tx)))
    ensures Reachable(w, Alone(w, Sender(r, p, tx)))
  {
    hide Reachable;
    AloneStep(w, Signer(r, p, tx), Signed);
  }

  lemma RefusedEnds(w: World, r: Request, p: Plan, tx: Tx, e: ProviderError) returns (s: State)
    requires AtOnce(w) && r.submit && Reachable(w, Alone(w, Signer(r, p, tx)))
    ensures Reachable(w, s) && |s.tasks| == 1 && s.log == [] && s.pending == w.firstNonce
    ensures s.lock.None? && !s.cancelled
    ensures s.tasks[0].request == r && s.tasks[0].stage == Done(Returned(Err(ProviderFault(e))))
  {
    hide Reachable;
    Broadcasts(w, r, p, tx);
    var t := Sender(r, p, tx);
    var refused := t.(flight := Refused(tx));
    ReachStep(w, Alone(w, t), NodeRefuses(0));
    assert [t][0 := refused] == [refused];
    AloneStep(w, refused, SendAnswered(e));
    s := Alone(w, Deliver(w.config, refused, SendAnswered(e)));
  }

  ghost function Waiter(r: Request, stage: Stage, tx: Tx): Task {
    Task(r, stage, true, true, false, Accepted(tx), 1)
  }

  lemma Lands(w: World, r: Request, p: Plan, tx: Tx)
    requires AtOnce(w) && r.submit && Reachable(w, Alone(w, Signer(r, p, tx)))
    ensures Reachable(w, Landed(w, Waiter(r, Receipt(p, tx), tx), tx))
  {
    hide Reachable;
    Broadcasts(w, r, p, tx);
    var t := Sender(r, p, tx);
    var accepted := t.(flight := Accepted(tx));
    ReachStep(w, Alone(w, t), NodeAccepts(0));
    assert [t][0 := accepted] == [accepted] && [] + [Entry(0, tx)] == [Entry(0, tx)];
    LandedStep(w, accepted, tx, SendAnswered(Transport));
  }

  lemma ReceiptTaken(w: World, r: Request, p: Plan, tx: Tx, receipt: Answer<Option<ReceiptInfo>>)
    requires AtOnce(w) && Reachable(w, Landed(w, Waiter(r, Receipt(p, tx), tx), tx))
    ensures Reachable(w, Landed(w, TakeReceipt(w.config, Waiter(r, Receipt(p, tx), tx), receipt), tx))
  {
    hide Reachable;
    LandedStep(w, Waiter(r, Receipt(p, tx), tx), tx, ReceiptIs(receipt));
  }

  lemma ReplayTaken(w: World, r: Request, p: Plan, tx: Tx, block: U64, replay: Answer<Option<RevertReason>>)
    requires AtOnce(w) && Reachable(w, Landed(w, Waiter(r, Replay(p, tx, block), tx), tx))
    ensures Reachable(w, Landed(w, TakeReplay(Waiter(r, Replay(p, tx, block), tx), replay), tx))
  {
    hide Reachable;
    LandedStep(w, Waiter(r, Replay(p, tx, block), tx), tx, ReplayIs(replay));
  }

  /** A receipt of a transaction that did not revert. */
  predicate Confirms(receipt: Answer<Option<ReceiptInfo>>) {
    receipt.Ok? && receipt.value.Some? && receipt.value.value.success
  }

  /** The answer that ends the receipt wait is such a receipt. */
  predicate Confirmed(a: Script) {
    Confirms(ReceiptAnswer(a.receipts, RECEIPT_TIMEOUT, 0))
  }

  /** After an accepted send: poll for the receipt, and replay a reverted transaction. Each way to
      end is tied to the answer that ends the wait. */
  method AwaitReceipt(c: Config, r: Request, p: Plan, tx: Tx, env: Environment, replay: Answer<Option<RevertReason>>,
                      ghost w: World)
    returns (v: Result<Response, BundlerError>, ghost s: State)
    requires w.config == c && AtOnce(w) && r.submit && Reachable(w, Alone(w, Signer(r, p, tx)))
    ensures Reachable(w, s) && |s.tasks| == 1 && s.log == [Entry(0, tx)] && s.lock.None? && !s.cancelled
    ensures s.pending == w.firstNonce + 1
    ensures s.tasks[0].request == r && s.tasks[0].stage == Done(Returned(v))
    ensures v.Ok? ==> v.value == ResponseTo(c, p, tx)
    ensures var receipt := ReceiptAnswer(env, RECEIPT_TIMEOUT, 0);
            && (v.Ok? <==> Confirms(receipt))
            && (v == Err(ReceiptTimeout(tx)) <==> receipt == Ok(None))
            && (v.Err? && v.error.HandleOpsReverted? <==>
                receipt.Ok? && receipt.value.Some? && !receipt.value.value.success && replay.Ok?)
            && (v.Err? && v.error.HandleOpsReverted? ==>
                  && v.error.txHash == tx && v.error.blockNumber == receipt.value.value.blockNumber
                  && v.error.revert == (if replay.value.Some? then replay.value.value else Unknown([])))
            && ReceiptVerdict(receipt, replay, tx, v)
    ensures v == Err(ReceiptTimeout(tx)) ==>
              exists n :: FirstStop(env, 30_000_000_000, n) &&
                          PollEnd(env, 30_000_000_000, n) >= env.start + 30_000_000_000
    ensures v.Err? ==> !NothingSentCode(Classify(v.error).code) && Classify(v.error).txHash in {None, Some(tx)}
  {
    hide Reachable, Paced, Slept, ClassifyRevert, Deliver, ReceiptAnswer, FirstStop;
    Lands(w, r, p, tx);
    var receipt, naps, _ := WaitForReceipt(RECEIPT_TIMEOUT, env);
    assert FirstStop(env, 30_000_000_000, |naps|);
    ReceiptTaken(w, r, p, tx, receipt);
    s := Landed(w, TakeReceipt(c, Waiter(r, Receipt(p, tx), tx), receipt), tx);
    if receipt.Err? {
      return Err(ProviderFault(receipt.error)), s;
    }
    if receipt.value.None? {
      return Err(ReceiptTimeout(tx)), s;
    }
    if receipt.value.value.success {
      return Ok(ResponseTo(c, p, tx)), s;
    }
    var block := receipt.value.value.blockNumber;
    ReplayTaken(w, r, p, tx, block, replay);
    s := Landed(w, TakeReplay(Waiter(r, Replay(p, tx, block), tx), replay), tx);
    if replay.Err? {
      return Err(ProviderFault(replay.error)), s;
    }
    var reason := if replay.value.Some? then replay.value.value else Unknown([]);
    RevertsSpeak(reason);
    return Err(HandleOpsReverted(tx, block, reason)), s;
  }
}
