/** One request as an automaton. A request is a future: it advances only inside a poll, from
    one await to the next, and every await is answered by an event. */
module Tasks {
  import opened Types
  import opened Packing
  import opened Validation
  import opened Errors
  import opened Fees
  import opened Prefund
  import opened Pipeline
  import opened Receipts

  datatype Request = Request(ops: seq<UserOp>, chainId: U64, submit: bool)

  /** Everything decided before the nonce is read. */
  datatype Plan = Plan(quote: Quote, batch: Batch, estimate: U64, gas: U64, tip: U256, cap: U256)

  datatype Response = Response(
    hash: TxHash,
    to: Address,
    chainId: U64,
    gas: U64,
    maxFeePerGas: U256,
    maxPriorityFeePerGas: U256,
    userOpHashes: seq<UserOpHash>)

  /** `Abandoned`: the client dropped the request; `unsettled` records a send in flight then. */
  datatype Outcome =
    | Returned(result: Result<Response, BundlerError>)
    | Panicked
    | Abandoned(unsettled: bool)

  /** Where the request is suspended, with the values that are live there. */
  datatype Stage =
    | Arrived
    | BaseFee
    | SuggestedTip(baseFee: U256)
    | Deposit(quote: Quote, batch: Batch, packed: PackedUserOp, due: PrefundQuote)
    | Simulation(quote: Quote, batch: Batch, packed: PackedUserOp)
    | OpHash(quote: Quote, batch: Batch, packed: PackedUserOp)
    | GasEstimate(quote: Quote, batch: Batch)
    | LockWait(plan: Plan)
    | NonceRead(plan: Plan, answer: Option<nat>)
    | Signing(plan: Plan, tx: Tx)
    | Sending(plan: Plan, tx: Tx)
    | Receipt(plan: Plan, tx: Tx)
    | Replay(plan: Plan, tx: Tx, blockNumber: U64)
    | Done(outcome: Outcome)

  /** What has become of the raw transaction of a request. */
  datatype Flight = NotSent | InFlight(tx: Tx) | Accepted(tx: Tx) | Refused(tx: Tx)

  /** `running`: a poll of the request is in progress. `issuedNow`: the pending await was issued
      in that poll. `guard`: the request holds the submit lock. `sends`: number of broadcasts. */
  datatype Task = Task(
    request: Request,
    stage: Stage,
    running: bool,
    issuedNow: bool,
    guard: bool,
    flight: Flight,
    sends: nat)

  datatype Event =
    | Started
    | BaseFeeIs(baseFee: Answer<U256>)
    | TipIs(tip: Answer<U256>, now: U64)
    | DepositIs(deposit: Answer<U256>)
    | SimulationIs(simulation: Answer<ReturnInfo>)
    | HashIs(hash: Answer<UserOpHash>)
    | EstimateIs(estimate: Answer<U64>)
    | LockGranted
    | NonceTaken
    | NonceFailed(nonceError: ProviderError)
    | Signed
    | SignFailed(signError: SignerError)
    | SendAnswered(sendError: ProviderError)
    | ReceiptIs(receipt: Answer<Option<ReceiptInfo>>)
    | ReplayIs(replay: Answer<Option<RevertReason>>)

  function NewTask(r: Request): Task {
    Task(r, Arrived, false, false, false, NotSent, 0)
  }

  // --- Transitions -----------------------------------------------------------

  /** The event answers the await the request is suspended at, and a hash the very operation
      it was asked about. */
  predicate Expects(t: Task, ev: Event) {
    match ev
    case Started => t.stage.Arrived?
    case BaseFeeIs(_) => t.stage.BaseFee?
    case TipIs(_, _) => t.stage.SuggestedTip?
    case DepositIs(_) => t.stage.Deposit?
    case SimulationIs(_) => t.stage.Simulation?
    case HashIs(a) => t.stage.OpHash? && (a.Ok? ==> a.value.op == t.stage.packed)
    case EstimateIs(_) => t.stage.GasEstimate?
    case LockGranted => t.stage.LockWait?
    case NonceTaken => t.stage.NonceRead? && t.stage.answer.Some?
    case NonceFailed(_) => t.stage.NonceRead?
    case Signed => t.stage.Signing?
    case SignFailed(_) => t.stage.Signing?
    case SendAnswered(_) => t.stage.Sending? && (t.flight.Accepted? || t.flight.Refused?)
    case ReceiptIs(_) => t.stage.Receipt?
    case ReplayIs(_) => t.stage.Replay?
  }

  /** The calls a request awaits from the provider and the signer. */
  datatype Call =
    | BaseFeeCall
    | TipCall
    | DepositCall
    | SimulationCall
    | HashCall
    | EstimateCall
    | NonceCall
    | SignCall
    | SendCall
    | ReceiptCall
    | ReplayCall

  const EVERY_CALL: set<Call> :=
    {BaseFeeCall, TipCall, DepositCall, SimulationCall, HashCall, EstimateCall, NonceCall, SignCall, SendCall,
     ReceiptCall, ReplayCall}

  /** The call the request is suspended at; none before the start, at the lock and at the end. */
  function Pending(stage: Stage): set<Call> {
    match stage
    case Arrived => {}
    case BaseFee => {BaseFeeCall}
    case SuggestedTip(_) => {TipCall}
    case Deposit(_, _, _, _) => {DepositCall}
    case Simulation(_, _, _) => {SimulationCall}
    case OpHash(_, _, _) => {HashCall}
    case GasEstimate(_, _) => {EstimateCall}
    case LockWait(_) => {}
    case NonceRead(_, _) => {NonceCall}
    case Signing(_, _) => {SignCall}
    case Sending(_, _) => {SendCall}
    case Receipt(_, _) => {ReceiptCall}
    case Replay(_, _, _) => {ReplayCall}
    case Done(_) => {}
  }

  /** The pending await can complete in the poll in progress: it was issued in an earlier one, or
      is of a kind that may complete in the very poll that issues it. */
  predicate Prompt(eager: set<Call>, t: Task) {
    t.issuedNow ==> Pending(t.stage) <= eager
  }

  /** A poll delivers an event. */
  predicate Ready(eager: set<Call>, t: Task, ev: Event) {
    t.running && Expects(t, ev) && Prompt(eager, t)
  }

  function Finish(t: Task, outcome: Outcome): Task {
    t.(stage := Done(outcome), running := false, issuedNow := false, guard := false)
  }

  function Fail(t: Task, e: BundlerError): Task {
    Finish(t, Returned(Err(e)))
  }

  /** Suspends at the next await. */
  function Await(t: Task, stage: Stage): Task {
    t.(stage := stage, issuedNow := true)
  }

  function StartRequest(c: Config, t: Task): Task {
    if t.request.chainId != c.chainId then Fail(t, WrongChainId(c.chainId, t.request.chainId))
    else if t.request.ops == [] then Fail(t, EmptyBatch)
    else if |t.request.ops| > c.maxBatchSize then Fail(t, BatchTooLarge(|t.request.ops|, c.maxBatchSize))
    else Await(t, BaseFee)
  }

  /** The synchronous head of the loop body, up to the deposit query; or the loop's exit. */
  function NextOp(c: Config, t: Task, q: Quote, b: Batch): Task {
    var i := |b.packed|;
    if i >= |t.request.ops| then Await(t, GasEstimate(q, b))
    else
      var op := t.request.ops[i];
      var fees := CheckPerOpFees(c, i, op, q.baseFee);
      if fees.Err? then Fail(t, fees.error)
      else if Pack(op).Err? then Fail(t, PackFailed(Pack(op).error))
      else
        var due := QuotePrefund(op, Pack(op).value);
        if due.Err? then Fail(t, PackFailed(due.error))
        else Await(t, Deposit(q, b, Pack(op).value, due.value))
  }

  function TakeDeposit(t: Task, deposit: Answer<U256>): Task
    requires t.stage.Deposit?
  {
    if deposit.Err? then Fail(t, ProviderFault(deposit.error))
    else
      var verdict := CompareDeposit(|t.stage.batch.packed|, t.stage.due, deposit.value);
      if verdict.Err? then Fail(t, verdict.error)
      else Await(t, Simulation(t.stage.quote, t.stage.batch, t.stage.packed))
  }

  function TakeSimulation(t: Task, simulation: Answer<ReturnInfo>): Task
    requires t.stage.Simulation?
  {
    var report := Simulate(simulation, t.stage.quote.now);
    if report.Err? then Fail(t, ValidationFailed(report.error))
    else Await(t, OpHash(t.stage.quote, t.stage.batch, t.stage.packed))
  }

  function TakeHash(c: Config, t: Task, hash: Answer<UserOpHash>): Task
    requires t.stage.OpHash?
  {
    var i := |t.stage.batch.packed|;
    if hash.Err? then Fail(t, ProviderFault(hash.error))
    else if i >= |t.request.ops| then Finish(t, Panicked)
    else NextOp(c, t, t.stage.quote, Admit(t.stage.batch, t.request.ops[i], t.stage.packed, hash.value))
  }

  /** Gas margin and fee choice; the minima are unwrapped, which panics on an empty slot. */
  function TakeEstimate(c: Config, t: Task, estimate: Answer<U64>): Task
    requires t.stage.GasEstimate?
  {
    var q, b := t.stage.quote, t.stage.batch;
    if estimate.Err? then Fail(t, ProviderFault(estimate.error))
    else if b.minTip.None? || b.minCap.None? then Finish(t, Panicked)
    else
      var fees := ChooseOuterFees(c, q.baseFee, q.suggestedTip, b.minTip.value, b.minCap.value);
      if fees.Err? then Fail(t, fees.error)
      else
        var gas := GasWithMargin(estimate.value, c.gasMarginPct);
        var plan := Plan(q, b, estimate.value, gas, fees.value.tip, fees.value.cap);
        if t.request.submit then Await(t, LockWait(plan)) else Await(t, NonceRead(plan, None))
  }

  function OuterTx(c: Config, p: Plan, nonce: nat): Tx {
    Tx(c.chainId, nonce, p.gas, p.cap, p.tip, c.entryPoint, p.batch.packed, c.signer)
  }

  function TakeNonce(c: Config, t: Task): Task
    requires t.stage.NonceRead? && t.stage.answer.Some?
  {
    var plan := t.stage.plan;
    if plan.cap >= TWO_128 then Fail(t, InvalidUserOp(OUTER, OuterFeeCapExceedsU128))
    else if plan.tip >= TWO_128 then Fail(t, InvalidUserOp(OUTER, OuterTipExceedsU128))
    else Await(t, Signing(plan, OuterTx(c, plan, t.stage.answer.value)))
  }

  function ResponseTo(c: Config, p: Plan, tx: Tx): Response {
    Response(tx, c.entryPoint, c.chainId, p.gas, p.cap, p.tip, p.batch.hashes)
  }

  /** The signed transaction is broadcast in submit mode and returned otherwise. */
  function TakeSignature(c: Config, t: Task): Task
    requires t.stage.Signing?
  {
    if t.request.submit then
      Await(t, Sending(t.stage.plan, t.stage.tx)).(flight := InFlight(t.stage.tx), sends := t.sends + 1)
    else Finish(t, Returned(Ok(ResponseTo(c, t.stage.plan, t.stage.tx))))
  }

  /** The guard is dropped as soon as the send is answered. */
  function TakeSendAnswer(t: Task, e: ProviderError): Task
    requires t.stage.Sending?
  {
    if t.flight.Accepted? then Await(t, Receipt(t.stage.plan, t.stage.tx)).(guard := false)
    else Fail(t, ProviderFault(e))
  }

  function TakeReceipt(c: Config, t: Task, receipt: Answer<Option<ReceiptInfo>>): Task
    requires t.stage.Receipt?
  {
    if receipt.Err? then Fail(t, ProviderFault(receipt.error))
    else if receipt.value.None? then Fail(t, ReceiptTimeout(t.stage.tx))
    else if !receipt.value.value.success then
      Await(t, Replay(t.stage.plan, t.stage.tx, receipt.value.value.blockNumber))
    else Finish(t, Returned(Ok(ResponseTo(c, t.stage.plan, t.stage.tx))))
  }

  function TakeReplay(t: Task, replay: Answer<Option<RevertReason>>): Task
    requires t.stage.Replay?
  {
    if replay.Err? then Fail(t, ProviderFault(replay.error))
    else
      var reason := if replay.value.Some? then replay.value.value else Unknown([]);
      Fail(t, HandleOpsReverted(t.stage.tx, t.stage.blockNumber, reason))
  }

  function Deliver(c: Config, t: Task, ev: Event): Task
    requires Expects(t, ev)
  {
    match ev
    case Started => StartRequest(c, t)
    case BaseFeeIs(a) => if a.Err? then Fail(t, ProviderFault(a.error)) else Await(t, SuggestedTip(a.value))
    case TipIs(a, now) =>
      if a.Err? then Fail(t, ProviderFault(a.error))
      else NextOp(c, t, Quote(t.stage.baseFee, a.value, now), EMPTY_BATCH)
    case DepositIs(a) => TakeDeposit(t, a)
    case SimulationIs(a) => TakeSimulation(t, a)
    case HashIs(a) => TakeHash(c, t, a)
    case EstimateIs(a) => TakeEstimate(c, t, a)
    case LockGranted => Await(t, NonceRead(t.stage.plan, None)).(guard := true)
    case NonceTaken => TakeNonce(c, t)
    case NonceFailed(e) => Fail(t, ProviderFault(e))
    case Signed => TakeSignature(c, t)
    case SignFailed(e) => Fail(t, SignerFault(e))
    case SendAnswered(e) => TakeSendAnswer(t, e)
    case ReceiptIs(a) => TakeReceipt(c, t, a)
    case ReplayIs(a) => TakeReplay(t, a)
  }

  // --- What every step keeps -------------------------------------------------

  ghost predicate Sane(c: Config, r: Request) {
    r.chainId == c.chainId && 0 < |r.ops| <= c.maxBatchSize
  }

  /** The loop has absorbed exactly the first `|b.packed|` operations. */
  ghost predicate Absorbed(c: Config, r: Request, q: Quote, b: Batch) {
    && Sane(c, r)
    && |b.packed| <= |r.ops|
    && Records(b, r.ops[..|b.packed|])
    && PerOpPass(c, q.baseFee, r.ops[..|b.packed|])
  }

  /** ... and is in the middle of the next one. */
  ghost predicate Examining(c: Config, r: Request, q: Quote, b: Batch, packed: PackedUserOp) {
    && Absorbed(c, r, q, b)
    && |b.packed| < |r.ops|
    && Pack(r.ops[|b.packed|]) == Ok(packed)
    && CheckPerOpFees(c, |b.packed|, r.ops[|b.packed|], q.baseFee).Ok?
  }

  ghost predicate Planned(c: Config, r: Request, p: Plan) {
    && Sane(c, r)
    && Records(p.batch, r.ops)
    && FeesAccept(c, p.quote.baseFee, p.quote.suggestedTip, r.ops)
    && BatchFees(c, p.quote.baseFee, p.quote.suggestedTip, r.ops) == Ok(OuterFees(p.tip, p.cap))
    && p.gas == GasWithMargin(p.estimate, c.gasMarginPct)
  }

  /** What may be said of a transaction of this request without knowing the plan behind it. */
  ghost predicate Sound(c: Config, r: Request, tx: Tx) {
    && Sane(c, r)
    && PacksTo(r.ops, tx.ops)
    && tx.chainId == c.chainId && tx.to == c.entryPoint && tx.beneficiary == c.signer
    && c.minPriorityFee <= tx.maxPriorityFeePerGas <= tx.maxFeePerGas < TWO_128
    && (forall i :: 0 <= i < |r.ops| ==>
          tx.maxPriorityFeePerGas <= r.ops[i].maxPriorityFeePerGas && tx.maxFeePerGas <= r.ops[i].maxFeePerGas)
    && (exists i :: 0 <= i < |r.ops| && tx.maxFeePerGas == r.ops[i].maxFeePerGas)
    && (exists estimate :: tx.gasLimit == GasWithMargin(estimate, c.gasMarginPct))
  }

  ghost predicate SoundResponse(c: Config, r: Request, resp: Response) {
    && Sound(c, r, resp.hash)
    && resp.to == resp.hash.to && resp.chainId == resp.hash.chainId && resp.gas == resp.hash.gasLimit
    && resp.maxFeePerGas == resp.hash.maxFeePerGas
    && resp.maxPriorityFeePerGas == resp.hash.maxPriorityFeePerGas
    && |resp.userOpHashes| == |r.ops|
    && forall i :: 0 <= i < |r.ops| ==> Pack(r.ops[i]) == Ok(resp.userOpHashes[i].op)
  }

  /** How a request may end: never by a panic or a failed narrowing of the outer fees; with a
      response only for a transaction it really built (and, in submit mode, got accepted);
      with an error that tells the truth about what was broadcast; or dropped by its client,
      on record if that left a send in flight. */
  ghost predicate EndsWell(c: Config, t: Task, outcome: Outcome) {
    && !outcome.Panicked?
    && (outcome.Abandoned? && t.flight.InFlight? ==> outcome.unsettled)
    && (outcome.Returned? ==>
          match outcome.result
          case Ok(resp) =>
            && SoundResponse(c, t.request, resp)
            && t.flight == (if t.request.submit then Accepted(resp.hash) else NotSent)
          case Err(e) => Truthful(e, t.flight))
  }

  ghost predicate Truthful(e: BundlerError, flight: Flight) {
    && !(e.InvalidUserOp? && !e.reason.TipAboveCap?)
    && (NothingSentCode(Classify(e).code) ==> flight.NotSent?)
    && (Classify(e).txHash.Some? ==> flight == Accepted(Classify(e).txHash.value))
    && (flight.InFlight? ==> e.Cancelled?)
  }

  ghost predicate StageOk(c: Config, t: Task) {
    match t.stage
    case Arrived => t.flight.NotSent?
    case BaseFee => t.flight.NotSent? && Sane(c, t.request)
    case SuggestedTip(_) => t.flight.NotSent? && Sane(c, t.request)
    case Deposit(q, b, packed, _) => t.flight.NotSent? && Examining(c, t.request, q, b, packed)
    case Simulation(q, b, packed) => t.flight.NotSent? && Examining(c, t.request, q, b, packed)
    case OpHash(q, b, packed) => t.flight.NotSent? && Examining(c, t.request, q, b, packed)
    case GasEstimate(q, b) => t.flight.NotSent? && Absorbed(c, t.request, q, b) && |b.packed| == |t.request.ops|
    case LockWait(p) => t.flight.NotSent? && t.request.submit && Planned(c, t.request, p)
    case NonceRead(p, _) => t.flight.NotSent? && Planned(c, t.request, p)
    case Signing(p, tx) => t.flight.NotSent? && Planned(c, t.request, p) && tx == OuterTx(c, p, tx.nonce)
    case Sending(p, tx) =>
      && t.request.submit && Planned(c, t.request, p) && tx == OuterTx(c, p, tx.nonce)
      && !t.flight.NotSent? && t.flight.tx == tx
    case Receipt(p, tx) =>
      t.request.submit && Planned(c, t.request, p) && tx == OuterTx(c, p, tx.nonce) && t.flight == Accepted(tx)
    case Replay(p, tx, _) =>
      t.request.submit && Planned(c, t.request, p) && tx == OuterTx(c, p, tx.nonce) && t.flight == Accepted(tx)
    case Done(outcome) => EndsWell(c, t, outcome)
  }

  /** Stages between taking the submit lock and leaving the send. */
  predicate Critical(t: Task) {
    t.request.submit && (t.stage.NonceRead? || t.stage.Signing? || t.stage.Sending?)
  }

  /** At most one broadcast, in submit mode only, of a sound transaction. */
  ghost predicate FlightOk(c: Config, t: Task) {
    && t.sends == (if t.flight.NotSent? then 0 else 1)
    && (!t.flight.NotSent? ==> t.request.submit && Sound(c, t.request, t.flight.tx))
  }

  ghost predicate TaskOk(c: Config, t: Task) {
    && StageOk(c, t)
    && FlightOk(c, t)
    && t.guard == Critical(t)
    && (t.running ==> !t.stage.Done?)
  }

  // --- Proofs ------------------------------------------------------------------

  /** A planned transaction is sound: the fees fit and come from the batch. */
  lemma PlannedIsSound(c: Config, r: Request, p: Plan, nonce: nat)
    requires Planned(c, r, p)
    ensures p.cap < TWO_128 && p.tip < TWO_128
    ensures p.quote.baseFee + p.tip <= p.cap
    ensures Sound(c, r, OuterTx(c, p, nonce))
    ensures SoundResponse(c, r, ResponseTo(c, p, OuterTx(c, p, nonce)))
  {
    hide GasWithMargin, Pack, BatchFees, CheckPerOpFees, ExactMin;
    OuterFeesSane(c, p.quote.baseFee, p.quote.suggestedTip, r.ops);
    var k :| 0 <= k < |r.ops| && Caps(r.ops)[k] == p.cap;
    assert Pack(r.ops[k]) == Ok(p.batch.packed[k]);
    PackSucceedsIff(r.ops[k]);
    forall i | 0 <= i < |r.ops| ensures p.cap <= r.ops[i].maxFeePerGas {
      assert Caps(r.ops)[i] in Caps(r.ops);
    }
    forall i | 0 <= i < |r.ops| ensures Pack(r.ops[i]) == Ok(p.batch.hashes[i].op) {
      assert p.batch.hashes[i].op == p.batch.packed[i];
    }
  }

  lemma AbsorbNext(c: Config, r: Request, q: Quote, b: Batch, packed: PackedUserOp, hash: UserOpHash)
    requires Examining(c, r, q, b, packed) && hash.op == packed
    ensures Absorbed(c, r, q, Admit(b, r.ops[|b.packed|], packed, hash))
  {
    hide Records, Pack;
    var i := |b.packed|;
    AdmitRecords(b, r.ops[..i], r.ops[i], packed, hash);
    assert r.ops[..i + 1] == r.ops[..i] + [r.ops[i]];
    PassConcat(c, q.baseFee, r.ops[..i], [r.ops[i]]);
    assert |Admit(b, r.ops[i], packed, hash).packed| == i + 1;
  }

  /** The running minima of a finished loop are the batch minima, so the plan is exactly the
      declarative fee verdict; in particular they are present. */
  lemma EstimatePlans(c: Config, r: Request, q: Quote, b: Batch, estimate: U64)
    requires Absorbed(c, r, q, b) && |b.packed| == |r.ops|
    ensures b.minTip.Some? && b.minCap.Some?
    ensures var fees := ChooseOuterFees(c, q.baseFee, q.suggestedTip, b.minTip.value, b.minCap.value);
            var gas := GasWithMargin(estimate, c.gasMarginPct);
            fees.Ok? ==> Planned(c, r, Plan(q, b, estimate, gas, fees.value.tip, fees.value.cap))
  {
    hide GasWithMargin, PacksTo;
    assert r.ops[..|b.packed|] == r.ops;
    RecordedFees(c, q, b, r.ops);
  }

  lemma FailOk(c: Config, t: Task, e: BundlerError)
    requires FlightOk(c, t) && Truthful(e, t.flight)
    ensures TaskOk(c, Fail(t, e))
  {
    hide Planned, Sound, Absorbed;
  }

  lemma NextOpOk(c: Config, t: Task, q: Quote, b: Batch)
    requires t.flight.NotSent? && FlightOk(c, t) && !t.guard && Absorbed(c, t.request, q, b)
    ensures TaskOk(c, NextOp(c, t, q, b))
  {
    hide Records, PerOpPass, Sound, Planned;
    var i := |b.packed|;
    if i < |t.request.ops| {
      var op := t.request.ops[i];
      var fees := CheckPerOpFees(c, i, op, q.baseFee);
      if fees.Err? {
        FailOk(c, t, fees.error);
      } else if Pack(op).Err? {
        FailOk(c, t, PackFailed(Pack(op).error));
      } else if QuotePrefund(op, Pack(op).value).Err? {
        FailOk(c, t, PackFailed(QuotePrefund(op, Pack(op).value).error));
      }
    }
  }

  lemma TakeTipOk(c: Config, t: Task, tip: U256, now: U64)
    requires TaskOk(c, t) && t.stage.SuggestedTip?
    ensures TaskOk(c, NextOp(c, t, Quote(t.stage.baseFee, tip, now), EMPTY_BATCH))
  {
    assert t.request.ops[..0] == [];
    NextOpOk(c, t, Quote(t.stage.baseFee, tip, now), EMPTY_BATCH);
  }

  lemma TakeDepositOk(c: Config, t: Task, deposit: Answer<U256>)
    requires TaskOk(c, t) && t.stage.Deposit?
    ensures TaskOk(c, TakeDeposit(t, deposit))
  {
    hide Planned, Sound, Absorbed;
    if deposit.Err? {
      FailOk(c, t, ProviderFault(deposit.error));
    } else {
      var verdict := CompareDeposit(|t.stage.batch.packed|, t.stage.due, deposit.value);
      if verdict.Err? {
        FailOk(c, t, verdict.error);
      }
    }
  }

  lemma TakeSimulationOk(c: Config, t: Task, simulation: Answer<ReturnInfo>)
    requires TaskOk(c, t) && t.stage.Simulation?
    ensures TaskOk(c, TakeSimulation(t, simulation))
  {
    hide Planned, Sound, Absorbed;
    var report := Simulate(simulation, t.stage.quote.now);
    if report.Err? {
      FailOk(c, t, ValidationFailed(report.error));
    }
  }

  lemma TakeHashOk(c: Config, t: Task, hash: Answer<UserOpHash>)
    requires TaskOk(c, t) && Expects(t, HashIs(hash))
    ensures TaskOk(c, TakeHash(c, t, hash))
  {
    hide Planned, Sound, Absorbed;
    if hash.Ok? {
      AbsorbNext(c, t.request, t.stage.quote, t.stage.batch, t.stage.packed, hash.value);
      NextOpOk(c, t, t.stage.quote,
               Admit(t.stage.batch, t.request.ops[|t.stage.batch.packed|], t.stage.packed, hash.value));
    } else {
      FailOk(c, t, ProviderFault(hash.error));
    }
  }

  lemma PlanningOk(c: Config, t: Task, estimate: U64)
    requires TaskOk(c, t) && t.stage.GasEstimate?
    ensures TaskOk(c, TakeEstimate(c, t, Ok(estimate)))
  {
    hide Planned, Sound, Absorbed;
    var q, b := t.stage.quote, t.stage.batch;
    EstimatePlans(c, t.request, q, b, estimate);
    var fees := ChooseOuterFees(c, q.baseFee, q.suggestedTip, b.minTip.value, b.minCap.value);
    if fees.Err? {
      FailOk(c, t, fees.error);
    }
  }

  lemma TakeNonceOk(c: Config, t: Task)
    requires TaskOk(c, t) && t.stage.NonceRead? && t.stage.answer.Some?
    ensures TaskOk(c, TakeNonce(c, t))
  {
    hide Planned, Sound, Absorbed;
    PlannedIsSound(c, t.request, t.stage.plan, t.stage.answer.value);
  }

  lemma BroadcastOk(c: Config, t: Task)
    requires TaskOk(c, t) && t.stage.Signing? && t.request.submit
    ensures TaskOk(c, TakeSignature(c, t))
  {
    hide Planned, Sound, Absorbed;
    PlannedIsSound(c, t.request, t.stage.plan, t.stage.tx.nonce);
  }

  lemma RespondOk(c: Config, t: Task, p: Plan, tx: Tx)
    requires FlightOk(c, t) && Planned(c, t.request, p) && tx == OuterTx(c, p, tx.nonce)
    requires t.flight == (if t.request.submit then Accepted(tx) else NotSent)
    ensures TaskOk(c, Finish(t, Returned(Ok(ResponseTo(c, p, tx)))))
  {
    hide Planned, Sound, Absorbed;
    PlannedIsSound(c, t.request, p, tx.nonce);
  }

  lemma SendAcceptedOk(c: Config, t: Task, e: ProviderError)
    requires TaskOk(c, t) && t.stage.Sending? && t.flight.Accepted?
    ensures TaskOk(c, TakeSendAnswer(t, e))
  {
    hide Planned, Sound, Absorbed;
  }

  lemma RevertedOk(c: Config, t: Task, receipt: ReceiptInfo)
    requires TaskOk(c, t) && t.stage.Receipt? && !receipt.success
    ensures TaskOk(c, TakeReceipt(c, t, Ok(Some(receipt))))
  {
    hide Planned, Sound, Absorbed;
  }

  lemma TakeReceiptOk(c: Config, t: Task, receipt: Answer<Option<ReceiptInfo>>)
    requires TaskOk(c, t) && t.stage.Receipt?
    ensures TaskOk(c, TakeReceipt(c, t, receipt))
  {
    hide Planned, Sound, Absorbed;
    if receipt.Err? {
      FailOk(c, t, ProviderFault(receipt.error));
    } else if receipt.value.None? {
      FailOk(c, t, ReceiptTimeout(t.stage.tx));
    } else if receipt.value.value.success {
      RespondOk(c, t, t.stage.plan, t.stage.tx);
    } else {
      RevertedOk(c, t, receipt.value.value);
    }
  }

  /** An onchain revert is reported with the hash of the accepted transaction. */
  lemma ReportRevertOk(c: Config, t: Task, reason: RevertReason)
    requires TaskOk(c, t) && t.stage.Replay?
    ensures TaskOk(c, Fail(t, HandleOpsReverted(t.stage.tx, t.stage.blockNumber, reason)))
  {
    hide Planned, Sound, Absorbed;
    RevertsSpeak(reason);
    FailOk(c, t, HandleOpsReverted(t.stage.tx, t.stage.blockNumber, reason));
  }

  lemma StartOk(c: Config, t: Task)
    requires TaskOk(c, t) && t.stage.Arrived?
    ensures TaskOk(c, StartRequest(c, t))
  {
    hide Planned, Sound, Absorbed;
    if StartRequest(c, t).stage.Done? {
      FailOk(c, t, StartRequest(c, t).stage.outcome.result.error);
    }
  }

  lemma BaseFeeOk(c: Config, t: Task, baseFee: U256)
    requires TaskOk(c, t) && t.stage.BaseFee?
    ensures TaskOk(c, Await(t, SuggestedTip(baseFee)))
  {
    hide Planned, Sound, Absorbed;
  }

  lemma LockGrantedOk(c: Config, t: Task)
    requires TaskOk(c, t) && t.stage.LockWait?
    ensures TaskOk(c, Deliver(c, t, LockGranted))
  {
    hide Planned, Sound, Absorbed;
  }

  /** A provider or signer fault may end any request whose send is not outstanding. */
  lemma FaultOk(c: Config, t: Task, e: BundlerError)
    requires TaskOk(c, t) && !t.flight.InFlight? && (e.ProviderFault? || e.SignerFault?)
    ensures TaskOk(c, Fail(t, e))
  {
    hide Planned, Sound, Absorbed;
    FailOk(c, t, e);
  }

  lemma BuildStepOk(c: Config, t: Task, ev: Event)
    requires TaskOk(c, t) && Expects(t, ev)
    requires t.stage.Arrived? || t.stage.BaseFee? || t.stage.SuggestedTip? || t.stage.Deposit?
             || t.stage.Simulation? || t.stage.OpHash? || t.stage.GasEstimate?
    ensures TaskOk(c, Deliver(c, t, ev))
  {
    hide Planned, Sound, Absorbed;
    match ev {
      case Started => StartOk(c, t);
      case BaseFeeIs(a) =>
        if a.Ok? { BaseFeeOk(c, t, a.value); } else { FaultOk(c, t, ProviderFault(a.error)); }
      case TipIs(a, now) =>
        if a.Ok? { TakeTipOk(c, t, a.value, now); } else { FaultOk(c, t, ProviderFault(a.error)); }
      case DepositIs(a) => TakeDepositOk(c, t, a);
      case SimulationIs(a) => TakeSimulationOk(c, t, a);
      case HashIs(a) => TakeHashOk(c, t, a);
      case EstimateIs(a) =>
        if a.Ok? { PlanningOk(c, t, a.value); } else { FaultOk(c, t, ProviderFault(a.error)); }
    }
  }

  lemma SubmitStepOk(c: Config, t: Task, ev: Event)
    requires TaskOk(c, t) && Expects(t, ev)
    requires t.stage.LockWait? || t.stage.NonceRead? || t.stage.Signing? || t.stage.Sending?
             || t.stage.Receipt? || t.stage.Replay?
    ensures TaskOk(c, Deliver(c, t, ev))
  {
    hide Planned, Sound, Absorbed;
    match ev {
      case LockGranted => LockGrantedOk(c, t);
      case NonceTaken => TakeNonceOk(c, t);
      case NonceFailed(e) => FaultOk(c, t, ProviderFault(e));
      case Signed =>
        if t.request.submit { BroadcastOk(c, t); } else { RespondOk(c, t, t.stage.plan, t.stage.tx); }
      case SignFailed(e) => FaultOk(c, t, SignerFault(e));
      case SendAnswered(e) =>
        if t.flight.Accepted? { SendAcceptedOk(c, t, e); } else { FaultOk(c, t, ProviderFault(e)); }
      case ReceiptIs(a) => TakeReceiptOk(c, t, a);
      case ReplayIs(a) =>
        if a.Err? {
          FaultOk(c, t, ProviderFault(a.error));
        } else {
          ReportRevertOk(c, t, if a.value.Some? then a.value.value else Unknown([]));
        }
    }
  }

  /** Every event a request may receive keeps it well-formed. */
  lemma DeliverKeepsOk(c: Config, t: Task, ev: Event)
    requires TaskOk(c, t) && Expects(t, ev)
    ensures TaskOk(c, Deliver(c, t, ev))
  {
    hide TaskOk;
    if t.stage.LockWait? || t.stage.NonceRead? || t.stage.Signing? || t.stage.Sending?
       || t.stage.Receipt? || t.stage.Replay? {
      SubmitStepOk(c, t, ev);
    } else {
      BuildStepOk(c, t, ev);
    }
  }

  /** Every fault reaches the client as what it is, and a replayed revert with the reason the
      replay gave. */
  lemma FaultsReported(c: Config, t: Task, ev: Event)
    requires Expects(t, ev)
    ensures ev.BaseFeeIs? && ev.baseFee.Err? ==> Deliver(c, t, ev) == Fail(t, ProviderFault(ev.baseFee.error))
    ensures ev.TipIs? && ev.tip.Err? ==> Deliver(c, t, ev) == Fail(t, ProviderFault(ev.tip.error))
    ensures ev.DepositIs? && ev.deposit.Err? ==> Deliver(c, t, ev) == Fail(t, ProviderFault(ev.deposit.error))
    ensures ev.SimulationIs? && ev.simulation.Err? ==>
              Deliver(c, t, ev) == Fail(t, ValidationFailed(ProviderFailed(ev.simulation.error)))
    ensures ev.HashIs? && ev.hash.Err? ==> Deliver(c, t, ev) == Fail(t, ProviderFault(ev.hash.error))
    ensures ev.EstimateIs? && ev.estimate.Err? ==> Deliver(c, t, ev) == Fail(t, ProviderFault(ev.estimate.error))
    ensures ev.NonceFailed? ==> Deliver(c, t, ev) == Fail(t, ProviderFault(ev.nonceError))
    ensures ev.SignFailed? ==> Deliver(c, t, ev) == Fail(t, SignerFault(ev.signError))
    ensures ev.SendAnswered? && t.flight.Refused? ==> Deliver(c, t, ev) == Fail(t, ProviderFault(ev.sendError))
    ensures ev.ReceiptIs? && ev.receipt.Err? ==> Deliver(c, t, ev) == Fail(t, ProviderFault(ev.receipt.error))
    ensures ev.ReceiptIs? && ev.receipt == Ok(None) ==> Deliver(c, t, ev) == Fail(t, ReceiptTimeout(t.stage.tx))
    ensures ev.ReplayIs? && ev.replay.Err? ==> Deliver(c, t, ev) == Fail(t, ProviderFault(ev.replay.error))
    ensures ev.ReplayIs? && ev.replay.Ok? ==>
              var reason := if ev.replay.value.Some? then ev.replay.value.value else Unknown([]);
              Deliver(c, t, ev) == Fail(t, HandleOpsReverted(t.stage.tx, t.stage.blockNumber, reason))
  {
    hide NextOp, StartRequest, ChooseOuterFees, GasWithMargin, CompareDeposit, OuterTx, ResponseTo;
  }

  /** At every base fee `b`, a sound transaction costs the sequencer per gas at most what the
      EntryPoint charges operation `i`, as read from its packed fee word. */
  lemma SoundReimburses(c: Config, r: Request, tx: Tx, i: nat, b: nat)
    requires Sound(c, r, tx) && i < |tx.ops|
    ensures var (tip, cap) := UnpackUints(tx.ops[i].gasFees);
            PriceAt(tx.maxFeePerGas, tx.maxPriorityFeePerGas, b) <= PriceAt(cap, tip, b)
  {
    assert Pack(r.ops[i]) == Ok(tx.ops[i]);
    PackRoundTrip(r.ops[i]);
  }
}
