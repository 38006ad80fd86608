/** The per-operation loop of a build: checks in order, packed operations, hashes and minima. */
module Pipeline {
  import opened Types
  import opened Packing
  import opened Validation
  import opened Errors
  import opened Fees
  import opened Prefund

  /** Read once at the start of a build. */
  datatype Quote = Quote(baseFee: U256, suggestedTip: U256, now: U64)

  /** What the provider would answer to each question asked about one operation. */
  datatype OpAnswers = OpAnswers(
    deposit: Address -> Answer<U256>,
    simulation: PackedUserOp -> Answer<ReturnInfo>,
    hash: PackedUserOp -> Answer<Bytes32>)

  /** A user-operation hash together with the operation the provider was asked about. */
  datatype UserOpHash = UserOpHash(op: PackedUserOp, hash: Bytes32)

  /** The provider's answer about `op`, on record as such. */
  function Asked(op: PackedUserOp, answer: Answer<Bytes32>): Answer<UserOpHash> {
    if answer.Err? then Err(answer.error) else Ok(UserOpHash(op, answer.value))
  }

  datatype Batch = Batch(
    packed: seq<PackedUserOp>,
    hashes: seq<UserOpHash>,
    minTip: Option<U256>,
    minCap: Option<U256>)

  const EMPTY_BATCH := Batch([], [], None, None)

  function Admit(b: Batch, op: UserOp, packed: PackedUserOp, hash: UserOpHash): Batch {
    Batch(b.packed + [packed], b.hashes + [hash],
          UpdateMin(b.minTip, op.maxPriorityFeePerGas), UpdateMin(b.minCap, op.maxFeePerGas))
  }

  /** `b` is the exact record of `ops`: entry `i` is the packing of `ops[i]`, hash `i` was
      asked about that packing, and the running minima are the minima of the batch. */
  ghost predicate Records(b: Batch, ops: seq<UserOp>) {
    && PacksTo(ops, b.packed)
    && |b.hashes| == |ops|
    && (forall i :: 0 <= i < |ops| ==> b.hashes[i].op == b.packed[i])
    && ExactMin(b.minTip, Tips(ops))
    && ExactMin(b.minCap, Caps(ops))
  }

  lemma AdmitRecords(b: Batch, ops: seq<UserOp>, op: UserOp, packed: PackedUserOp, hash: UserOpHash)
    requires Records(b, ops) && Pack(op) == Ok(packed) && hash.op == packed
    ensures Records(Admit(b, op, packed, hash), ops + [op])
  {
    hide ExactMin, UpdateMin, Pack;
    UpdateMinExact(b.minTip, Tips(ops), op.maxPriorityFeePerGas);
    UpdateMinExact(b.minCap, Caps(ops), op.maxFeePerGas);
    assert Tips(ops + [op]) == Tips(ops) + [op.maxPriorityFeePerGas];
    assert Caps(ops + [op]) == Caps(ops) + [op.maxFeePerGas];
  }

  function PrefundFailure(i: nat, op: UserOp, packed: PackedUserOp, deposit: Address -> Answer<U256>):
    Option<BundlerError>
  {
    var quote := QuotePrefund(op, packed);
    if quote.Err? then Some(PackFailed(quote.error))
    else if deposit(quote.value.sponsor).Err? then Some(ProviderFault(deposit(quote.value.sponsor).error))
    else
      var verdict := CompareDeposit(i, quote.value, deposit(quote.value.sponsor).value);
      if verdict.Err? then Some(verdict.error) else None
  }

  // --- Declarative reading of the loop -------------------------------------

  datatype Check = FeePolicy | Packable | Funded | Simulated | Hashed {
    function Rank(): nat {
      match this
      case FeePolicy => 0
      case Packable => 1
      case Funded => 2
      case Simulated => 3
      case Hashed => 4
    }
  }

  /** What one check says about one operation, on its own. */
  function Failure(c: Config, q: Quote, i: nat, op: UserOp, a: OpAnswers, check: Check): Option<BundlerError> {
    match check
    case FeePolicy =>
      var fees := CheckPerOpFees(c, i, op, q.baseFee);
      if fees.Err? then Some(fees.error) else None
    case Packable =>
      var packed := Pack(op);
      if packed.Err? then Some(PackFailed(packed.error)) else None
    case Funded =>
      if Pack(op).Err? then None else PrefundFailure(i, op, Pack(op).value, a.deposit)
    case Simulated =>
      if Pack(op).Err? then None
      else
        var report := Simulate(a.simulation(Pack(op).value), q.now);
        if report.Err? then Some(ValidationFailed(report.error)) else None
    case Hashed =>
      if Pack(op).Err? then None
      else if a.hash(Pack(op).value).Err? then Some(ProviderFault(a.hash(Pack(op).value).error)) else None
  }

  ghost predicate Passes(c: Config, q: Quote, i: nat, op: UserOp, a: OpAnswers) {
    forall check: Check :: Failure(c, q, i, op, a, check) == None
  }

  /** `e` is reported by `check` and no earlier check on the same operation fails. */
  ghost predicate Reports(c: Config, q: Quote, i: nat, op: UserOp, a: OpAnswers, check: Check, e: BundlerError) {
    && Failure(c, q, i, op, a, check) == Some(e)
    && forall other: Check :: other.Rank() < check.Rank() ==> Failure(c, q, i, op, a, other) == None
  }

  /** The first `n` operations pass every check. */
  ghost predicate AllPass(c: Config, q: Quote, ops: seq<UserOp>, answers: seq<OpAnswers>, n: nat)
    requires |answers| == |ops| && n <= |ops|
  {
    n == 0 || (AllPass(c, q, ops, answers, n - 1) && Passes(c, q, n - 1, ops[n - 1], answers[n - 1]))
  }

  lemma {:induction false} AllPassIff(c: Config, q: Quote, ops: seq<UserOp>, answers: seq<OpAnswers>, n: nat)
    requires |answers| == |ops| && n <= |ops|
    ensures AllPass(c, q, ops, answers, n) <==> forall i :: 0 <= i < n ==> Passes(c, q, i, ops[i], answers[i])
  {
    if n > 0 {
      AllPassIff(c, q, ops, answers, n - 1);
    }
  }

  /** `check` on operation `k` reports `e`, and every earlier operation passes every check. */
  ghost predicate FirstFailure(c: Config, q: Quote, ops: seq<UserOp>, answers: seq<OpAnswers>,
                               k: nat, check: Check, e: BundlerError)
    requires |answers| == |ops|
  {
    && k < |ops|
    && Reports(c, q, k, ops[k], answers[k], check, e)
    && AllPass(c, q, ops, answers, k)
  }

  /** Hash `i` is the provider's answer about packed operation `i`. */
  ghost predicate HashesFrom(answers: seq<OpAnswers>, b: Batch) {
    && |b.hashes| == |b.packed| == |answers|
    && forall i :: 0 <= i < |b.hashes| ==>
         Ok(b.hashes[i]) == Asked(b.packed[i], answers[i].hash(b.packed[i]))
  }

  datatype Checked = Checked(packed: PackedUserOp, hash: UserOpHash)

  /** The body of the loop: the five checks in order, stopping at the first failure. */
  method CheckOp(c: Config, q: Quote, i: nat, op: UserOp, a: OpAnswers)
    returns (r: Result<Checked, BundlerError>)
    ensures r.Ok? <==> Passes(c, q, i, op, a)
    ensures r.Ok? ==> && Pack(op) == Ok(r.value.packed)
                      && Asked(r.value.packed, a.hash(r.value.packed)) == Ok(r.value.hash)
    ensures r.Err? ==> exists check :: Reports(c, q, i, op, a, check, r.error)
  {
    hide CheckPerOpFees, Pack, PrefundFailure, Simulate;
    var fees := CheckPerOpFees(c, i, op, q.baseFee);
    if fees.Err? {
      assert Reports(c, q, i, op, a, FeePolicy, fees.error);
      return Err(fees.error);
    }
    var packed := PackUserOp(op);
    if packed.Err? {
      assert Reports(c, q, i, op, a, Packable, PackFailed(packed.error));
      return Err(PackFailed(packed.error));
    }
    var prefund := PrefundFailure(i, op, packed.value, a.deposit);
    if prefund.Some? {
      assert Reports(c, q, i, op, a, Funded, prefund.value);
      return Err(prefund.value);
    }
    var report := Simulate(a.simulation(packed.value), q.now);
    if report.Err? {
      assert Reports(c, q, i, op, a, Simulated, ValidationFailed(report.error));
      return Err(ValidationFailed(report.error));
    }
    var hash := a.hash(packed.value);
    if hash.Err? {
      assert Reports(c, q, i, op, a, Hashed, ProviderFault(hash.error));
      return Err(ProviderFault(hash.error));
    }
    r := Ok(Checked(packed.value, UserOpHash(packed.value, hash.value)));
  }

  lemma PassesMeans(c: Config, q: Quote, i: nat, op: UserOp, a: OpAnswers)
    requires Passes(c, q, i, op, a)
    ensures CheckPerOpFees(c, i, op, q.baseFee).Ok?
    ensures Pack(op).Ok? && PrefundFailure(i, op, Pack(op).value, a.deposit) == None
    ensures Simulate(a.simulation(Pack(op).value), q.now).Ok? && a.hash(Pack(op).value).Ok?
  {
    assert Failure(c, q, i, op, a, FeePolicy) == None;
    assert Failure(c, q, i, op, a, Packable) == None;
    assert Failure(c, q, i, op, a, Funded) == None;
    assert Failure(c, q, i, op, a, Simulated) == None;
    assert Failure(c, q, i, op, a, Hashed) == None;
  }

  /** What the loop has gathered after `n` operations. */
  ghost function Collected(c: Config, q: Quote, ops: seq<UserOp>, answers: seq<OpAnswers>, n: nat): Batch
    requires |answers| == |ops| && n <= |ops| && AllPass(c, q, ops, answers, n)
  {
    if n == 0 then EMPTY_BATCH
    else
      PassesMeans(c, q, n - 1, ops[n - 1], answers[n - 1]);
      var packed := Pack(ops[n - 1]).value;
      Admit(Collected(c, q, ops, answers, n - 1), ops[n - 1], packed,
            UserOpHash(packed, answers[n - 1].hash(packed).value))
  }

  /** The loop of a build: it completes exactly when every operation passes every check, and
      otherwise stops at the first failing operation with its first failing check. */
  method CollectOps(c: Config, q: Quote, ops: seq<UserOp>, answers: seq<OpAnswers>)
    returns (r: Result<Batch, BundlerError>)
    requires |answers| == |ops|
    ensures r.Ok? <==> AllPass(c, q, ops, answers, |ops|)
    ensures r.Ok? ==> r.value == Collected(c, q, ops, answers, |ops|)
    ensures r.Ok? ==> Records(r.value, ops) && HashesFrom(answers, r.value)
    ensures r.Err? ==> exists k, check :: FirstFailure(c, q, ops, answers, k, check, r.error)
  {
    hide Passes, Records, HashesFrom, Reports;
    var batch := EMPTY_BATCH;
    for i := 0 to |ops|
      invariant AllPass(c, q, ops, answers, i)
      invariant batch == Collected(c, q, ops, answers, i)
    {
      var checked := CheckOp(c, q, i, ops[i], answers[i]);
      if checked.Err? {
        ghost var check :| Reports(c, q, i, ops[i], answers[i], check, checked.error);
        FailureEnds(c, q, ops, answers, i, check, checked.error);
        return Err(checked.error);
      }
      batch := Admit(batch, ops[i], checked.value.packed, checked.value.hash);
    }
    CollectedRecords(c, q, ops, answers, |ops|);
    assert ops[..|ops|] == ops && answers[..|ops|] == answers;
    r := Ok(batch);
  }

  /** Entry `i` of what is gathered is the packing of operation `i` and the provider's hash for
      it, and the running minima are exact. */
  lemma {:induction false} CollectedRecords(c: Config, q: Quote, ops: seq<UserOp>, answers: seq<OpAnswers>, n: nat)
    requires |answers| == |ops| && n <= |ops| && AllPass(c, q, ops, answers, n)
    ensures var b := Collected(c, q, ops, answers, n);
            Records(b, ops[..n]) && HashesFrom(answers[..n], b)
  {
    hide Records, HashesFrom, Passes, Pack;
    if n == 0 {
      EmptyRecords();
      assert ops[..0] == [] && answers[..0] == [];
    } else {
      CollectedRecords(c, q, ops, answers, n - 1);
      PassesMeans(c, q, n - 1, ops[n - 1], answers[n - 1]);
      AdmitNext(Collected(c, q, ops, answers, n - 1), ops, answers, n - 1, Pack(ops[n - 1]).value);
    }
  }

  /** The fee choice on the running minima is the declarative verdict on the batch; the minima
      of a non-empty batch are there to be unwrapped. */
  lemma RecordedFees(c: Config, q: Quote, b: Batch, ops: seq<UserOp>)
    requires ops != [] && Records(b, ops)
    ensures b.minTip.Some? && b.minCap.Some?
    ensures ChooseOuterFees(c, q.baseFee, q.suggestedTip, b.minTip.value, b.minCap.value) ==
            BatchFees(c, q.baseFee, q.suggestedTip, ops)
  {
    hide PacksTo;
    LeastUnique(b.minTip.value, LeastOf(Tips(ops)), Tips(ops));
    LeastUnique(b.minCap.value, LeastOf(Caps(ops)), Caps(ops));
  }

  lemma EmptyRecords()
    ensures Records(EMPTY_BATCH, []) && HashesFrom([], EMPTY_BATCH)
  {
  }

  lemma AdmitNext(b: Batch, ops: seq<UserOp>, answers: seq<OpAnswers>, i: nat, packed: PackedUserOp)
    requires |answers| == |ops| && i < |ops| && answers[i].hash(packed).Ok? && Pack(ops[i]) == Ok(packed)
    requires Records(b, ops[..i]) && HashesFrom(answers[..i], b)
    ensures var b' := Admit(b, ops[i], packed, UserOpHash(packed, answers[i].hash(packed).value));
            Records(b', ops[..i + 1]) && HashesFrom(answers[..i + 1], b')
  {
    hide Records;
    AdmitRecords(b, ops[..i], ops[i], packed, UserOpHash(packed, answers[i].hash(packed).value));
    assert ops[..i + 1] == ops[..i] + [ops[i]];
  }

  /** One failing operation settles the verdict on the whole batch. */
  lemma FailureEnds(c: Config, q: Quote, ops: seq<UserOp>, answers: seq<OpAnswers>,
                    k: nat, check: Check, e: BundlerError)
    requires |answers| == |ops| && k < |ops|
    requires AllPass(c, q, ops, answers, k) && Reports(c, q, k, ops[k], answers[k], check, e)
    ensures FirstFailure(c, q, ops, answers, k, check, e)
    ensures !AllPass(c, q, ops, answers, |ops|)
  {
    AllPassIff(c, q, ops, answers, |ops|);
    assert !Passes(c, q, k, ops[k], answers[k]);
  }

  /** A batch the loop accepts has passed the per-op fee policy throughout. */
  lemma AcceptedPaysFees(c: Config, q: Quote, ops: seq<UserOp>, answers: seq<OpAnswers>)
    requires |answers| == |ops| && AllPass(c, q, ops, answers, |ops|)
    ensures PerOpPass(c, q.baseFee, ops)
    ensures forall i :: 0 <= i < |ops| ==> PaysPolicy(c, ops[i], q.baseFee)
  {
    hide Pack, PaysPolicy, CheckPerOpFees;
    AllPassIff(c, q, ops, answers, |ops|);
    forall i | 0 <= i < |ops|
      ensures CheckPerOpFees(c, i, ops[i], q.baseFee).Ok? && PaysPolicy(c, ops[i], q.baseFee)
    {
      PassesMeans(c, q, i, ops[i], answers[i]);
      PerOpFeesIff(c, i, ops[i], q.baseFee);
    }
  }

  /** A batch the loop accepts, where every deposit query was answered from one snapshot, has
      passed the deposit comparison on that snapshot throughout. */
  lemma AcceptedIsFunded(c: Config, q: Quote, ops: seq<UserOp>, answers: seq<OpAnswers>, deposit: Address -> U256)
    requires |answers| == |ops| && AllPass(c, q, ops, answers, |ops|)
    requires forall i, a :: 0 <= i < |ops| ==> answers[i].deposit(a) == Ok(deposit(a))
    ensures DepositsAccepted(ops, deposit)
  {
    hide Pack, QuotePrefund, Passes;
    AllPassIff(c, q, ops, answers, |ops|);
    forall i | 0 <= i < |ops|
      ensures && Pack(ops[i]).Ok?
              && QuotePrefund(ops[i], Pack(ops[i]).value).Ok?
              && var quote := QuotePrefund(ops[i], Pack(ops[i]).value).value;
                 CompareDeposit(i, quote, deposit(quote.sponsor)).Ok?
    {
      PassesMeans(c, q, i, ops[i], answers[i]);
    }
  }

  /** ... so with pairwise distinct sponsors the batch the loop has gathered never commits more
      than its sponsors hold (a deposit of the largest word, which covers anything, aside). */
  lemma AcceptedIsSolvent(c: Config, q: Quote, ops: seq<UserOp>, answers: seq<OpAnswers>, deposit: Address -> U256)
    requires |answers| == |ops| && AllPass(c, q, ops, answers, |ops|)
    requires forall i, a :: 0 <= i < |ops| ==> answers[i].deposit(a) == Ok(deposit(a))
    requires var ps := Collected(c, q, ops, answers, |ops|).packed;
             DistinctSponsors(ps) && forall i :: 0 <= i < |ps| ==> deposit(SponsorOf(ps[i])) != MAX_U256
    ensures var ps := Collected(c, q, ops, answers, |ops|).packed;
            TotalPrefund(ps) <= TotalDeposits(Sponsors(ps), deposit)
  {
    hide AllPass, Collected, Pack, DepositsAccepted;
    AcceptedIsFunded(c, q, ops, answers, deposit);
    CollectedRecords(c, q, ops, answers, |ops|);
    assert ops[..|ops|] == ops;
    BatchSolvent(ops, Collected(c, q, ops, answers, |ops|).packed, deposit);
  }

  // --- The loop's checks on the bare inputs -----------------------------------

  /** Every value that lands in a 16-byte slot is a uint128. */
  predicate FitsSlots(op: UserOp) {
    && op.verificationGasLimit < TWO_128 && op.callGasLimit < TWO_128
    && op.maxPriorityFeePerGas < TWO_128 && op.maxFeePerGas < TWO_128
    && (UsesUnpackedPaymaster(op) ==>
          op.paymasterVerificationGasLimit < TWO_128 && op.paymasterPostOpGasLimit < TWO_128)
  }

  /** The paymaster blob is readable and the deposit of the sponsor in it covers the exact
      prefund, or is the largest word. */
  predicate IsFunded(p: PackedUserOp, deposit: Address -> Answer<U256>) {
    && (p.paymasterAndData == [] || |p.paymasterAndData| >= 52)
    && deposit(SponsorOf(p)).Ok?
    && (deposit(SponsorOf(p)).value >= ExactPrefund(p) || deposit(SponsorOf(p)).value == MAX_U256)
  }

  /** The simulation is answered with two windows that are open now and name no aggregator. */
  predicate IsValidated(answer: Answer<ReturnInfo>, now: U64) {
    && answer.Ok?
    && var a, p := answer.value.accountValidationData, answer.value.paymasterValidationData;
       && AggregatorField(a) == 0 && AggregatorField(p) == 0
       && Max(AfterField(a), AfterField(p)) <= now <= Min(Expiry(UntilField(a)), Expiry(UntilField(p)))
  }

  lemma PolicyFailure(c: Config, q: Quote, i: nat, op: UserOp, a: OpAnswers)
    ensures var e := Failure(c, q, i, op, a, FeePolicy);
            var tip, cap, min := op.maxPriorityFeePerGas, op.maxFeePerGas, c.minPriorityFee;
            && (e == None <==> PaysPolicy(c, op, q.baseFee))
            && (e.Some? ==>
                  e.value == (if tip > cap then InvalidUserOp(i, TipAboveCap)
                              else if tip < min then PriorityFeeTooLow(i, tip, min)
                              else FeeCapTooLow(i, cap, Min(q.baseFee + min, MAX_U256))))
  {
    PerOpFeesIff(c, i, op, q.baseFee);
  }

  lemma PackFailure(c: Config, q: Quote, i: nat, op: UserOp, a: OpAnswers)
    ensures var e := Failure(c, q, i, op, a, Packable);
            && (e == None <==> FitsSlots(op)) && (e == None <==> Pack(op).Ok?)
            && (e.Some? ==> e.value == PackFailed(Pack(op).error))
  {
    hide Pack;
    PackSucceedsIff(op);
  }

  lemma FundingFailure(c: Config, q: Quote, i: nat, op: UserOp, a: OpAnswers)
    requires Pack(op).Ok?
    ensures var e, p := Failure(c, q, i, op, a, Funded), Pack(op).value;
            && (e == None <==> IsFunded(p, a.deposit))
            && (e.Some? ==>
                  e.value == (if 0 < |p.paymasterAndData| < 52 then
                                PackFailed(PaymasterAndDataTooShort(|p.paymasterAndData|))
                              else if a.deposit(SponsorOf(p)).Err? then ProviderFault(a.deposit(SponsorOf(p)).error)
                              else InsufficientDeposit(i, SponsorOf(p), Min(ExactPrefund(p), MAX_U256),
                                                       a.deposit(SponsorOf(p)).value)))
  {
    hide Pack, QuotePrefund, CompareDeposit, ExactPrefund, SponsorOf;
    QuoteExact(op);
    if QuotePrefund(op, Pack(op).value).Ok? && a.deposit(SponsorOf(Pack(op).value)).Ok? {
      DepositAcceptedIff(op, i, a.deposit(SponsorOf(Pack(op).value)).value);
    }
  }

  lemma SimulationFailure(c: Config, q: Quote, i: nat, op: UserOp, a: OpAnswers)
    requires Pack(op).Ok?
    ensures var e, answer := Failure(c, q, i, op, a, Simulated), a.simulation(Pack(op).value);
            && (e == None <==> IsValidated(answer, q.now))
            && (e.Some? ==> e.value.ValidationFailed?)
            && (answer.Err? ==> e == Some(ValidationFailed(ProviderFailed(answer.error))))
  {
    hide Pack, Simulate;
    var answer := a.simulation(Pack(op).value);
    UnansweredIff(answer, q.now);
    if answer.Ok? {
      AcceptsIff(answer.value, q.now);
    } else {
      assert Simulate(answer, q.now) == Err(ProviderFailed(answer.error));
    }
  }

  lemma HashFailure(c: Config, q: Quote, i: nat, op: UserOp, a: OpAnswers)
    requires Pack(op).Ok?
    ensures var e, answer := Failure(c, q, i, op, a, Hashed), a.hash(Pack(op).value);
            && (e == None <==> answer.Ok?)
            && (e.Some? ==> e.value == ProviderFault(answer.error))
  {
    hide Pack;
  }

  /** An operation passes the loop exactly when it pays the policy, fits the packed slots, is
      funded and validated, and its hash is answered. */
  lemma PassesIff(c: Config, q: Quote, i: nat, op: UserOp, a: OpAnswers)
    ensures Passes(c, q, i, op, a) <==>
            && PaysPolicy(c, op, q.baseFee) && FitsSlots(op)
            && Pack(op).Ok? && IsFunded(Pack(op).value, a.deposit)
            && IsValidated(a.simulation(Pack(op).value), q.now)
            && a.hash(Pack(op).value).Ok?
  {
    hide Pack, Failure, PaysPolicy, FitsSlots, IsFunded, IsValidated;
    PolicyFailure(c, q, i, op, a);
    PackFailure(c, q, i, op, a);
    if Pack(op).Ok? {
      FundingFailure(c, q, i, op, a);
      SimulationFailure(c, q, i, op, a);
      HashFailure(c, q, i, op, a);
    }
    if Failure(c, q, i, op, a, FeePolicy) == None && Pack(op).Ok? && Failure(c, q, i, op, a, Funded) == None
       && Failure(c, q, i, op, a, Simulated) == None && Failure(c, q, i, op, a, Hashed) == None {
      forall check: Check ensures Failure(c, q, i, op, a, check) == None {
        match check {
          case FeePolicy =>
          case Packable =>
          case Funded =>
          case Simulated =>
          case Hashed =>
        }
      }
    }
  }

  /** What is reported, on the bare inputs and in the order of the code: policy, packing, prefund,
      simulation, hash. */
  lemma ReportsInOrder(c: Config, q: Quote, i: nat, op: UserOp, a: OpAnswers, check: Check, e: BundlerError)
    requires Reports(c, q, i, op, a, check, e)
    ensures check.FeePolicy? <==> !PaysPolicy(c, op, q.baseFee)
    ensures check.Packable? <==> PaysPolicy(c, op, q.baseFee) && !FitsSlots(op)
    ensures !check.FeePolicy? && !check.Packable? ==> Pack(op).Ok?
    ensures Pack(op).Ok? && PaysPolicy(c, op, q.baseFee) ==>
              var p := Pack(op).value;
              && (check.Funded? <==> !IsFunded(p, a.deposit))
              && (check.Simulated? <==> IsFunded(p, a.deposit) && !IsValidated(a.simulation(p), q.now))
              && (check.Hashed? <==>
                  IsFunded(p, a.deposit) && IsValidated(a.simulation(p), q.now) && a.hash(p).Err?)
  {
    hide Pack, Failure, PaysPolicy, FitsSlots, IsFunded, IsValidated;
    PolicyFailure(c, q, i, op, a);
    PackFailure(c, q, i, op, a);
    if Pack(op).Ok? {
      FundingFailure(c, q, i, op, a);
      SimulationFailure(c, q, i, op, a);
      HashFailure(c, q, i, op, a);
    }
    assert forall other: Check :: other.Rank() < check.Rank() ==> Failure(c, q, i, op, a, other) == None;
    assert FeePolicy.Rank() < Packable.Rank() < Funded.Rank() < Simulated.Rank() < Hashed.Rank();
  }

  /** A question about an operation that the provider does not answer is reported as an internal
      error, whichever question it is. */
  lemma OutageReport(c: Config, q: Quote, i: nat, op: UserOp, a: OpAnswers, check: Check, e: BundlerError)
    requires Reports(c, q, i, op, a, check, e) && Pack(op).Ok?
    ensures check.Funded? && a.deposit(SponsorOf(Pack(op).value)).Err?
            && (Pack(op).value.paymasterAndData == [] || |Pack(op).value.paymasterAndData| >= 52) ==>
              Classify(e) == RpcError(-32603, None)
    ensures check.Simulated? && a.simulation(Pack(op).value).Err? ==> Classify(e) == RpcError(-32603, None)
    ensures check.Hashed? ==> Classify(e) == RpcError(-32603, None)
  {
    hide Pack, Failure;
    FundingFailure(c, q, i, op, a);
    SimulationFailure(c, q, i, op, a);
    HashFailure(c, q, i, op, a);
  }

  lemma ReportsUnique(c: Config, q: Quote, i: nat, op: UserOp, a: OpAnswers,
                      check: Check, e: BundlerError, check': Check, e': BundlerError)
    requires Reports(c, q, i, op, a, check, e) && Reports(c, q, i, op, a, check', e')
    ensures check == check' && e == e'
  {
    assert check.Rank() == check'.Rank();
  }

  /** The reported failure is unique, so the loop's error is a function of its inputs. */
  lemma FirstFailureUnique(c: Config, q: Quote, ops: seq<UserOp>, answers: seq<OpAnswers>,
                           k: nat, check: Check, e: BundlerError, k': nat, check': Check, e': BundlerError)
    requires |answers| == |ops|
    requires FirstFailure(c, q, ops, answers, k, check, e)
    requires FirstFailure(c, q, ops, answers, k', check', e')
    ensures k == k' && check == check' && e == e'
  {
    assert !Passes(c, q, k, ops[k], answers[k]) && !Passes(c, q, k', ops[k'], answers[k']);
    AllPassIff(c, q, ops, answers, k);
    AllPassIff(c, q, ops, answers, k');
    ReportsUnique(c, q, k, ops[k], answers[k], check, e, check', e');
  }

  // --- Gas margin ----------------------------------------------------------

  /** Estimate plus margin; the product wraps at 64 bits, only the sum saturates. */
  function GasWithMargin(estimate: U64, pct: U32): U64 {
    AddMargin(estimate, Product(estimate, pct))
  }

  function Product(estimate: nat, pct: nat): nat {
    estimate * pct
  }

  function AddMargin(estimate: U64, product: nat): U64 {
    Min(estimate + (product % TWO_64) / 100, MAX_U64)
  }

  function IntendedGas(estimate: U64, pct: U32): nat {
    ExactMargin(estimate, Product(estimate, pct))
  }

  function ExactMargin(estimate: U64, product: nat): nat {
    Min(estimate + product / 100, MAX_U64)
  }

  /** The code meets the intended margin exactly when the product fits in 64 bits, or the
      wrapped margin already saturates the sum. */
  lemma MarginIff(estimate: U64, pct: U32)
    ensures GasWithMargin(estimate, pct) == IntendedGas(estimate, pct) <==>
            var product := Product(estimate, pct);
            product < TWO_64 || estimate + (product % TWO_64) / 100 >= MAX_U64
    ensures GasWithMargin(estimate, pct) >= estimate
  {
    hide Product, AddMargin, ExactMargin;
    AddMarginIff(estimate, Product(estimate, pct));
  }

  /** Where the sum cannot saturate by the wrapped margin alone, only the product matters. */
  lemma MarginIffProductFits(estimate: U64, pct: U32)
    requires estimate + MAX_U64 / 100 < MAX_U64
    ensures GasWithMargin(estimate, pct) == IntendedGas(estimate, pct) <==> estimate * pct < TWO_64
  {
    assert Product(estimate, pct) == estimate * pct;
    hide GasWithMargin, IntendedGas, Product;
    MarginIff(estimate, pct);
    WrappedBound(Product(estimate, pct));
  }

  lemma WrappedBound(product: nat)
    ensures (product % TWO_64) / 100 <= MAX_U64 / 100
  {
  }

  lemma AddMarginIff(estimate: U64, product: nat)
    ensures AddMargin(estimate, product) == ExactMargin(estimate, product) <==>
            product < TWO_64 || estimate + (product % TWO_64) / 100 >= MAX_U64
    ensures AddMargin(estimate, product) >= estimate
  {
    WrappedMargin(product);
  }

  /** Every estimate below `2^32` gets the intended margin, whatever the percentage. */
  lemma MarginForRealGas(estimate: U64, pct: U32)
    requires estimate < 0x1_0000_0000
    ensures GasWithMargin(estimate, pct) == IntendedGas(estimate, pct)
  {
    ProductMonotone(estimate, pct, 0xFFFF_FFFF, 0xFFFF_FFFF);
    assert Product(estimate, pct) < TWO_64;
    hide Product, GasWithMargin, IntendedGas;
    MarginIff(estimate, pct);
  }

  lemma WrappedMargin(product: nat)
    ensures product < TWO_64 ==> product % TWO_64 == product
    ensures product >= TWO_64 ==> (product % TWO_64) / 100 < product / 100
  {
    if product >= TWO_64 {
      assert product % TWO_64 <= product - TWO_64;
    }
  }

  /** A margin that wraps to nothing. */
  lemma MarginCanVanish()
    ensures GasWithMargin(0x8000_0000_0000_0000, 2) == 0x8000_0000_0000_0000
    ensures IntendedGas(0x8000_0000_0000_0000, 2) > 0x8000_0000_0000_0000
  {
  }

  lemma MarginMonotone(e1: U64, p1: U32, e2: U64, p2: U32)
    requires e1 <= e2 && p1 <= p2 && e2 * p2 < TWO_64
    ensures GasWithMargin(e1, p1) <= GasWithMargin(e2, p2)
  {
    ProductMonotone(e1, p1, e2, p2);
    AddMarginMonotone(e1, Product(e1, p1), e2, Product(e2, p2));
  }

  lemma AddMarginMonotone(e1: U64, x1: nat, e2: U64, x2: nat)
    requires e1 <= e2 && x1 <= x2 < TWO_64
    ensures AddMargin(e1, x1) <= AddMargin(e2, x2)
  {
  }

  lemma ProductMonotone(a: nat, b: nat, c: nat, d: nat)
    requires a <= c && b <= d
    ensures a * b <= c * d
  {
    assert a * b <= c * b;
    assert c * b <= c * d;
  }
}
