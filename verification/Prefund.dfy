/** The v0.7 prefund: who pays, how much is required, and when a deposit covers it. */
module Prefund {
  import opened Types
  import opened BigEndian
  import opened Packing
  import opened Errors

  datatype PrefundQuote = PrefundQuote(sponsor: Address, required: U256)

  function RequiredPrefund(op: UserOp, pmVer: U256, pmPost: U256): U256 {
    SatMul(SatAdd(SatAdd(SatAdd(SatAdd(op.verificationGasLimit, op.callGasLimit), pmVer), pmPost),
                  op.preVerificationGas),
           op.maxFeePerGas)
  }

  function QuotePrefund(op: UserOp, packed: PackedUserOp): Result<PrefundQuote, PackError> {
    var parsed := ParsePaymasterAndData(packed.paymasterAndData);
    if parsed.Err? then Err(parsed.error)
    else if parsed.value.Some? && parsed.value.value.paymaster != ZERO_ADDRESS then
      Ok(PrefundQuote(parsed.value.value.paymaster,
                      RequiredPrefund(op, parsed.value.value.verificationGas, parsed.value.value.postOpGas)))
    else Ok(PrefundQuote(op.sender, RequiredPrefund(op, 0, 0)))
  }

  function CompareDeposit(i: nat, quote: PrefundQuote, deposit: U256): Result<(), BundlerError> {
    if deposit < quote.required then
      Err(InsufficientDeposit(i, quote.sponsor, quote.required, deposit))
    else Ok(())
  }

  // --- The exact amount, read from the packed bytes ------------------------

  function SponsorLimits(packed: PackedUserOp): (r: (nat, nat)) {
    var blob := packed.paymasterAndData;
    if |blob| >= PAYMASTER_HEADER_LEN && blob[..20] != ZERO_ADDRESS then
      (FromBE(blob[20..36]), FromBE(blob[36..52]))
    else (0, 0)
  }

  function Cost(gas: nat, price: nat): nat {
    gas * price
  }

  /** Unbounded arithmetic on the limits an onchain reader decodes from the packed words. */
  function ExactPrefund(packed: PackedUserOp): nat {
    var (ver, call) := UnpackUints(packed.accountGasLimits);
    var (pmVer, pmPost) := SponsorLimits(packed);
    Cost(ver + call + pmVer + pmPost + packed.preVerificationGas, UnpackUints(packed.gasFees).1)
  }

  function SponsorOf(packed: PackedUserOp): Address {
    var blob := packed.paymasterAndData;
    if |blob| >= PAYMASTER_HEADER_LEN && blob[..20] != ZERO_ADDRESS then blob[..20] else packed.sender
  }

  /** A saturating product of a saturating sum only loses what exceeds the word. */
  lemma SaturatedProduct(total: nat, sum: U256, fee: U256)
    requires sum == Min(total, MAX_U256)
    ensures SatMul(sum, fee) == Min(total * fee, MAX_U256)
  {
    if fee > 0 && total > MAX_U256 {
      assert total * fee >= total;
      assert sum * fee >= sum;
    } else if fee == 0 {
      assert total * fee == 0 && sum * fee == 0;
    }
  }

  /** The saturating chain is the exact formula clipped at the word size, for all inputs. */
  lemma RequiredPrefundExact(op: UserOp, pmVer: U256, pmPost: U256)
    ensures RequiredPrefund(op, pmVer, pmPost) ==
            Min((op.verificationGasLimit + op.callGasLimit + pmVer + pmPost + op.preVerificationGas)
                * op.maxFeePerGas, MAX_U256)
  {
    var total := op.verificationGasLimit + op.callGasLimit + pmVer + pmPost + op.preVerificationGas;
    var sum := SatAdd(SatAdd(SatAdd(SatAdd(op.verificationGasLimit, op.callGasLimit), pmVer), pmPost),
                      op.preVerificationGas);
    assert sum == Min(total, MAX_U256);
    SaturatedProduct(total, sum, op.maxFeePerGas);
  }

  /** The quote for a packed operation exists exactly when its blob is empty or has a whole
      header; it names the sponsor in the bytes and asks for the exact amount, clipped. */
  lemma QuoteExact(op: UserOp)
    requires Pack(op).Ok?
    ensures var packed := Pack(op).value;
            && (QuotePrefund(op, packed).Ok? <==>
                packed.paymasterAndData == [] || |packed.paymasterAndData| >= PAYMASTER_HEADER_LEN)
            && (QuotePrefund(op, packed).Err? ==>
                  QuotePrefund(op, packed).error == PaymasterAndDataTooShort(|packed.paymasterAndData|))
            && (QuotePrefund(op, packed).Ok? ==>
                  QuotePrefund(op, packed).value ==
                  PrefundQuote(SponsorOf(packed), Min(ExactPrefund(packed), MAX_U256)))
  {
    var packed := Pack(op).value;
    PackRoundTrip(op);
    var limits := SponsorLimits(packed);
    if |packed.paymasterAndData| >= PAYMASTER_HEADER_LEN {
      FieldFits(packed.paymasterAndData[20..36]);
      FieldFits(packed.paymasterAndData[36..52]);
    }
    RequiredPrefundExact(op, limits.0, limits.1);
  }

  /** In the unpacked paymaster form the limits re-read from the bytes are the wire fields. */
  lemma UnpackedFormPrefund(op: UserOp)
    requires Pack(op).Ok? && UsesUnpackedPaymaster(op)
    ensures var packed := Pack(op).value;
            && SponsorOf(packed) == op.paymaster.value
            && ExactPrefund(packed) ==
               (op.verificationGasLimit + op.callGasLimit + op.paymasterVerificationGasLimit
                + op.paymasterPostOpGasLimit + op.preVerificationGas) * op.maxFeePerGas
  {
    PackRoundTrip(op);
    PaymasterRoundTrip(op);
  }

  /** A deposit is accepted exactly when it covers the exact amount, or is the largest word. */
  lemma DepositAcceptedIff(op: UserOp, i: nat, deposit: U256)
    requires Pack(op).Ok? && QuotePrefund(op, Pack(op).value).Ok?
    ensures CompareDeposit(i, QuotePrefund(op, Pack(op).value).value, deposit).Ok? <==>
            deposit >= ExactPrefund(Pack(op).value) || deposit == MAX_U256
    ensures var p := Pack(op).value;
            var r := CompareDeposit(i, QuotePrefund(op, p).value, deposit);
            r.Err? ==> r.error == InsufficientDeposit(i, SponsorOf(p), Min(ExactPrefund(p), MAX_U256), deposit)
  {
    QuoteExact(op);
  }

  // --- Solvency of a batch -------------------------------------------------

  ghost function TotalPrefund(ps: seq<PackedUserOp>): nat {
    if ps == [] then 0 else ExactPrefund(ps[0]) + TotalPrefund(ps[1..])
  }

  ghost function Sponsors(ps: seq<PackedUserOp>): set<Address> {
    set i | 0 <= i < |ps| :: SponsorOf(ps[i])
  }

  /** The money held by a set of accounts on one snapshot of the EntryPoint. */
  ghost function TotalDeposits(accounts: set<Address>, deposit: Address -> U256): nat {
    if accounts == {} then 0
    else
      var a :| a in accounts;
      deposit(a) + TotalDeposits(accounts - {a}, deposit)
  }

  lemma {:induction false} TotalDepositsAdd(accounts: set<Address>, a: Address, deposit: Address -> U256)
    requires a !in accounts
    ensures TotalDeposits(accounts + {a}, deposit) == deposit(a) + TotalDeposits(accounts, deposit)
  {
    DepositsWithout(accounts + {a}, a, deposit);
    assert accounts + {a} - {a} == accounts;
  }

  lemma {:induction false} DepositsWithout(accounts: set<Address>, a: Address, deposit: Address -> U256)
    requires a in accounts
    ensures TotalDeposits(accounts, deposit) == deposit(a) + TotalDeposits(accounts - {a}, deposit)
  {
    var picked :| picked in accounts &&
                  TotalDeposits(accounts, deposit) == deposit(picked) + TotalDeposits(accounts - {picked}, deposit);
    if picked != a {
      DepositsWithout(accounts - {picked}, a, deposit);
      DepositsWithout(accounts - {a}, picked, deposit);
      assert accounts - {picked} - {a} == accounts - {a} - {picked};
    }
  }

  ghost predicate DistinctSponsors(ps: seq<PackedUserOp>) {
    forall i, j :: 0 <= i < j < |ps| ==> SponsorOf(ps[i]) != SponsorOf(ps[j])
  }

  /** Every operation of a batch passed the deposit comparison on one snapshot. */
  ghost predicate DepositsAccepted(ops: seq<UserOp>, deposit: Address -> U256) {
    forall i :: 0 <= i < |ops| ==>
      && Pack(ops[i]).Ok?
      && QuotePrefund(ops[i], Pack(ops[i]).value).Ok?
      && var quote := QuotePrefund(ops[i], Pack(ops[i]).value).value;
         CompareDeposit(i, quote, deposit(quote.sponsor)).Ok?
  }

  ghost predicate PacksTo(ops: seq<UserOp>, ps: seq<PackedUserOp>) {
    |ops| == |ps| && forall i :: 0 <= i < |ops| ==> Pack(ops[i]) == Ok(ps[i])
  }

  lemma SponsorsOfTail(ps: seq<PackedUserOp>)
    requires ps != []
    ensures Sponsors(ps) == Sponsors(ps[1..]) + {SponsorOf(ps[0])}
  {
    forall a | a in Sponsors(ps) ensures a in Sponsors(ps[1..]) + {SponsorOf(ps[0])} {
      var i :| 0 <= i < |ps| && SponsorOf(ps[i]) == a;
      if i > 0 {
        assert ps[1..][i - 1] == ps[i];
      }
    }
    forall a | a in Sponsors(ps[1..]) ensures a in Sponsors(ps) {
      var i :| 0 <= i < |ps[1..]| && SponsorOf(ps[1..][i]) == a;
      assert ps[i + 1] == ps[1..][i];
    }
  }

  lemma FirstCovered(ops: seq<UserOp>, ps: seq<PackedUserOp>, deposit: Address -> U256)
    requires PacksTo(ops, ps) && DepositsAccepted(ops, deposit) && ps != []
    requires deposit(SponsorOf(ps[0])) != MAX_U256
    ensures ExactPrefund(ps[0]) <= deposit(SponsorOf(ps[0]))
  {
    assert Pack(ops[0]) == Ok(ps[0]);
    QuoteExact(ops[0]);
    DepositAcceptedIff(ops[0], 0, deposit(SponsorOf(ps[0])));
  }

  /** With pairwise distinct sponsors an accepted batch never commits more than its sponsors hold. */
  lemma {:induction false} BatchSolvent(ops: seq<UserOp>, ps: seq<PackedUserOp>, deposit: Address -> U256)
    requires PacksTo(ops, ps) && DepositsAccepted(ops, deposit) && DistinctSponsors(ps)
    requires forall i :: 0 <= i < |ps| ==> deposit(SponsorOf(ps[i])) != MAX_U256
    ensures TotalPrefund(ps) <= TotalDeposits(Sponsors(ps), deposit)
  {
    if ps != [] {
      FirstCovered(ops, ps, deposit);
      TailAccepted(ops, deposit);
      BatchSolvent(ops[1..], ps[1..], deposit);
      SponsorsOfTail(ps);
      TotalDepositsAdd(Sponsors(ps[1..]), SponsorOf(ps[0]), deposit);
    }
  }

  lemma TailAccepted(ops: seq<UserOp>, deposit: Address -> U256)
    requires ops != [] && DepositsAccepted(ops, deposit)
    ensures DepositsAccepted(ops[1..], deposit)
  {
    forall i | 0 <= i < |ops[1..]|
      ensures && Pack(ops[1..][i]).Ok?
              && QuotePrefund(ops[1..][i], Pack(ops[1..][i]).value).Ok?
              && var quote := QuotePrefund(ops[1..][i], Pack(ops[1..][i]).value).value;
                 CompareDeposit(i, quote, deposit(quote.sponsor)).Ok?
    {
      assert ops[1..][i] == ops[i + 1];
    }
  }

  /** An operation whose only cost is `gas` units of call gas at one wei each. */
  function Spender(gas: U256): UserOp {
    UserOp(ZERO_ADDRESS, 0, [], None, [], [], gas, 0, 0, 1, 1, None, 0, 0, [], [], [])
  }

  /** Distinctness matters: operations sharing a sponsor are each compared with the full deposit. */
  lemma SharedSponsorOvercommits(deposit: Address -> U256)
    requires deposit(ZERO_ADDRESS) == 10
    ensures var ops := [Spender(6), Spender(6)];
            && DepositsAccepted(ops, deposit)
            && exists ps :: PacksTo(ops, ps) && TotalPrefund(ps) > TotalDeposits(Sponsors(ps), deposit)
  {
    var op := Spender(6);
    SpenderCost(6);
    var p := Pack(op).value;
    var ps := [p, p];
    assert TotalPrefund(ps) == 12 by {
      assert ps[1..] == [p];
      assert TotalPrefund([p]) == 6;
    }
    assert Sponsors(ps) == {ZERO_ADDRESS};
    TotalDepositsAdd({}, ZERO_ADDRESS, deposit);
    assert {} + {ZERO_ADDRESS} == {ZERO_ADDRESS};
    assert PacksTo([op, op], ps);
  }

  lemma SpenderCost(gas: U256)
    requires gas < TWO_128
    ensures Pack(Spender(gas)).Ok?
    ensures var p := Pack(Spender(gas)).value;
            && ExactPrefund(p) == gas && SponsorOf(p) == ZERO_ADDRESS
            && QuotePrefund(Spender(gas), p) == Ok(PrefundQuote(ZERO_ADDRESS, gas))
  {
    PackSucceedsIff(Spender(gas));
    PackRoundTrip(Spender(gas));
    QuoteExact(Spender(gas));
  }
}
