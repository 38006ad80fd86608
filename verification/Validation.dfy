/** Decoding of ERC-4337 v0.7 validation data and the accept/reject decision on it. */
module Validation {
  import opened Types
  import opened BigEndian

  /** `address(1)`: the sentinel for a failed signature. */
  const SIG_VALIDATION_FAILED: Address := [0, 0, 0, 0, 0, 0, 0, 0, 0, 0, 0, 0, 0, 0, 0, 0, 0, 0, 0, 1]

  const UINT48_MAX: U64 := TWO_48 - 1

  datatype ReturnInfo = ReturnInfo(
    preOpGas: U256,
    prefund: U256,
    accountValidationData: U256,
    paymasterValidationData: U256)

  datatype Window = Window(aggregator: Address, validAfter: U64, validUntil: U64) {
    predicate SignatureFailed() {
      aggregator == SIG_VALIDATION_FAILED
    }

    predicate RequiresAggregator() {
      aggregator != ZERO_ADDRESS && !SignatureFailed()
    }

    predicate IsOutOfTimeRange(now: U64) {
      now > validUntil || now < validAfter
    }
  }

  datatype Report = Report(preOpGas: U256, prefund: U256, account: Window, paymaster: Window)

  datatype ValidationError =
    | ProviderFailed(error: ProviderError)
    | AccountSignatureFailed
    | PaymasterSignatureFailed
    | OutOfTimeRange(now: U64, account: Window, paymaster: Window)
    | UnsupportedAggregator

  function TryU64(x: nat): Option<U64> {
    if x < TWO_64 then Some(x) else None
  }

  function UnwrapOr(x: Option<U64>, fallback: U64): U64 {
    if x.Some? then x.value else fallback
  }

  /** Shifts are quotients and low-bit masks are remainders by powers of two. */
  function ParseWindow(data: U256): Window {
    var aggregatorBits := data % TWO_160;
    var untilRaw := UnwrapOr(TryU64((data / TWO_160) % TWO_48), UINT48_MAX);
    var after := UnwrapOr(TryU64((data / TWO_208) % TWO_48), 0);
    Window(ToBE(aggregatorBits, 32)[12..], after, if untilRaw == 0 then UINT48_MAX else untilRaw)
  }

  function Simulate(answer: Answer<ReturnInfo>, now: U64): Result<Report, ValidationError> {
    if answer.Err? then Err(ProviderFailed(answer.error))
    else
      var account := ParseWindow(answer.value.accountValidationData);
      var paymaster := ParseWindow(answer.value.paymasterValidationData);
      if account.SignatureFailed() then Err(AccountSignatureFailed)
      else if paymaster.SignatureFailed() then Err(PaymasterSignatureFailed)
      else if account.RequiresAggregator() || paymaster.RequiresAggregator() then Err(UnsupportedAggregator)
      else if account.IsOutOfTimeRange(now) || paymaster.IsOutOfTimeRange(now) then
        Err(OutOfTimeRange(now, account, paymaster))
      else Ok(Report(answer.value.preOpGas, answer.value.prefund, account, paymaster))
  }

  // --- The word layout -----------------------------------------------------

  /** `aggregator | validUntil << 160 | validAfter << 208`. */
  function Layout(aggregator: nat, until: nat, after: nat): (data: U256)
    requires aggregator < TWO_160 && until < TWO_48 && after < TWO_48
  {
    aggregator + until * TWO_160 + after * TWO_208
  }

  function AggregatorField(data: U256): nat {
    data % TWO_160
  }

  function UntilField(data: U256): nat {
    (data / TWO_160) % TWO_48
  }

  function AfterField(data: U256): nat {
    data / TWO_208
  }

  /** "No expiry" is written as zero. */
  function Expiry(until: nat): nat {
    if until == 0 then TWO_48 - 1 else until
  }

  /** Every 256-bit word is the layout of exactly one triple of fields. */
  lemma LayoutBijective(data: U256, aggregator: nat, until: nat, after: nat)
    requires aggregator < TWO_160 && until < TWO_48 && after < TWO_48
    ensures UntilField(data) < TWO_48 && AfterField(data) < TWO_48
    ensures data == Layout(aggregator, until, after) <==>
            aggregator == AggregatorField(data) && until == UntilField(data) && after == AfterField(data)
  {
    var q := data / TWO_160;
    assert data == q * TWO_160 + data % TWO_160;
    assert TWO_208 == TWO_160 * TWO_48;
    assert q / TWO_48 == data / TWO_208;
    assert q == (q / TWO_48) * TWO_48 + q % TWO_48;
  }

  lemma ZeroBytes(n: nat, i: nat)
    requires i < n
    ensures ToBE(0, n)[i] == 0
  {
    if i < n - 1 {
      ZeroBytes(n - 1, i);
    }
  }

  lemma ZeroSentinel()
    ensures ToBE(0, 20) == ZERO_ADDRESS
  {
    forall i | 0 <= i < 20 ensures ToBE(0, 20)[i] == ZERO_ADDRESS[i] {
      ZeroBytes(20, i);
    }
  }

  lemma OneSentinel()
    ensures ToBE(1, 20) == SIG_VALIDATION_FAILED
  {
    forall i | 0 <= i < 19 ensures ToBE(1, 20)[i] == SIG_VALIDATION_FAILED[i] {
      ZeroBytes(19, i);
    }
  }

  /** The address made of the low 160 bits is a sentinel exactly when the bits are. */
  lemma AggregatorBytes(bits: nat)
    requires bits < TWO_160
    ensures ToBE(bits, 32)[12..] == ToBE(bits, 20)
    ensures FromBE(ToBE(bits, 32)[12..]) == bits
    ensures ToBE(bits, 32)[12..] == ZERO_ADDRESS <==> bits == 0
    ensures ToBE(bits, 32)[12..] == SIG_VALIDATION_FAILED <==> bits == 1
  {
    ToBESuffix(bits, 32, 20);
    Pow256Values();
    FromToBE(bits, 20);
    FromToBE(0, 20);
    FromToBE(1, 20);
    ZeroSentinel();
    OneSentinel();
  }

  /** What the decoder returns, in terms of the raw fields; in particular neither
      fallback of the narrowing conversions is ever taken. */
  lemma ParseWindowFields(data: U256)
    ensures TryU64((data / TWO_160) % TWO_48).Some? && TryU64((data / TWO_208) % TWO_48).Some?
    ensures var w := ParseWindow(data);
            && FromBE(w.aggregator) == AggregatorField(data)
            && w.validUntil == Expiry(UntilField(data))
            && w.validAfter == AfterField(data)
            && (w.SignatureFailed() <==> AggregatorField(data) == 1)
            && (w.RequiresAggregator() <==> AggregatorField(data) > 1)
  {
    AggregatorBytes(data % TWO_160);
    LayoutBijective(data, 0, 0, 0);
  }

  /** Decoding inverts the layout for all in-range fields. */
  lemma ParseInvertsLayout(aggregator: nat, until: nat, after: nat)
    requires aggregator < TWO_160 && until < TWO_48 && after < TWO_48
    ensures var w := ParseWindow(Layout(aggregator, until, after));
            && w.aggregator == ToBE(aggregator, 20)
            && w.validUntil == Expiry(until)
            && w.validAfter == after
  {
    var data := Layout(aggregator, until, after);
    LayoutBijective(data, aggregator, until, after);
    ParseWindowFields(data);
    AggregatorBytes(aggregator);
  }

  /** The decoder conflates two words only through the two spellings of "no expiry". */
  lemma ParseAlike(a: U256, b: U256)
    ensures ParseWindow(a) == ParseWindow(b) <==>
            a == b || (&& AggregatorField(a) == AggregatorField(b)
                       && AfterField(a) == AfterField(b)
                       && {UntilField(a), UntilField(b)} == {0, TWO_48 - 1})
  {
    ParseWindowFields(a);
    ParseWindowFields(b);
    LayoutBijective(a, AggregatorField(a), UntilField(a), AfterField(a));
    LayoutBijective(b, AggregatorField(b), UntilField(b), AfterField(b));
    if ParseWindow(a) == ParseWindow(b) && UntilField(a) != UntilField(b) {
      assert {UntilField(a), UntilField(b)} == {0, TWO_48 - 1};
    }
    if AggregatorField(a) == AggregatorField(b) && AfterField(a) == AfterField(b)
       && {UntilField(a), UntilField(b)} == {0, TWO_48 - 1} {
      var untils := {UntilField(a), UntilField(b)};
      assert UntilField(a) in untils && UntilField(b) in untils;
      assert Expiry(UntilField(a)) == Expiry(UntilField(b));
    }
  }

  // --- The decision --------------------------------------------------------

  /** Acceptance on the raw words: no aggregator on either side, and `now` inside the
      intersection of the two windows. */
  lemma AcceptsIff(info: ReturnInfo, now: U64)
    ensures var a, p := info.accountValidationData, info.paymasterValidationData;
            Simulate(Ok(info), now).Ok? <==>
            && AggregatorField(a) == 0 && AggregatorField(p) == 0
            && Max(AfterField(a), AfterField(p)) <= now
            && now <= Min(Expiry(UntilField(a)), Expiry(UntilField(p)))
  {
    ParseWindowFields(info.accountValidationData);
    ParseWindowFields(info.paymasterValidationData);
  }

  /** A simulation that was not answered is reported as the provider's failure, and nothing
      else is. */
  lemma UnansweredIff(answer: Answer<ReturnInfo>, now: U64)
    ensures forall e :: Simulate(answer, now) == Err(ProviderFailed(e)) <==> answer == Err(e)
  {
    hide ParseWindow;
  }

  /** An accepted report carries the EntryPoint's figures and the decoded windows over. */
  lemma ReportContents(info: ReturnInfo, now: U64)
    requires Simulate(Ok(info), now).Ok?
    ensures var report := Simulate(Ok(info), now).value;
            var a, p := info.accountValidationData, info.paymasterValidationData;
            && report.preOpGas == info.preOpGas && report.prefund == info.prefund
            && report.account.validAfter == AfterField(a) && report.account.validUntil == Expiry(UntilField(a))
            && report.paymaster.validAfter == AfterField(p) && report.paymaster.validUntil == Expiry(UntilField(p))
  {
    ParseWindowFields(info.accountValidationData);
    ParseWindowFields(info.paymasterValidationData);
  }

  /** Every rejection names the first failing test: account signature, paymaster
      signature, aggregator, time. */
  lemma RejectionPrecedence(info: ReturnInfo, now: U64)
    ensures var a, p := info.accountValidationData, info.paymasterValidationData;
            var r := Simulate(Ok(info), now);
            && (r == Err(AccountSignatureFailed) <==> AggregatorField(a) == 1)
            && (r == Err(PaymasterSignatureFailed) <==> AggregatorField(a) != 1 && AggregatorField(p) == 1)
            && (r == Err(UnsupportedAggregator) <==>
                && AggregatorField(a) != 1 && AggregatorField(p) != 1
                && (AggregatorField(a) != 0 || AggregatorField(p) != 0))
            && ((r.Err? && r.error.OutOfTimeRange?) <==>
                && AggregatorField(a) == 0 && AggregatorField(p) == 0
                && !(Max(AfterField(a), AfterField(p)) <= now
                     <= Min(Expiry(UntilField(a)), Expiry(UntilField(p)))))
            && (r.Err? && r.error.OutOfTimeRange? ==>
                  && r.error.now == now
                  && r.error.account.validAfter == AfterField(a)
                  && r.error.account.validUntil == Expiry(UntilField(a))
                  && r.error.paymaster.validAfter == AfterField(p)
                  && r.error.paymaster.validUntil == Expiry(UntilField(p)))
            && !(r.Err? && r.error.ProviderFailed?)
  {
    ParseWindowFields(info.accountValidationData);
    ParseWindowFields(info.paymasterValidationData);
  }
}
