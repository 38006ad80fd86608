/** v0.7 user operation packing and `paymasterAndData` parsing. */
module Packing {
  import opened Types
  import opened BigEndian

  const PAYMASTER_HEADER_LEN: nat := 52

  datatype PackField =
    | AccountGasLimits
    | GasFees
    | PaymasterVerificationGasLimit
    | PaymasterPostOpGasLimit

  datatype PackError =
    | Overflow(field: PackField)
    | PaymasterAndDataTooShort(len: nat)

  datatype PaymasterHeader = PaymasterHeader(paymaster: Address, verificationGas: U256, postOpGas: U256)

  // --- Specification functions -------------------------------------------

  function PackPair(hi: U256, lo: U256, field: PackField): Result<Bytes32, PackError> {
    if BitLen(hi) > 128 || BitLen(lo) > 128 then Err(Overflow(field))
    else Ok(ToBE(hi, 32)[16..] + ToBE(lo, 32)[16..])
  }

  function EffectiveInitCode(op: UserOp): Bytes {
    if op.initCode != [] then op.initCode
    else if op.factory.Some? && op.factory.value != ZERO_ADDRESS then op.factory.value + op.factoryData
    else []
  }

  function EffectivePaymasterAndData(op: UserOp): Result<Bytes, PackError> {
    if op.paymasterAndData != [] then Ok(op.paymasterAndData)
    else if op.paymaster.None? || op.paymaster.value == ZERO_ADDRESS then Ok([])
    else if BitLen(op.paymasterVerificationGasLimit) > 128 then Err(Overflow(PaymasterVerificationGasLimit))
    else if BitLen(op.paymasterPostOpGasLimit) > 128 then Err(Overflow(PaymasterPostOpGasLimit))
    else Ok(op.paymaster.value + ToBE(op.paymasterVerificationGasLimit, 32)[16..]
            + ToBE(op.paymasterPostOpGasLimit, 32)[16..] + op.paymasterData)
  }

  function Pack(op: UserOp): Result<PackedUserOp, PackError> {
    var paymasterAndData := EffectivePaymasterAndData(op);
    var limits := PackPair(op.verificationGasLimit, op.callGasLimit, AccountGasLimits);
    var fees := PackPair(op.maxPriorityFeePerGas, op.maxFeePerGas, GasFees);
    if paymasterAndData.Err? then Err(paymasterAndData.error)
    else if limits.Err? then Err(limits.error)
    else if fees.Err? then Err(fees.error)
    else Ok(PackedUserOp(op.sender, op.nonce, EffectiveInitCode(op), op.callData, limits.value,
                         op.preVerificationGas, fees.value, paymasterAndData.value, op.signature))
  }

  function ParsePaymasterAndData(blob: Bytes): Result<Option<PaymasterHeader>, PackError> {
    if blob == [] then Ok(None)
    else if |blob| < PAYMASTER_HEADER_LEN then Err(PaymasterAndDataTooShort(|blob|))
    else
      FieldFits(blob[20..36]);
      FieldFits(blob[36..52]);
      Ok(Some(PaymasterHeader(blob[..20], FromBE(blob[20..36]), FromBE(blob[36..52]))))
  }

  /** How the EntryPoint reads a packed word: high half and low half of the number. */
  function UnpackUints(word: Bytes32): (r: (nat, nat)) {
    (FromBE(word) / TWO_128, FromBE(word) % TWO_128)
  }

  // --- The packer in its imperative form ---------------------------------

  /** Fills the two halves of a zeroed 32-byte buffer. */
  method PackPairToBytes32(hi: U256, lo: U256, field: PackField) returns (r: Result<Bytes32, PackError>)
    ensures r == PackPair(hi, lo, field)
  {
    if BitLen(hi) > 128 || BitLen(lo) > 128 {
      return Err(Overflow(field));
    }
    var out := new byte[32](_ => 0);
    var hiBytes, loBytes := ToBE(hi, 32), ToBE(lo, 32);
    for i := 0 to 16
      invariant out[..i] == hiBytes[16..16 + i]
    {
      out[i] := hiBytes[16 + i];
    }
    for i := 0 to 16
      invariant out[..16] == hiBytes[16..]
      invariant out[16..16 + i] == loBytes[16..16 + i]
    {
      out[16 + i] := loBytes[16 + i];
    }
    assert out[16..] == out[16..32] == loBytes[16..32] == loBytes[16..];
    assert out[..] == hiBytes[16..] + loBytes[16..];
    r := Ok(out[..]);
  }

  /** Grows the `initCode` and `paymasterAndData` buffers piece by piece. */
  method PackUserOp(op: UserOp) returns (r: Result<PackedUserOp, PackError>)
    ensures r == Pack(op)
  {
    var initCode: Bytes := [];
    if op.initCode != [] {
      initCode := op.initCode;
    } else if op.factory.Some? && op.factory.value != ZERO_ADDRESS {
      initCode := initCode + op.factory.value;
      assert initCode == op.factory.value;
      initCode := initCode + op.factoryData;
    }

    var paymasterAndData: Bytes := [];
    if op.paymasterAndData != [] {
      paymasterAndData := op.paymasterAndData;
    } else if op.paymaster.Some? && op.paymaster.value != ZERO_ADDRESS {
      if BitLen(op.paymasterVerificationGasLimit) > 128 {
        return Err(Overflow(PaymasterVerificationGasLimit));
      }
      if BitLen(op.paymasterPostOpGasLimit) > 128 {
        return Err(Overflow(PaymasterPostOpGasLimit));
      }
      paymasterAndData := paymasterAndData + op.paymaster.value;
      assert paymasterAndData == op.paymaster.value;
      paymasterAndData := paymasterAndData + ToBE(op.paymasterVerificationGasLimit, 32)[16..];
      paymasterAndData := paymasterAndData + ToBE(op.paymasterPostOpGasLimit, 32)[16..];
      paymasterAndData := paymasterAndData + op.paymasterData;
    }

    var limits := PackPairToBytes32(op.verificationGasLimit, op.callGasLimit, AccountGasLimits);
    if limits.Err? {
      return Err(limits.error);
    }
    var fees := PackPairToBytes32(op.maxPriorityFeePerGas, op.maxFeePerGas, GasFees);
    if fees.Err? {
      return Err(fees.error);
    }
    r := Ok(PackedUserOp(op.sender, op.nonce, initCode, op.callData, limits.value,
                         op.preVerificationGas, fees.value, paymasterAndData, op.signature));
  }

  // --- Byte-level meaning -------------------------------------------------

  lemma FieldFits(bs: Bytes)
    requires |bs| == 16
    ensures FromBE(bs) < TWO_128
  {
    FromBEBound(bs);
    Pow256Values();
  }

  /** A uint128 survives the trip through the low half of its 32-byte encoding. */
  lemma HalfRoundTrip(n: nat)
    requires n < TWO_128
    ensures ToBE(n, 32)[16..] == ToBE(n, 16)
    ensures FromBE(ToBE(n, 32)[16..]) == n
  {
    ToBESuffix(n, 32, 16);
    Pow256Values();
    FromToBE(n, 16);
  }

  /** A packed pair exists exactly for uint128 operands, reads big-endian as
      `hi * 2^128 + lo`, and the EntryPoint recovers both halves. */
  lemma PackPairMeaning(hi: U256, lo: U256, field: PackField)
    ensures PackPair(hi, lo, field).Ok? <==> hi < TWO_128 && lo < TWO_128
    ensures PackPair(hi, lo, field).Ok? ==>
              var word := PackPair(hi, lo, field).value;
              && FromBE(word) == hi * TWO_128 + lo
              && FromBE(word[..16]) == hi && FromBE(word[16..]) == lo
              && UnpackUints(word) == (hi, lo)
  {
    BitLen128(hi);
    BitLen128(lo);
    if hi < TWO_128 && lo < TWO_128 {
      HalfRoundTrip(hi);
      HalfRoundTrip(lo);
      var word := PackPair(hi, lo, field).value;
      assert word[..16] == ToBE(hi, 32)[16..];
      assert word[16..] == ToBE(lo, 32)[16..];
      UnpackHalves(word);
    }
  }

  /** A word reads as its high half times `2^128` plus its low half. */
  lemma UnpackHalves(word: Bytes32)
    ensures FromBE(word) == FromBE(word[..16]) * TWO_128 + FromBE(word[16..])
    ensures UnpackUints(word) == (FromBE(word[..16]), FromBE(word[16..]))
  {
    assert word == word[..16] + word[16..];
    FromBEConcat(word[..16], word[16..]);
    Pow256Values();
    FieldFits(word[16..]);
  }

  /** The unpacked paymaster form is the one whose blob is built from the wire fields. */
  predicate UsesUnpackedPaymaster(op: UserOp) {
    op.paymasterAndData == [] && op.paymaster.Some? && op.paymaster.value != ZERO_ADDRESS
  }

  /** Packing succeeds exactly when every value that lands in a 16-byte slot is a uint128. */
  lemma PackSucceedsIff(op: UserOp)
    ensures Pack(op).Ok? <==>
            && op.verificationGasLimit < TWO_128 && op.callGasLimit < TWO_128
            && op.maxPriorityFeePerGas < TWO_128 && op.maxFeePerGas < TWO_128
            && (UsesUnpackedPaymaster(op) ==>
                  op.paymasterVerificationGasLimit < TWO_128 && op.paymasterPostOpGasLimit < TWO_128)
  {
    PackPairMeaning(op.verificationGasLimit, op.callGasLimit, AccountGasLimits);
    PackPairMeaning(op.maxPriorityFeePerGas, op.maxFeePerGas, GasFees);
    BitLen128(op.paymasterVerificationGasLimit);
    BitLen128(op.paymasterPostOpGasLimit);
  }

  /** Each packing error names the first slot that overflows, in the order of the code. */
  lemma PackErrors(op: UserOp)
    ensures var verification := UsesUnpackedPaymaster(op) && op.paymasterVerificationGasLimit >= TWO_128;
            var postOp := UsesUnpackedPaymaster(op) && op.paymasterPostOpGasLimit >= TWO_128;
            var limits := op.verificationGasLimit >= TWO_128 || op.callGasLimit >= TWO_128;
            var fees := op.maxPriorityFeePerGas >= TWO_128 || op.maxFeePerGas >= TWO_128;
            && (Pack(op) == Err(Overflow(PaymasterVerificationGasLimit)) <==> verification)
            && (Pack(op) == Err(Overflow(PaymasterPostOpGasLimit)) <==> !verification && postOp)
            && (Pack(op) == Err(Overflow(AccountGasLimits)) <==> !verification && !postOp && limits)
            && (Pack(op) == Err(Overflow(GasFees)) <==> !verification && !postOp && !limits && fees)
  {
    PackPairMeaning(op.verificationGasLimit, op.callGasLimit, AccountGasLimits);
    PackPairMeaning(op.maxPriorityFeePerGas, op.maxFeePerGas, GasFees);
    BitLen128(op.paymasterVerificationGasLimit);
    BitLen128(op.paymasterPostOpGasLimit);
  }

  /** The packed `initCode`: the given blob if there is one, otherwise the factory followed by
      its data, otherwise nothing; the zero address is no factory. */
  lemma InitCodeMeaning(op: UserOp)
    requires Pack(op).Ok?
    ensures var code := Pack(op).value.initCode;
            var factory := op.initCode == [] && op.factory.Some? && op.factory.value != ZERO_ADDRESS;
            && (op.initCode != [] ==> code == op.initCode)
            && (factory ==>
                  |code| == 20 + |op.factoryData| && code[..20] == op.factory.value && code[20..] == op.factoryData)
            && (op.initCode == [] && !factory ==> code == [])
  {
    hide PackPair, EffectivePaymasterAndData;
  }

  /** The packed `paymasterAndData` when it is not built from the wire fields: the given blob
      wins, and there is nothing without either form (`PaymasterRoundTrip` is the third case). */
  lemma PaymasterBlobMeaning(op: UserOp)
    requires Pack(op).Ok?
    ensures var blob := Pack(op).value.paymasterAndData;
            && (op.paymasterAndData != [] ==> blob == op.paymasterAndData)
            && (op.paymasterAndData == [] && (op.paymaster.None? || op.paymaster.value == ZERO_ADDRESS) ==> blob == [])
            && (UsesUnpackedPaymaster(op) ==> |blob| == 52 + |op.paymasterData|)
  {
    hide PackPair;
  }

  /** Every blob is empty, too short for its header, or read at fixed positions. */
  lemma ParseBlob(blob: Bytes)
    ensures ParsePaymasterAndData(blob) == Ok(None) <==> blob == []
    ensures forall n :: ParsePaymasterAndData(blob) == Err(PaymasterAndDataTooShort(n)) <==>
                        n == |blob| && 0 < |blob| < 52
    ensures |blob| >= 52 ==>
              && ParsePaymasterAndData(blob).Ok? && ParsePaymasterAndData(blob).value.Some?
              && var h := ParsePaymasterAndData(blob).value.value;
                 && h.paymaster == blob[..20]
                 && h.verificationGas == FromBE(blob[20..36]) && h.postOpGas == FromBE(blob[36..52])
  {
  }

  /** The EntryPoint reads all four wire values back out of the two packed words. */
  lemma PackRoundTrip(op: UserOp)
    requires Pack(op).Ok?
    ensures var p := Pack(op).value;
            && UnpackUints(p.accountGasLimits) == (op.verificationGasLimit, op.callGasLimit)
            && UnpackUints(p.gasFees) == (op.maxPriorityFeePerGas, op.maxFeePerGas)
            && FromBE(p.accountGasLimits) == op.verificationGasLimit * TWO_128 + op.callGasLimit
            && FromBE(p.gasFees) == op.maxPriorityFeePerGas * TWO_128 + op.maxFeePerGas
            && p.sender == op.sender && p.nonce == op.nonce && p.callData == op.callData
            && p.preVerificationGas == op.preVerificationGas && p.signature == op.signature
  {
    PackPairMeaning(op.verificationGasLimit, op.callGasLimit, AccountGasLimits);
    PackPairMeaning(op.maxPriorityFeePerGas, op.maxFeePerGas, GasFees);
  }

  /** Parsing the blob built from the unpacked form recovers the wire fields. */
  lemma PaymasterRoundTrip(op: UserOp)
    requires Pack(op).Ok? && UsesUnpackedPaymaster(op)
    ensures var blob := Pack(op).value.paymasterAndData;
            && ParsePaymasterAndData(blob) ==
               Ok(Some(PaymasterHeader(op.paymaster.value, op.paymasterVerificationGasLimit,
                                       op.paymasterPostOpGasLimit)))
            && blob[PAYMASTER_HEADER_LEN..] == op.paymasterData
  {
    PackSucceedsIff(op);
    HalfRoundTrip(op.paymasterVerificationGasLimit);
    HalfRoundTrip(op.paymasterPostOpGasLimit);
    var blob := Pack(op).value.paymasterAndData;
    assert blob[..20] == op.paymaster.value;
    assert blob[20..36] == ToBE(op.paymasterVerificationGasLimit, 32)[16..];
    assert blob[36..52] == ToBE(op.paymasterPostOpGasLimit, 32)[16..];
    assert blob[52..] == op.paymasterData;
  }

  /** A 16-byte field read as a number and written back as half a word. */
  lemma FieldRepack(field: Bytes)
    requires |field| == 16
    ensures FromBE(field) < TWO_128 && BitLen(FromBE(field)) <= 128
    ensures ToBE(FromBE(field), 32)[16..] == field
  {
    hide ToBE, FromBE, BitLen;
    FieldFits(field);
    BitLen128(FromBE(field));
    ToBESuffix(FromBE(field), 32, 16);
    ToFromBE(field);
  }

  lemma HeaderSplits(blob: Bytes)
    requires |blob| >= PAYMASTER_HEADER_LEN
    ensures blob[..20] + blob[20..36] + blob[36..52] + blob[52..] == blob
  {
  }

  /** Conversely, a well-formed blob split into wire fields and packed again is unchanged. */
  lemma SplitRepack(blob: Bytes, op: UserOp)
    requires |blob| >= PAYMASTER_HEADER_LEN && blob[..20] != ZERO_ADDRESS
    ensures ParsePaymasterAndData(blob).Ok? && ParsePaymasterAndData(blob).value.Some?
    ensures var h := ParsePaymasterAndData(blob).value.value;
            EffectivePaymasterAndData(
              op.(paymasterAndData := [], paymaster := Some(h.paymaster),
                  paymasterVerificationGasLimit := h.verificationGas,
                  paymasterPostOpGasLimit := h.postOpGas,
                  paymasterData := blob[PAYMASTER_HEADER_LEN..])) == Ok(blob)
  {
    hide ToBE, FromBE, BitLen;
    FieldRepack(blob[20..36]);
    FieldRepack(blob[36..52]);
    HeaderSplits(blob);
  }

  // --- The two wire shapes -------------------------------------------------

  /** The pre-packed shape of an operation: blobs filled in, unpacked fields cleared. */
  function Normalise(op: UserOp): UserOp
    requires EffectivePaymasterAndData(op).Ok?
  {
    UserOp(op.sender, op.nonce, EffectiveInitCode(op), None, [], op.callData, op.callGasLimit,
           op.verificationGasLimit, op.preVerificationGas, op.maxFeePerGas, op.maxPriorityFeePerGas,
           None, 0, 0, [], EffectivePaymasterAndData(op).value, op.signature)
  }

  /** Both shapes of an operation pack to the same onchain value. */
  lemma ShapesAgree(op: UserOp)
    requires Pack(op).Ok?
    ensures Pack(Normalise(op)) == Pack(op)
    ensures Normalise(Normalise(op)) == Normalise(op)
  {
    assert EffectiveInitCode(Normalise(op)) == EffectiveInitCode(op);
    assert EffectivePaymasterAndData(Normalise(op)) == EffectivePaymasterAndData(op);
  }

  /** Packing forgets nothing but the shape: two operations pack alike exactly when
      their pre-packed shapes coincide in every field. */
  lemma PackInjective(a: UserOp, b: UserOp)
    requires Pack(a).Ok? && Pack(b).Ok?
    ensures Pack(a) == Pack(b) <==> Normalise(a) == Normalise(b)
  {
    PackRoundTrip(a);
    PackRoundTrip(b);
    ShapesAgree(a);
    ShapesAgree(b);
  }
}
