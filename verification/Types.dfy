/** Machine words, byte strings and the records the bundler passes around. */
module Types {

  const TWO_48: nat := 0x1_0000_0000_0000
  const TWO_64: nat := 0x1_0000_0000_0000_0000
  const TWO_128: nat := 0x1_0000_0000_0000_0000_0000_0000_0000_0000
  const TWO_160: nat := 0x1_0000_0000_0000_0000_0000_0000_0000_0000_0000_0000
  const TWO_208: nat := 0x1_0000_0000_0000_0000_0000_0000_0000_0000_0000_0000_0000_0000_0000
  const TWO_256: nat :=
    0x1_0000_0000_0000_0000_0000_0000_0000_0000_0000_0000_0000_0000_0000_0000_0000_0000

  const MAX_U64: nat := TWO_64 - 1
  const MAX_U256: nat := TWO_256 - 1

  type U32 = x: nat | x < 0x1_0000_0000
  type U64 = x: nat | x < TWO_64
  type U256 = x: nat | x < TWO_256

  type byte = x: nat | x < 256
  type Bytes = seq<byte>
  type Bytes32 = b: Bytes | |b| == 32 witness seq(32, _ => 0)
  type Address = a: Bytes | |a| == 20 witness seq(20, _ => 0)

  const ZERO_ADDRESS: Address := [0, 0, 0, 0, 0, 0, 0, 0, 0, 0, 0, 0, 0, 0, 0, 0, 0, 0, 0, 0]

  datatype Option<+T> = None | Some(value: T)

  datatype Result<+T, +E> = Ok(value: T) | Err(error: E)

  /** Unpacked v0.7 user operation as it arrives on the wire. */
  datatype UserOp = UserOp(
    sender: Address,
    nonce: U256,
    initCode: Bytes,
    factory: Option<Address>,
    factoryData: Bytes,
    callData: Bytes,
    callGasLimit: U256,
    verificationGasLimit: U256,
    preVerificationGas: U256,
    maxFeePerGas: U256,
    maxPriorityFeePerGas: U256,
    paymaster: Option<Address>,
    paymasterVerificationGasLimit: U256,
    paymasterPostOpGasLimit: U256,
    paymasterData: Bytes,
    paymasterAndData: Bytes,
    signature: Bytes)

  /** The onchain struct of ERC-4337 v0.7. */
  datatype PackedUserOp = PackedUserOp(
    sender: Address,
    nonce: U256,
    initCode: Bytes,
    callData: Bytes,
    accountGasLimits: Bytes32,
    preVerificationGas: U256,
    gasFees: Bytes32,
    paymasterAndData: Bytes,
    signature: Bytes)

  datatype Config = Config(
    chainId: U64,
    entryPoint: Address,
    maxBatchSize: nat,
    minPriorityFee: U256,
    gasMarginPct: U32,
    signer: Address)

  datatype ProviderError = Transport | EmptyCall | Decode

  /** What a provider call resolves to. */
  type Answer<+T> = Result<T, ProviderError>

  /** An EIP-1559 transaction calling `handleOps(ops, beneficiary)` with value zero.
      The calldata is kept decoded. */
  datatype Tx = Tx(
    chainId: U64,
    nonce: nat,
    gasLimit: U64,
    maxFeePerGas: nat,
    maxPriorityFeePerGas: nat,
    to: Address,
    ops: seq<PackedUserOp>,
    beneficiary: Address)

  /** A collision-free transaction hash is represented by the transaction it names. */
  type TxHash = Tx

  function Min(a: nat, b: nat): nat {
    if a <= b then a else b
  }

  function Max(a: nat, b: nat): nat {
    if a >= b then a else b
  }

  function SatAdd(a: U256, b: U256): U256 {
    if a + b < TWO_256 then a + b else MAX_U256
  }

  function SatMul(a: U256, b: U256): U256 {
    if a * b < TWO_256 then a * b else MAX_U256
  }
}
