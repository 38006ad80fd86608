# A Dafny model of ethera-bundler

ethera-bundler turns a batch of ERC-4337 v0.7 user operations into one sequencer-signed
EIP-1559 transaction calling `EntryPoint.handleOps`, and in submit mode broadcasts it and
waits for the receipt. This project models that logic and proves what it guarantees.
`dafny verify dfyconfig.toml` checks the whole project.

## How the files fit together

| file | content |
|---|---|
| `Types.dfy`, `BigEndian.dfy` | machine words with explicit saturation, byte strings, records; big-endian and bit-length lemmas by induction |
| `Packing.dfy` | the wire-to-onchain packing at byte level, in its imperative form and as functions; round trips, injectivity, the two wire shapes |
| `Validation.dfy` | the 256-bit validation word and the accept/reject decision |
| `Errors.dfy` | the error type and its JSON-RPC code, with or without a `txHash` |
| `Fees.dfy` | per-op fee policy, running minima, outer fee choice |
| `Prefund.dfy` | the prefund formula re-read from packed bytes, deposits, solvency |
| `Receipts.dfy` | the receipt polling loop |
| `Pipeline.dfy` | the per-operation loop and the gas margin |
| `Tasks.dfy` | one request as an automaton over its awaits, and what every event keeps |
| `Protocol.dfy` | any number of requests, one lock, one cancellation token, one execution layer: the transition system and its inductive invariant |
| `Guarantees.dfy`, `Progress.dfy` | the theorems about all runs |
| `Cancellation.dfy`, `Viability.dfy`, `LastPoll.dfy`, `Races.dfy` | what the token stops, exactly what it does not, and which worlds can repeat a nonce |
| `Bundling.dfy` | the bundler and execution layer as classes; a sequential build is one run of the protocol |

**The protocol.** A request is a future. A scheduler polls it; a poll first looks at the
cancellation token (the biased `select!`), then runs from await to await, and may be left at
any of them. The token may fire at any moment, also while other requests are inside a poll.
The node answers the pending-nonce query and settles sends in steps of its own, so a send may
still be in flight after its request was dropped. The execution layer is the one the
repository's pipeline tests assume: it accepts any transaction it does not refuse and then
advances the pending nonce by one; a refused send leaves no trace. Only this bundler's
accepted sends move the nonce. A client may go away between two polls, which drops the request
and its guard.

**The world.** Which calls may complete in the very poll that issues them is a parameter of the world, call by
call: none but the signature for the shipped HTTP provider and local signer, all of them for the
mock of the pipeline tests.

**A result about the lock.** The comment on `submit_lock` (`crates/bundler/src/bundler.rs:47-50`)
promises that concurrent submits never sign the same nonce. Two things can let the lock go
under an unsettled send: the token, and a client that drops its request.
`Guarantees.NoncesInOrder` proves the promise for every run in which no client has dropped its
request with the send in flight, and in which either the token has not fired or no poll can both
get the nonce and sign (as with a nonce query over the network). Both provisos are needed.
`Races.CancelRace` builds a run in which the token fires while request B is inside its poll,
request A is dropped with its send unsettled, the lock is freed, and B broadcasts at the same
nonce. `Races.DropRace` reaches the same without any cancellation, whatever completes when.
`Races.DistinctIff` is the exact condition: of all calls only the nonce query and the signature
matter.

**A result about cancellation.** The biased `select!` looks at the token only when a poll
begins. A request outside a poll when the token has fired is frozen
(`Cancellation.FrozenForever`); one inside a poll is not: `Races.LateBroadcast` and
`Races.LateSignature` reach states in which the token has fired and a request can still sign and
broadcast. `LastPoll.dfy` says exactly who can still broadcast, return a response, or return
anything but the cancellation error, for every request in every world (`SendsAfterCancelIff`,
`SucceedsAfterCancelIff`, `AnswersAfterCancelIff`): the pending answer must be deliverable in the
poll in progress, the calls still to be issued must be of the kind that completes at once, and
suitable answers must exist, which is decided by the request and its stage alone
(`Viability.dfy`). `AfterCancelOverNetwork` and `AfterCancelAtOnce` spell this out for the
shipped provider and for the mock.

**Code over prose.** Where they differ the model follows the code: prefund is compared before
simulation (`crates/bundler/src/bundler.rs:141-150`; the repository's README lists them the
other way round); the per-op cap check uses the configured minimum tip, not the chosen tip
(line 273); the base fee is read once (line 129), so the rejection that line 324 attributes
to a moving network is decided by the suggested tip (`Fees.LateRejectionCause`). In the gas
margin only the sum saturates; the product wraps at 64 bits in a release build (line 175,
`Pipeline.MarginIff`).

## Model

| member | source | states |
|---|---|---|
| `Packing.PackPairToBytes32` | crates/bundler/src/packing.rs:32-40 | filling the 32-byte buffer in place yields exactly the pair specification, or the overflow error for the named field |
| `Packing.PackPairMeaning` | crates/bundler/src/packing.rs:32-40 | a pair packs iff both values are uint128; the word then reads big-endian as `hi * 2^128 + lo` and the onchain unpacking returns `(hi, lo)` |
| `Packing.PackUserOp` | crates/bundler/src/packing.rs:48-110 | growing the buffers piece by piece yields exactly the packing specification, with the same error precedence |
| `Packing.PackSucceedsIff` | crates/bundler/src/packing.rs:48-110 | packing succeeds iff every value that lands in a 16-byte slot is a uint128 |
| `Packing.PackErrors` | crates/bundler/src/packing.rs:63-105 | each overflow error iff its field is the first to overflow, in the order of the code |
| `Packing.InitCodeMeaning` | crates/bundler/src/packing.rs:48-61 | the packed init code is the given blob if there is one, else the factory in the first 20 bytes followed by its data, else empty; the zero address is no factory |
| `Packing.PaymasterBlobMeaning` | crates/bundler/src/packing.rs:46-89 | a given `paymasterAndData` wins over the unpacked fields; without either form the packed blob is empty; the built blob has 52 bytes plus the data |
| `Packing.PackRoundTrip` | crates/bundler/src/packing.rs:91-110 | the four wire values are recovered from the two packed words; all other fields are carried over |
| `Packing.PaymasterRoundTrip` | crates/bundler/src/packing.rs:63-89 | parsing the blob built from the unpacked form returns the paymaster, both limits, and the data from byte 52 on |
| `Packing.ParseBlob` | crates/bundler/src/packing.rs:114-125 | a blob parses to nothing iff empty, to the too-short error with its length iff below 52 bytes, else address and limits are read at fixed positions |
| `Packing.SplitRepack` | crates/bundler/src/packing.rs:114-125 | any blob with a whole header and nonzero address, parsed into wire fields and packed again, is unchanged |
| `Packing.ShapesAgree` | crates/bundler/src/packing.rs:42-89 | rewriting an operation to the pre-packed shape packs to the same value, and the rewriting is idempotent |
| `Packing.PackInjective` | crates/bundler/src/packing.rs:48-110 | two operations pack alike iff their pre-packed shapes agree in every field |
| `Validation.ParseWindowFields` | crates/bundler/src/validator.rs:115-136 | the decoded window in terms of the raw fields; neither conversion fallback is ever used; the sentinels are exactly aggregator 0 and 1 |
| `Validation.ParseInvertsLayout` | crates/bundler/src/validator.rs:113-136 | decoding inverts `aggregator + until * 2^160 + after * 2^208` for all in-range fields, until 0 becoming `2^48 - 1` |
| `Validation.ParseAlike` | crates/bundler/src/validator.rs:115-136 | two words decode alike iff they are equal or differ only in the two spellings of "no expiry" |
| `Validation.AcceptsIff` | crates/bundler/src/validator.rs:83-110 | on raw words: accepted iff both aggregators are zero and now lies in the intersection of the two windows |
| `Validation.RejectionPrecedence` | crates/bundler/src/validator.rs:86-103 | each rejection iff its condition, in the order account signature, paymaster signature, aggregator, time; the time error carries now and both decoded windows |
| `Validation.UnansweredIff` | crates/bundler/src/validator.rs:79-81 | for every answer: the provider failure `e` is reported iff the call failed with `e` |
| `Validation.ReportContents` | crates/bundler/src/validator.rs:105-110 | an accepted report carries the figures and the decoded windows over |
| `Errors.CodeTable` | crates/bundler/src/errors.rs:97-213 | which errors are behind each JSON-RPC code, and which carry a transaction hash, and which one |
| `Errors.RevertsSpeak` | crates/bundler/src/errors.rs:266-303 | an onchain revert never gets a code that promises nothing was sent |
| `Fees.UpdateMinExact` | crates/bundler/src/bundler.rs:348-353 | one update keeps the slot the exact minimum of the values seen |
| `Fees.PerOpFeesIff` | crates/bundler/src/bundler.rs:254-281 | the per-op check accepts iff minimum <= tip <= cap and the cap covers base plus minimum or is the largest word; each rejection, with its figures, iff its condition, in the order of the code |
| `Fees.NeverUnderReimbursed` | crates/bundler/src/bundler.rs:254-353 | for an accepted batch, at every base fee the outer price per gas is at most every operation's price |
| `Fees.PriceIsEffective` | crates/bundler/src/bundler.rs:321-345 | for a base fee the transaction can be mined at, that price is the effective gas price of the Specification section of EIP-1559 |
| `Fees.OuterFeesSane` | crates/bundler/src/bundler.rs:321-345 | minimum tip <= outer tip <= outer cap; the tip is at most the desired one, and is the desired one or the least tip of the batch; the cap covers observed base plus tip (exactly, unless the cap is the largest word) and is the least cap of the batch |
| `Fees.LateRejectionIff` | crates/bundler/src/bundler.rs:325-345 | after the per-op checks, the outer choice fails iff some cap is below base plus the smaller of desired and least tip, clipped to a word; the error names the index `usize::MAX`, the least cap and that sum |
| `Fees.LateRejectionCause` | crates/bundler/src/bundler.rs:254-345 | a late rejection forces suggested tip and every operation's tip above the configured minimum |
| `Fees.MergedVerdict` | crates/bundler/src/bundler.rs:254-345 | exactly when the concatenation of two batches is accepted, and with which fees |
| `Fees.AcceptanceComposes` | crates/bundler/src/bundler.rs:254-345 | two accepted batches merge into an accepted one with pairwise minimal tip and cap |
| `Fees.MergeCanRescue` | crates/bundler/src/bundler.rs:325-345 | the converse fails: a batch rejected alone is accepted together with a lower-tip companion |
| `Fees.OrderIrrelevant` | crates/bundler/src/bundler.rs:159-182 | permuting a batch changes neither verdict nor fees |
| `Prefund.RequiredPrefundExact` | crates/bundler/src/bundler.rs:298-304 | the saturating chain is the exact formula clipped at `2^256 - 1`, for all inputs |
| `Prefund.QuoteExact` | crates/bundler/src/bundler.rs:287-304 | the quote exists iff the blob is empty or has a whole header, else the too-short error with its length; it names the sponsor in the bytes and asks for the amount an onchain reader computes from the packed words, clipped |
| `Prefund.UnpackedFormPrefund` | crates/bundler/src/bundler.rs:293-304 | for the unpacked paymaster form, sponsor and limits re-read from the bytes are the wire fields |
| `Prefund.DepositAcceptedIff` | crates/bundler/src/bundler.rs:306-318 | a deposit is accepted iff it covers the exact amount or is the largest word; otherwise the error names index, sponsor, required amount and deposit |
| `Prefund.BatchSolvent` | crates/bundler/src/bundler.rs:287-319 | with pairwise distinct sponsors and one snapshot, an accepted batch commits at most what its sponsors hold in total |
| `Prefund.SharedSponsorOvercommits` | crates/bundler/src/bundler.rs:306-318 | distinctness is needed: two operations on one sponsor can both pass while together exceeding the deposit |
| `Pipeline.AcceptedIsFunded` | crates/bundler/src/bundler.rs:138-142 | a batch the loop accepts, its deposit queries answered from one snapshot, has passed the deposit comparison on that snapshot throughout |
| `Pipeline.AcceptedIsSolvent` | crates/bundler/src/bundler.rs:138-161 | so with distinct sponsors (none holding the largest word) the packed batch the loop gathers commits at most what its sponsors hold in total |
| `Receipts.WaitForReceipt` | crates/bundler/src/provider.rs:231-259 | terminates; returns the answer of the first poll that finds something or returns past the deadline, at the time the environment puts it, all earlier ones having found nothing; `None` only past the deadline; every sleep is positive, within the deadline and a full backoff except possibly the last; total sleep at most the timeout |
| `Receipts.AnswerOfFirstStop` | crates/bundler/src/provider.rs:231-259 | the answer of the wait, as a function of the environment alone, is that of the first poll that ends it |
| `Receipts.PacedAt` | crates/bundler/src/provider.rs:251-257 | what pacing means for each single sleep of a run |
| `Receipts.BackoffNext` | crates/bundler/src/provider.rs:257 | the closed form of the delay satisfies the code's doubling-with-cap update |
| `Receipts.PollBound` | crates/bundler/src/provider.rs:231-259 | at most `ceil(T / 200 ms) + 1` polls |
| `Receipts.PollBoundDefault` | crates/bundler/src/bundler.rs:40 | at most 19 polls for the 30 s timeout |
| `Pipeline.CheckOp` | crates/bundler/src/bundler.rs:139-157 | one turn of the loop: passes iff all five checks pass, otherwise reports the first failing one |
| `Pipeline.PassesIff` | crates/bundler/src/bundler.rs:139-157 | on the bare inputs: an operation passes iff it pays the policy, fits the packed slots, its sponsor covers the exact prefund, both validity windows are open and name no aggregator, and its hash is answered |
| `Pipeline.ReportsInOrder` | crates/bundler/src/bundler.rs:139-157 | on the bare inputs: which check reports, in the order policy, packing, prefund, simulation, hash |
| `Pipeline.PolicyFailure` | crates/bundler/src/bundler.rs:139 | whether and with which error the fee policy fails, on the bare inputs |
| `Pipeline.PackFailure` | crates/bundler/src/bundler.rs:140 | the packing fails iff some value overflows its slot, with the packing error |
| `Pipeline.FundingFailure` | crates/bundler/src/bundler.rs:141 | the prefund check fails iff the blob is too short, the deposit query fails or the deposit is short, each with its error |
| `Pipeline.SimulationFailure` | crates/bundler/src/bundler.rs:143-150 | the simulation check fails iff the call is unanswered or the windows reject; an unanswered call is reported as the provider failure |
| `Pipeline.HashFailure` | crates/bundler/src/bundler.rs:152-155 | the hash query fails iff it is unanswered, with the provider error |
| `Pipeline.OutageReport` | crates/bundler/src/bundler.rs:139-157 | an unanswered question about an operation gets code -32603 |
| `Pipeline.CollectOps` | crates/bundler/src/bundler.rs:133-161 | the loop completes iff every operation passes every check; otherwise the error is that of the lowest failing index and its first failing check; on success it holds exactly the packings, hashes and minima |
| `Pipeline.CollectedRecords` | crates/bundler/src/bundler.rs:133-161 | entry `i` is `pack(ops[i])`, hash `i` is the provider's answer about that packed value, and the minima are the batch minima |
| `Pipeline.FirstFailureUnique` | crates/bundler/src/bundler.rs:138-161 | the reported failure is unique, so the error is determined by the answers |
| `Pipeline.MarginIff` | crates/bundler/src/bundler.rs:175 | gas equals `min(2^64 - 1, estimate + estimate * pct / 100)` iff the product fits in 64 bits or the wrapped margin already saturates; gas is never below the estimate |
| `Pipeline.MarginIffProductFits` | crates/bundler/src/bundler.rs:175 | unless the estimate is within a hundredth of the largest u64, the gas is the intended one iff the product fits in 64 bits |
| `Pipeline.MarginForRealGas` | crates/bundler/src/bundler.rs:175 | every estimate below `2^32` gets the intended margin for every u32 percentage |
| `Pipeline.MarginCanVanish` | crates/bundler/src/bundler.rs:175 | an estimate whose margin wraps to nothing |
| `Pipeline.MarginMonotone` | crates/bundler/src/bundler.rs:175 | without overflow the gas limit is monotone in estimate and percentage |
| `Tasks.EstimatePlans` | crates/bundler/src/bundler.rs:171-182 | after the loop both minima are present, and a successful fee choice makes a plan with the declarative fees of the batch and the margin over the estimate |
| `Tasks.PlannedIsSound` | crates/bundler/src/bundler.rs:197-207 | outer fees fit in u128, observed base plus tip is at most the cap, and the built transaction and response are sound |
| `Tasks.DeliverKeepsOk` | crates/bundler/src/bundler.rs:108-252 | every event at every await keeps the request well-formed: packed prefix, each hash asked about its packed operation, exact minima, guard exactly in the critical stages, at most one broadcast, truthful result |
| `Tasks.SoundReimburses` | crates/bundler/src/bundler.rs:197-207 | a sound transaction costs per gas at most what each packed operation pays, as decoded from its fee word |
| `Tasks.FaultsReported` | crates/bundler/src/bundler.rs:108-252 | every provider or signer failure reaches the client as that failure; a timeout and a replayed revert carry the transaction, the block and the reason the replay gave, or the empty unknown one |
| `Protocol.StepKeepsInv` | crates/bundler/src/bundler.rs:96-252 | every step of every interleaving, drops by clients included, keeps the global invariant: lock, log, task well-formedness, and the nonce discipline until a send is orphaned or the token fires where one poll can get the nonce and sign |
| `Protocol.RunDiscipline` | crates/bundler/src/bundler.rs:189-216 | a lock holder that has read a nonce and is not yet accepted sees it still pending, across every event, also after the token unless one poll can get the nonce and sign |
| `Protocol.ReachableInv` | crates/bundler/src/bundler.rs:96-252 | the invariant holds in every reachable state |
| `Guarantees.NoncesInOrder` | crates/bundler/src/bundler.rs:184-216 | as long as no request is dropped with a send in flight, and before the token fires or where no poll can both get the nonce and sign, the accepted log carries n0, n0+1, ... in order, only from submitting requests, each at most once |
| `Guarantees.NoOrphans` | crates/bundler/src/bundler.rs:184-216 | where clients do not drop requests with a send in flight, no send is ever orphaned, so the first proviso of `NoncesInOrder` is met |
| `Guarantees.LockDiscipline` | crates/bundler/src/bundler.rs:189-216 | the lock is held exactly by the submitting request between acquiring it and leaving the send, never during the receipt wait |
| `Guarantees.HonestOutcome` | crates/bundler/src/bundler.rs:213-251 | at most one broadcast, none in sign-only mode; codes -32602, -32503, -32521 imply no broadcast; a `txHash` or a successful submit implies acceptance of that transaction; hash `i` of a response was asked about `pack(ops[i])`; no panic and no failed narrowing of the outer fees |
| `Guarantees.AcceptedReimburses` | crates/bundler/src/bundler.rs:177-207 | every accepted transaction of every run wraps exactly the packed operations of its request and never under-reimburses the sequencer per gas |
| `Cancellation.FrozenForever` | crates/bundler/src/bundler.rs:101-105 | a request outside a poll once the token has fired never reads a nonce, signs or broadcasts again and can only end cancelled (or dropped by its client first), whatever else runs |
| `Viability.NextOpViable` | crates/bundler/src/bundler.rs:138-142 | entering the loop body leaves a viable request exactly when every remaining operation passes the checks made before asking anybody, the fees can be chosen, and now is below `2^48` if an operation remains |
| `Viability.BackViable` | crates/bundler/src/bundler.rs:108-252 | whatever the answer, only a request for which suitable answers exist becomes one for which they still do |
| `Viability.LuckyViable` | crates/bundler/src/bundler.rs:108-252 | the favourable answer keeps a viable request viable, up to the response |
| `Viability.DeliverIssues` | crates/bundler/src/bundler.rs:108-252 | every event takes exactly the call issued next off the calls still to be made before a signature, or before a response |
| `LastPoll.SendsAfterCancelIff` | crates/bundler/src/bundler.rs:101-105 | once the token has fired, some run has request `i` broadcast iff it submits, is unsigned, the poll it is in can deliver the pending answer, the calls still to be made may complete at once, and suitable answers exist |
| `LastPoll.SucceedsAfterCancelIff` | crates/bundler/src/bundler.rs:101-105 | ... some run has it return a response iff the same holds up to the response: for a submit also send and receipt at once, or a send that is out and not refused, or an awaited receipt |
| `LastPoll.AnswersAfterCancelIff` | crates/bundler/src/bundler.rs:101-105 | ... some run has an unfinished request return anything but the cancellation error iff its poll can deliver the pending answer, and the next one too where the pending await cannot fail |
| `LastPoll.AfterCancel` | crates/bundler/src/bundler.rs:101-105 | these conditions, together, for every request of every reachable state |
| `LastPoll.AfterCancelOverNetwork` | crates/bundler/src/bundler.rs:101-105 | the same spelled out for calls over the network and a local signer: broadcast iff polled while signing or again while waiting for the nonce; response iff polled again while waiting for the receipt (submit) or as for a broadcast (sign-only) |
| `LastPoll.AfterCancelAtOnce` | crates/bundler/src/bundler.rs:101-105 | the same spelled out for calls that all complete at once: broadcast iff polled, submitting, unsigned and viable; some answer iff polled |
| `LastPoll.OnlyPolledSend` | crates/bundler/src/bundler.rs:101-105 | in every world, whoever still broadcasts after the token is inside a poll, submits and has not broadcast before |
| `Cancellation.PollsOnlyEnd` | crates/bundler/src/bundler.rs:101-105 | after the token has fired no poll begins any work |
| `Cancellation.QuietForever` | crates/bundler/src/bundler.rs:101-105 | once the polls in progress have ended, only sends already in flight can still reach the log, and later requests never start |
| `Races.LateBroadcast` | crates/bundler/src/bundler.rs:101-105 | a reachable state in which the token has fired and a request polled with its nonce answered can still broadcast iff the signer answers at once, and return a response iff send and receipt do too |
| `Races.LateSignature` | crates/bundler/src/bundler.rs:101-105 | a reachable state in which the token has fired and a request polled while it signs can still broadcast, in every world |
| `Races.CancelRace` | crates/bundler/src/bundler.rs:189-216 | a reachable state with a repeated nonce when one poll can both get the nonce and sign |
| `Races.DropRace` | crates/bundler/src/bundler.rs:189-216 | a reachable state with a repeated nonce, without cancellation, when a client may drop its request with the send in flight |
| `Races.DistinctIff` | crates/bundler/src/bundler.rs:47-55 | accepted nonces are distinct in all runs iff no poll can both get the nonce and sign and no request is dropped with a send in flight (or the configuration admits no batch); which other calls complete at once is irrelevant |
| `Progress.DeliverDescends` | crates/bundler/src/bundler.rs:138-240 | every event strictly lowers a measure over stages and remaining operations |
| `Progress.BoundedWork` | crates/bundler/src/bundler.rs:96-252 | a run does at most `12 + 3 * ops` steps of work per request, plus one |
| `Progress.CanFinish` | crates/bundler/src/bundler.rs:189-240 | from every state satisfying the invariant some run without arrivals, drops or the token brings all requests to their end with all sends settled and the lock free |
| `Progress.NeverStuck` | crates/bundler/src/bundler.rs:189-240 | the same for every reachable state |
| `Bundling.LoopVerdict` | crates/bundler/src/bundler.rs:133-161 | the loop's declarative verdict is what the automaton of the request reaches |
| `Bundling.Prepare` | crates/bundler/src/bundler.rs:113-182 | sanity checks, quotes, loop, estimate and fee choice produce a plan iff the batch is sane, every query is answered, every operation passes every check and the fee verdict is positive; the plan's batch passes the fee policy throughout, and it has the declarative fees, the margin over the estimate and the provider's hash of each packed operation; an error is the one the first obstacle calls for, in the order chain id, empty batch, batch size, base fee, suggested tip, operations, estimate, outer fees; plan or error is a state of the protocol |
| `Bundling.SanityErrors` | crates/bundler/src/bundler.rs:113-130 | the chain id, empty batch and batch size errors each iff their condition, in that order; a complaint about the outer fees only after every operation passed |
| `Bundling.OutageVerdict` | crates/bundler/src/bundler.rs:138-161 | a build whose first failing operation stumbles over an unanswered deposit, simulation or hash query ends with that error under code -32603 and sends nothing |
| `Bundling.PlanIsPlanned` | crates/bundler/src/bundler.rs:197-207 | the built transaction has the declarative fees, the margin over the estimate, the packed operations, the nonce, the chain, the EntryPoint and the signer |
| `Pipeline.AcceptedPaysFees` | crates/bundler/src/bundler.rs:138-142 | a batch the loop accepts has passed the per-op fee policy throughout, on the bare fields of every operation, so the fee theorems apply to it |
| `Pipeline.RecordedFees` | crates/bundler/src/bundler.rs:177-182 | the minima of a non-empty batch are present, and the choice on them is the declarative verdict on the batch |
| `Bundling.Choose` | crates/bundler/src/bundler.rs:171-182 | the minima can be unwrapped; a plan results iff the estimate is answered and the fee verdict is positive, else the error is that of the estimate or of the verdict |
| `Bundling.PlanFits` | crates/bundler/src/bundler.rs:201-202 | every plan a run can reach has fees below `2^128`, so the narrowing conversions succeed |
| `Bundling.ReadNonceAndSign` | crates/bundler/src/bundler.rs:189-211 | the signed transaction is the planned one at the pending nonce; it fails only for a nonce, signing or range failure, and reports which |
| `Bundling.AwaitReceipt` | crates/bundler/src/bundler.rs:213-240 | after an accepted send, receipt wait and replay end in a reachable protocol state with that transaction in the log; success iff the answer that ends the wait is a successful receipt, timeout iff it is none, an onchain revert iff it is a failed one and the replay is answered, with the block of the receipt and the reason of the replay; a timeout only after 30 s; an error never carries a code that promises silence, and no hash but this one |
| `Bundling.ExecutionLayer.SendRawTransaction` | crates/bundler/tests/bundler_pipeline.rs:93-105 | an accepted transaction is logged and counted; a refused one changes nothing |
| `Bundling.Bundler.BuildInner` | crates/bundler/src/bundler.rs:108-252 | an uncontended build is one run of the protocol, with lock and execution layer as that run leaves them; from request and answers alone: a sign-only build succeeds, and a submitted one is accepted, exactly when the answers allow it, and the latter succeeds exactly when the answer that ends the receipt wait is also a successful receipt; every error is the one the first obstacle calls for, and an accepted transaction is the planned one in every field; a response is the one the answers call for |
| `Bundling.Bundler.BuildSignedUserOpsTx` | crates/bundler/src/bundler.rs:96-106 | a build cancelled at its first poll changes nothing; otherwise at most one transaction is appended, at the pending nonce, exactly when the answers allow it, a submit succeeds exactly when the receipt wait also ends in a successful receipt, every result and every appended transaction is the one the request and the answers call for, and the result and its error code tell truthfully whether |

## Left out

- JSON-RPC server, CORS, discovery endpoints, CLI parsing, configuration defaults and the startup probe: plumbing without deep properties.
- Provider calls other than the polling loop: their answers are arbitrary inputs (`Pipeline.OpAnswers`, `Bundling.Script`, `Tasks.Event`).
- Signatures, EIP-2718 bytes and keccak: a transaction hash is represented by the transaction it names, so the response's `raw` field is not modelled and hash collisions are excluded.
- The user-operation hash itself: an arbitrary answer of the provider, kept together with the packed operation it was asked about.
- ABI encoding of `handleOps` and decoding of revert data: calldata is kept decoded and the decoded revert reason is an input.
- Error texts and the JSON payload other than `txHash`.
- Shifts and masks of 256-bit words are modelled as quotients and remainders by powers of two.
- Nodes that release reserved nonces, other senders on the sequencer's account, and sends reported as failed that land later: their absence is an assumption of the nonce results.
- Nonces are unbounded naturals; the 64-bit limit of the account nonce is not modelled.
- The receipt wait is a single await of the protocol; its inner queries and sleeps are the subject of `Receipts.dfy`.
- tokio's lock fairness and scheduler: progress is stated as existence of steps, and the number of idle polls is not bounded.
- Bundling.Bundler.BuildSignedUserOpsTx: looks at the token once, at the first poll; a token that fires later is the subject of `Protocol.dfy`, `Cancellation.dfy` and `LastPoll.dfy`.
- Prefund.BatchSolvent: says nothing about operations sharing a sponsor, because the code compares each with the full deposit; `Prefund.SharedSponsorOvercommits` shows the effect.
- Bundling.Bundler.BuildInner: sequential and uncontended; contention and cancellation in the middle of a build are the subject of `Protocol.dfy`.
