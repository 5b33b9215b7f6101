# Flash-loan arbitrage: relayer reimbursement and gasless transaction assembly

This project models two small pieces of a Solana flash-loan arbitrage setup in which a relayer pays the network fee on the user's behalf:

- The on-chain program `flash_loan_arbitrage`. Its `initialize` instruction only logs a line. Its `reimburse_relayer` instruction does three checks in a fixed order: the relayer signed, `gas_cost + relayer_bounty` does not overflow a `u64`, and the expected profit is strictly greater than that total. When all three pass, it asks the system program to transfer the total from the user to the relayer.
- The client-side transaction builder. It resolves address lookup tables one address at a time, keeping the tables that are found, in order, and warning about the rest. It then compiles a v0 message whose fee payer is the relayer. A separate helper schedules a validator-tip transfer onto an instruction array.

Modules:

- `Wrappers` (`wrappers.dfy`): `Option`, `Result`, `Outcome`.
- `U64Arith` (`u64.dfy`): Rust's `u64` and `checked_add`. `checked_add` is computed as a wrapping add plus a carry test, and its contract relates the result to the mathematical sum.
- `SystemProgram` (`system_program.dfy`): the requested transfer, applied to an abstract map from account to lamports. An account missing from the map holds 0. The module proves that a successful transfer conserves the total number of lamports.
- `FlashLoanArbitrage` (`flash_loan_arbitrage.dfy`): the error enum and the pure validation function `ValidateReimbursement`, which returns an error tag or the one transfer it requests. The class `Bank` holds the lamport balances and the program log. Its methods `Initialize`, `Invoke` and `ReimburseRelayer` change that state.
- `TransactionBuilder` (`transaction_builder.dfy`): public keys `K` and lookup-table accounts `T` are type parameters, so they stay opaque. `Connection` answers lookups from a fixed function and records each request. `decodeKey` stands for `new PublicKey(address)`. The resolution loop is a `while` loop proved against the specification functions `Resolved`, `Unresolved` and `Lookups`. The tip helper works on `InstructionArray`, a class whose `elems` field is changed in place.

Points where the code's behaviour is easy to misread:

- The doc comment at `scripts/transactionBuilder.ts:102-104` says the helper adds a tip instruction, but the push runs in a `.then` callback, after `addJitoTipInstruction` has returned. See Findings.
- The code does not check that `instructions` is non-empty; the model accepts an empty list.
- `new PublicKey(address)` throws on an address that does not decode. This aborts the build after the lookups for the earlier addresses have already been sent; the model returns `InvalidPublicKey(address)` in that case.
- In the account struct, the relayer has type `Signer<'info>`. Anchor therefore rejects an unsigned relayer before `reimburse_relayer` runs. The model covers the program's own `require!` on `is_signer` and not Anchor's account validation.

## Model

| member | source | states |
|---|---|---|
| `U64Arith.CheckedAdd` | programs/flash_loan_arbitrage/src/lib.rs:38 | `checked_add` fails exactly when the mathematical sum exceeds 2^64 − 1; otherwise it returns that sum |
| `FlashLoanArbitrage.ValidateReimbursement` | programs/flash_loan_arbitrage/src/lib.rs:35-56 | an unsigned relayer gives `UnauthorizedRelayer`; otherwise an overflowing sum gives `MathOverflow`; otherwise a profit ≤ total gives `UnprofitableArbitrage`. Success happens exactly when the relayer signed and gas + bounty < profit. It then requests one transfer, user → relayer, of gas + bounty lamports, which is strictly less than the expected profit |
| `FlashLoanArbitrage.ValidationIgnoresTokenBalance` | programs/flash_loan_arbitrage/src/lib.rs:47-48 | the user token account balance plays no part in the decision or in the transfer requested |
| `FlashLoanArbitrage.Bank.Initialize` | programs/flash_loan_arbitrage/src/lib.rs:14-17 | always succeeds; balances are unchanged; one log line is added |
| `FlashLoanArbitrage.Bank.Invoke` | programs/flash_loan_arbitrage/src/lib.rs:58-65 | the system-program transfer changes balances only when it succeeds, then as `ApplyTransfer` says, keeping the total lamports; a failure is propagated and changes nothing |
| `FlashLoanArbitrage.Bank.ReimburseRelayer` | programs/flash_loan_arbitrage/src/lib.rs:23-70 | a validation error changes neither the balances nor the log. A failed transfer propagates the system error after the balance line was logged. Success changes the balances by exactly the requested transfer and logs the balance and then the reimbursed amount. Success implies gas + bounty < profit and conserves the total lamports |
| `SystemProgram.ApplyTransfer` | programs/flash_loan_arbitrage/src/lib.rs:52-65 | insufficient source lamports and a destination overflow are the two failures. On success the source loses and the destination gains exactly the amount, a self-transfer changes nothing, and every other account is unchanged |
| `SystemProgram.TransferConservesLamports` | programs/flash_loan_arbitrage/src/lib.rs:52-65 | a successful transfer leaves the sum of all balances unchanged |
| `TransactionBuilder.Connection.GetAddressLookupTable` | scripts/transactionBuilder.ts:41 | each lookup is recorded as one request and answered from the cluster's fixed table map |
| `TransactionBuilder.Processed` | scripts/transactionBuilder.ts:39-40 | the loop gets through exactly the longest prefix of addresses that decode to public keys; the next address, if any, does not decode |
| `TransactionBuilder.LookupsInOrder` | scripts/transactionBuilder.ts:39-41 | one lookup per address, for that address's key, in address order |
| `TransactionBuilder.TablesPlusWarnings` | scripts/transactionBuilder.ts:42-46 | number of tables + number of warnings = number of addresses |
| `TransactionBuilder.PositionsExact` | scripts/transactionBuilder.ts:42-46 | the found positions and the missing positions are each strictly increasing, and each contains exactly the indices with that lookup outcome |
| `TransactionBuilder.ResolvedIsFoundSubsequence` | scripts/transactionBuilder.ts:38-47 | the table list is exactly the lookup answers at the found positions, in the original order |
| `TransactionBuilder.UnresolvedIsMissingSubsequence` | scripts/transactionBuilder.ts:42-46 | the warnings name exactly the addresses at the missing positions, in the original order |
| `TransactionBuilder.BuildArbitrageVersionedTransaction` | scripts/transactionBuilder.ts:29-61 | the loop sends exactly the lookups for the addresses it gets through and warns once per table it cannot find. A missing table never aborts the build; only an undecodable address does. On success the message has the relayer as fee payer, the blockhash and the instruction list as read at call time unchanged, and the resolved tables as handed to the compiler, and `userPublicKey` plays no part in it. An empty address list means no lookups, no warnings and no tables |
| `TransactionBuilder.InstructionArray.Push` | scripts/transactionBuilder.ts:118 | `push` appends one instruction at the end |
| `TransactionBuilder.AddJitoTipInstruction` | scripts/transactionBuilder.ts:105-122 | returns the very array it was given, unchanged at return, and schedules the push of a transfer from `userPublicKey` to `jitoTipAccountPubkey` for `tipAmountLamports` |
| `TransactionBuilder.RunPendingTip` | scripts/transactionBuilder.ts:112-119 | when the scheduled step runs, it appends exactly one instruction, the tip, at the end; earlier entries stay unchanged and in order |
| `TransactionBuilder.TipRaceWitness` | scripts/transactionBuilder.ts:112-121 | a caller reading the returned array straight away sees `[ixA]` and no tip |
| `TransactionBuilder.AddJitoTipInstructionSync` | scripts/transactionBuilder.ts:105-122 | the intended helper: it returns the same array, now with N+1 entries, where the first N are unchanged and the last is the tip transfer |

## Left out

- `signAsUser`, `signAsRelayer`: each is one call into the library's ed25519 signing, with no logic of its own.
- `serializeTransaction`, `deserializeTransaction`: base58 and the wire format come from external libraries. The round trip cannot be stated without reimplementing them.
- `compileToV0Message`: account-key ordering and lookup-table index compaction belong to `@solana/web3.js`. The message is a plain record {payer, blockhash, instructions, tables}, and compilation never fails in the model (the library can reject malformed input). Its `lookupTables` field is the list of resolved tables handed to the compiler; the real compiler keeps a table in the wire message only when it takes at least one account key from it, so the field is not a claim about which tables the serialized message references.
- BuildArbitrageVersionedTransaction: reads the instruction list once, at call time, as a value. The source hands the caller's array to `new TransactionMessage` and `compileToV0Message` reads it only after the awaited lookups, so a tip push scheduled earlier by `addJitoTipInstruction` can run during those awaits and appear in the message when there is at least one lookup-table address, but never when the list is empty. The model captures neither case, nor the aliasing of the caller's array.
- Network failure of `getAddressLookupTable` and the `await` suspension: lookups are answered by a fixed, deterministic function, one at a time.
- The text of log and warning lines: the model records the values they carry (`LogLine`, the warned address), not their formatting.
- Anchor's account validation (`Signer<'info>`, `#[account(mut)]`, account deserialization) and the token program: only the program's own checks and the requested lamport transfer are modelled.
- The system program's other checks on a transfer (the source must sign and must hold no data): the user is a `Signer` in the account struct, and account data is not modelled.
- Rollback of the whole transaction when an instruction fails: `Bank` keeps the log line written before a failed transfer, which is what the program itself does.
- `tipAmountLamports` is a JavaScript `number`: the model takes a natural number. A fractional, negative or over-large value, which the library would refuse when encoding, is not modelled.
- `app/page.tsx` (a simulated dashboard of timers, random data and floating-point display) and `relayer/relayer.py` (HTTP plumbing and library signing; its only check is a floating-point profit comparison) are not part of this model.

## Findings

| source | as written | input that shows it | evidently intended | confidence | as-written member | corrected member |
|---|---|---|---|---|---|---|
| scripts/transactionBuilder.ts:112-121 | the tip push runs in a `.then` callback, which is scheduled after the function returns the array | `addJitoTipInstruction([ixA], user, 10000, tipAcct)`, with the result read immediately, gives `[ixA]` | the returned array is `[ixA, tipIx]`, with `tipIx` transferring 10000 lamports from `user` to `tipAcct` | not executed; high (a promise callback cannot run before the synchronous return; a later `buildArbitrageVersionedTransaction` may or may not see the tip, depending on whether it awaits any lookup first, which the model does not capture, see Left out) | `TransactionBuilder.TipRaceWitness` | `TransactionBuilder.AddJitoTipInstructionSync` |
