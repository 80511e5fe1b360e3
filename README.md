# Transactions engine: a Dafny model

This project models the core of a small payments engine. The engine replays an
ordered log of records against per-client accounts. Each record has a type
(deposit, withdrawal, dispute, resolve or chargeback), a client id, a
transaction id and an amount. The engine returns the final accounts and one
error per rejected record.

The model follows the source file by file:

- `account.dfy` (module `Accounts`) holds the ledger record of one client.
  - `Account` is a class with the five fields the source updates in place.
  - Each method of the class is proved against a function on the value type
    `AccountState` (`Deposited`, `Withdrawn`, `Disputed`, `Resolved`,
    `ChargedBack`).
  - Properties common to all five operations are proved once, through `Apply`.
- `cached_amounts.dfy` (module `Cache`) is the pending-amount tracker. It is a
  class whose `data` map is changed by `Add` and `Remove` and read by `Get`.
- `account_repository.dfy` (module `Repository`) is the account store.
  - It is a class holding a map from client id to `Account`.
  - Its invariant is that every account is stored under its own client id.
  - `All` copies the accounts out in an unspecified order. The contract
    `ListsExactly` says the copy holds exactly one record per stored client.
- `replay.dfy` (module `Replay`) is the engine as a state machine on values.
  - `Touch` is the fetch-or-create step.
  - `Dispatch` is the `match` on the record's type.
  - `Step` is one record and `Run` is a whole sequence of records.
  - The engine-level properties are proved here, by induction over `Run`.
- `engine_simple.dfy` (module `EngineSimple`) is the engine that keeps its
  accounts, applied amounts and disputed amounts in local maps. Its loop is
  proved to compute `Run` from the empty state.
- `engine_extended.dfy` (module `EngineExtended`) is the engine whose state
  lives in its fields: a repository and two trackers.
  - `AnalyzeTransaction` is proved to take exactly one `Step`.
  - `Analyze` is proved to take `Run` from whatever state the engine holds.
- `scenarios.dfy` (module `Scenarios`) holds:
  - the unit-test scenarios of the source;
  - the agreement of the two engines on records of known types;
  - the proof that a second `Analyze` call continues from the first.

Amounts are exact decimals, modelled as `real`. Client ids are 16-bit and
transaction ids 32-bit unsigned integers, modelled as bounded `int` subset
types. Each error message of the source becomes one variant of `EngineError`,
carrying the transaction id (or, for an unhandled type, the type text) and,
where the message includes it, the account error.

## Model

| member | source | states |
|---|---|---|
| Accounts.NewState | src/account.rs:14-16 | The new record has the given client, balances and flag, and `total == available + held`. |
| Accounts.EmptyState | src/account.rs:18-20 | The empty record of `c` has client `c`, all three balances zero and is unlocked. |
| Accounts.Account.New | src/account.rs:14-16 | The constructed account's value is `NewState` of its arguments. |
| Accounts.Account.Empty | src/account.rs:18-20 | The constructed account's value is `EmptyState(client)`. |
| Accounts.Account.Deposit | src/account.rs:22-27 | A deposit always passes; `available` and `total` rise by the amount. |
| Accounts.Account.Withdraw | src/account.rs:29-37 | Fails with `InsufficientAvailableFunds` and no change iff `amount > available`; otherwise `available` and `total` drop by the amount. |
| Accounts.Account.Dispute | src/account.rs:39-47 | Fails with `InsufficientAvailableFunds` and no change iff `amount > available`; otherwise the amount moves from `available` to `held`. |
| Accounts.Account.Resolve | src/account.rs:49-57 | Fails with `InsufficientHeldFunds` and no change iff `amount > held`; otherwise the amount moves from `held` to `available`. |
| Accounts.Account.Chargeback | src/account.rs:59-68 | Fails with `InsufficientHeldFunds` and no change iff `amount > held`; otherwise `held` and `total` drop by the amount and the account is locked. |
| Accounts.ApplyFailsIff | src/account.rs:22-68 | An operation fails exactly when the amount exceeds the balance it draws on (none for deposit), and the error names that balance. |
| Accounts.ApplyPreservesInvariants | src/account.rs:22-68 | Every successful operation keeps `total == available + held` and the client; `locked` becomes true exactly on a chargeback and is never cleared. |
| Accounts.ApplyKeepsNonNegative | src/account.rs:22-68 | On an account with `total == available + held` and non-negative balances, no successful operation with a non-negative amount makes a balance negative. |
| Accounts.ApplyMovesFunds | src/account.rs:22-68 | The exact change of `available`, `held` and `total` for each successful operation. |
| Accounts.DisputeThenResolveRestores | src/account.rs:39-57 | A successful dispute of `x` followed by a resolve of `x` gives back the original account (held must not be negative). |
| Cache.CachedAmounts.constructor | src/cached_amounts.rs:9-13 | A new tracker holds no entries. |
| Cache.CachedAmounts.Add | src/cached_amounts.rs:15-17 | Maps `tx` to the amount, overwriting any earlier amount; every other entry is unchanged. |
| Cache.CachedAmounts.Remove | src/cached_amounts.rs:19-21 | `tx` is absent afterwards; removing an absent tx changes nothing; every other entry is unchanged. |
| Cache.CachedAmounts.Get | src/cached_amounts.rs:23-28 | Returns `Some(amount)` exactly when `tx` is stored, with the stored amount; it changes nothing. |
| Cache.AddGetRemove | src/cached_amounts.rs:15-28 | After `Add` a `Get` returns the amount; a second `Add` overwrites it; after `Remove` a `Get` returns `None`. |
| Repository.AccountRepository.constructor | src/account_repository.rs:10-14 | A new repository holds no accounts. |
| Repository.AccountRepository.GetOrCreate | src/account_repository.rs:16-18 | The client is present afterwards. An existing account is returned unchanged. An absent client gets a fresh `EmptyState` account. No other entry changes, and accounts stay stored under their own client. |
| Repository.AccountRepository.All | src/account_repository.rs:20-22 | Returns exactly one record per stored client, equal to that client's account. |
| Repository.Collect | src/account_repository.rs:21 | Copying the accounts out in any key order yields one record per key, equal to the stored account. |
| Repository.ListsExactlySameRecords | src/account_repository.rs:20-22 | Two listings of the same accounts have the same length and the same records, whatever their order. |
| Replay.Touch | src/engine_simple.rs:22 | Fetch-or-create: the client's account exists afterwards, an absent one is empty, nothing else changes. |
| Replay.Dispatch | src/engine_simple.rs:24-90 | A rejected record leaves the account and both maps as they were; the account keeps its client. |
| Replay.Step | src/engine_simple.rs:21-90 | After a step the record's client has an account. A rejected step changes nothing else. Other clients' accounts never change. |
| Replay.Run | src/engine_simple.rs:21-91 | A run never reports more errors than it has records. |
| Replay.RunSnoc | src/engine_simple.rs:21-91 | Replaying one more record is one step from where the shorter run stopped, so each record adds exactly its own step's error, if any. |
| Replay.StepRecordsApplied | src/engine_simple.rs:25-36 | A deposit, or a withdrawal that succeeds, records `tx ↦ amount` as applied and applies the account operation; the withdrawal is rejected exactly when the account refuses it. |
| Replay.StepDispute | src/engine_simple.rs:38-54 | A dispute of an unapplied tx reports `AppliedNotFound`. A dispute succeeds iff the tx is applied and its amount is available. On success the applied amount is copied into the disputed map and moved to held on the record's client. |
| Replay.StepSettle | src/engine_simple.rs:55-88 | Resolve and chargeback of an undisputed tx are errors. They succeed iff the tx is disputed and its amount is held. On success the tx leaves the disputed map and the amount is applied to the record's client. |
| Replay.StepUnknown | src/engine_extended.rs:83-85 | An unrecognised type is reported as `UnhandledType` after the client's account has been created; nothing else changes. |
| Replay.StepIgnoresAmount | src/engine_simple.rs:38-88 | The record's own amount has no effect on a dispute, resolve or chargeback. |
| Replay.StepAccountOp | src/engine_simple.rs:24-88 | A successful known step changes only the record client's account, by one account operation; the amount is the record's for deposit and withdrawal and the stored one otherwise. |
| Replay.RunAppend | src/engine_extended.rs:93-104 | Replaying `a` then `b` from where `a` stopped equals replaying `a + b`, errors concatenated in order. |
| Replay.RunAccountsCoverClients | src/engine_simple.rs:22 | After a run the accounts are those present before plus every client named by a record, even when all its records failed. |
| Replay.StepKeepsBalanced | src/engine_simple.rs:24-88 | One step keeps `total == available + held` for every account. |
| Replay.RunKeepsBalanced | src/engine_simple.rs:21-91 | Every run keeps `total == available + held` for every account. |
| Replay.RunKeepsClientKeyed | src/engine_simple.rs:22 | Every account stays stored under its own client id through any run. |
| Replay.StepKeepsNonNegative | src/engine_simple.rs:24-88 | When a deposit or withdrawal moves a non-negative amount, one step keeps every account balanced and non-negative and all stored amounts non-negative; dispute, resolve and chargeback amounts are unconstrained. |
| Replay.RunKeepsNonNegative | src/engine_simple.rs:21-91 | With non-negative deposit and withdrawal amounts (any amount on the other kinds), no run makes a balance or a stored amount negative. |
| Replay.StepAppliedAndDisputed | src/engine_simple.rs:25-88 | No step removes an applied tx; if every disputed tx is applied, that stays so. |
| Replay.RunAppliedGrows | src/engine_simple.rs:21-91 | Applied txs are never forgotten over a run, and disputed txs stay among the applied ones. |
| Replay.StepLocking | src/engine_simple.rs:81-82 | After a step an account is locked iff it was locked before or this step is a successful chargeback of its client. |
| Replay.RunLocking | src/engine_simple.rs:21-91 | A locked account stays locked; without a chargeback record no account becomes locked. |
| EngineSimple.DispatchRecord | src/engine_simple.rs:24-90 | The `match` on the record's type, run in place on the fetched account and the two local maps, computes `Dispatch`. |
| EngineSimple.DispatchStored | src/engine_simple.rs:22-90 | Dispatching against the account stored for the record's client changes that client's account only. |
| EngineSimple.AnalyzeRecord | src/engine_simple.rs:22-90 | One pass of the loop body (fetch or create, then dispatch) computes `Step` on the snapshot of the local maps. |
| EngineSimple.Analyze | src/engine_simple.rs:15-94 | The accounts returned list `Run` from the empty state exactly once per client, and the errors are `Run`'s, in input order. |
| EngineExtended.Engine.constructor | src/engine_extended.rs:14-20 | Given a valid repository and two distinct trackers, the engine holds exactly those and is valid: accounts keyed by client, trackers independent. |
| EngineExtended.Engine.DispatchTracked | src/engine_extended.rs:25-86 | The `match` on the record's type, run on the fetched account and the two trackers, computes `Dispatch`; an unrecognised type is an error. |
| EngineExtended.Engine.DispatchStored | src/engine_extended.rs:25-86 | Dispatching against the repository's account for the record's client changes that account only, and the repository invariant holds. |
| EngineExtended.Engine.AnalyzeTransaction | src/engine_extended.rs:22-89 | The new state of repository and trackers is one `Step` from the old, and the result is that step's outcome. |
| EngineExtended.Engine.Analyze | src/engine_extended.rs:93-104 | The new state is `Run` from the engine's state at the call. The errors are `Run`'s, and the listing has one record per client of that final state. |
| EngineExtended.AnalyzeFresh | src/engine_extended.rs:93-104 | An engine built on an empty repository and empty trackers lists `Run` from the empty state and reports its errors. |
| Scenarios.DepositThenWithdraw | src/account.rs:87-94 | Deposit 100 then withdraw 50 leaves 50 available and in total. |
| Scenarios.DisputeThenSettle | src/account.rs:120-147 | Deposit 100, dispute 50, then resolve gives 100/0/100 unlocked; chargeback gives 50/0/50 locked. |
| Scenarios.RefusedOnEmpty | src/account.rs:97-153 | On an empty account, withdrawing, disputing, resolving or charging back 50 is refused with the matching error, and the account stays empty. |
| Scenarios.NoTransactions | src/engine_simple.rs:109-115 | Empty input gives no accounts and no errors. |
| Scenarios.DepositRun | src/engine_simple.rs:118-129 | One deposit of 3.1234 gives that much available and in total, and no errors. |
| Scenarios.WithdrawalRun | src/engine_simple.rs:132-144 | A deposit then a withdrawal of the same amount leaves a zero account, and no errors. |
| Scenarios.LoneWithdrawalRun | src/engine_simple.rs:147-156 | A lone withdrawal is refused; its client still gets a zero account; one error. |
| Scenarios.DisputeRun | src/engine_simple.rs:159-169 | Deposit then dispute moves the 100 to held, with no errors. |
| Scenarios.UnknownTxRun | src/engine_simple.rs:172-183 | Disputing, resolving or charging back tx 999, which was never applied, gives one error and leaves the deposit in place. |
| Scenarios.UndisputedRun | src/engine_simple.rs:213-223 | Resolving or charging back the undisputed deposit gives one error and leaves the deposit in place. |
| Scenarios.SettleRun | src/engine_simple.rs:186-197 | Deposit, dispute, resolve gives 100 available; deposit, dispute, chargeback gives all zero and locked; no errors either way. |
| Scenarios.ChargebackScenario | src/engine_simple.rs:226-237 | Through the simple engine, deposit, dispute and chargeback list one locked, all-zero account and no errors. |
| Scenarios.LoneWithdrawalScenario | src/engine_simple.rs:147-156 | Through the extended engine, a lone withdrawal lists one zero account and reports one `WithdrawalFailed`. |
| Scenarios.EnginesAgree | src/engine_extended.rs:22-89 | On records of the five known types, the simple engine and a fresh extended engine list the same records and report the same errors. |
| Scenarios.UnknownTypeScenario | src/engine_extended.rs:96-101 | The extended engine reports an unrecognised type as an error and carries on with the next record. |
| Scenarios.AnalyzeTwice | src/engine_extended.rs:7-11 | Two `Analyze` calls on one extended engine equal one call on the concatenated records, because accounts and trackers persist in its fields. |

## Left out

- `src/main.rs` is not part of this model. It covers CSV reading and trimming, the command line, output to stdout and stderr, and the process exit code. All of this is I/O.
- The record type (`src/transaction.rs`) is modelled only as the `Transaction` datatype. Mapping the type text onto `Kind` is parsing and is left out. Any other text is kept as `Unknown(name)`.
- Error message text is not modelled. Each message becomes an `EngineError` variant with its transaction id, or with the type text for an unhandled type. In the simple engine, the message for a chargeback of an undisputed transaction says "to resolve" (src/engine_simple.rs:76). The extended engine says "to charge" there. Both are modelled as `UndisputedChargeback`.
- `rust_decimal` overflow panics, scale and rounding are left out. Amounts are exact reals.
- The order of the output accounts is the hash map's iteration order, which is unspecified. The model picks keys in an arbitrary order, and the contracts state the listing as a set of records, one per client.
- EngineSimple.Analyze: requires every record to have a known type. The source panics on an unknown type (src/engine_simple.rs:89), and that abort is not modelled.
- EngineSimple.Analyze and EngineExtended.Engine.AnalyzeTransaction: the loop body is split into helper methods (`DispatchRecord`, `AnalyzeRecord`, `DispatchTracked`, `DispatchStored`). In the source it is one block. Each early return stands for the source's `continue` or `return Err`.
- Accounts.DisputeThenResolveRestores: requires `held >= 0`. With a negative held balance, the resolve guard refuses the amount the dispute has just moved. Every run from the empty state with non-negative deposit and withdrawal amounts keeps `held >= 0` (`Replay.RunKeepsNonNegative`).
- The scenarios hold for every client id. The source's tests use the client id 123.
