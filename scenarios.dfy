/** The end-to-end scenarios of the source's unit tests, the agreement of the two
    engines on records of known kinds, and state carried across calls. */
module Scenarios {
  import opened Types
  import opened Accounts
  import opened Cache
  import opened Repository
  import opened Replay
  import EngineSimple
  import EngineExtended

  // The tests use the single client 123; every scenario below is stated for an
  // arbitrary client `c`.

  /** A listing of a single account is that account. */
  lemma ListingOfOne(out: seq<AccountState>, a: AccountState)
    requires ListsExactly(out, map[a.client := a])
    ensures out == [a]
  {
    assert |out| == 1;
    assert out[0].client in map[a.client := a];
  }

  // ---------------------------------------------------------------------------
  // Account operations on a fresh account

  /** Deposit 100, withdraw 50: 50 available and in total. */
  method DepositThenWithdraw(c: ClientId) returns (available: Amount, total: Amount)
    ensures available == 50.0 && total == 50.0
  {
    var account := new Account.Empty(c);
    var deposited := account.Deposit(100.0);
    var withdrawn := account.Withdraw(50.0);
    available, total := account.available, account.total;
  }

  /** Deposit 100, dispute 50, then resolve or charge back the 50. */
  method DisputeThenSettle(c: ClientId, chargeBack: bool) returns (available: Amount, held: Amount, total: Amount, locked: bool)
    ensures chargeBack ==> available == 50.0 && held == 0.0 && total == 50.0 && locked
    ensures !chargeBack ==> available == 100.0 && held == 0.0 && total == 100.0 && !locked
  {
    var account := new Account.Empty(c);
    var deposited := account.Deposit(100.0);
    var disputed := account.Dispute(50.0);
    assert account.available == 50.0 && account.held == 50.0 && account.total == 100.0;
    var settled;
    if chargeBack {
      settled := account.Chargeback(50.0);
    } else {
      settled := account.Resolve(50.0);
    }
    available, held, total, locked := account.available, account.held, account.total, account.locked;
  }

  /** On an empty account every guarded operation of 50 is refused with the
      matching error, and the account stays empty. */
  method RefusedOnEmpty(c: ClientId) returns (withdrawn: Outcome<AccountError>, disputed: Outcome<AccountError>,
                                   resolved: Outcome<AccountError>, chargedBack: Outcome<AccountError>, after: AccountState)
    ensures withdrawn == Fail(InsufficientAvailableFunds) && disputed == Fail(InsufficientAvailableFunds)
    ensures resolved == Fail(InsufficientHeldFunds) && chargedBack == Fail(InsufficientHeldFunds)
    ensures after == EmptyState(c)
  {
    var account := new Account.Empty(c);
    withdrawn := account.Withdraw(50.0);
    disputed := account.Dispute(50.0);
    resolved := account.Resolve(50.0);
    chargedBack := account.Chargeback(50.0);
    after := account.Value();
  }

  // ---------------------------------------------------------------------------
  // Engine runs

  /** No records: no accounts and no errors. */
  method NoTransactions() returns (accounts: seq<AccountState>, errors: seq<EngineError>)
    ensures accounts == [] && errors == []
  {
    accounts, errors := EngineSimple.Analyze([]);
  }

  /** A deposit of 3.1234 gives that much available and in total. */
  lemma DepositRun(c: ClientId)
    ensures Run(Initial, [Transaction(Deposit, c, 2, 3.1234)])
         == RunResult(EngineState(map[c := NewState(c, 3.1234, 0.0, false)], map[2 := 3.1234], map[]), [])
  {
    RunSnoc(Initial, [], Transaction(Deposit, c, 2, 3.1234));
  }

  /** A deposit then a withdrawal of the same amount (reusing tx 2) leaves zero. */
  lemma WithdrawalRun(c: ClientId)
    ensures Run(Initial, [Transaction(Deposit, c, 2, 3.1234), Transaction(Withdrawal, c, 2, 3.1234)]).state.accounts
         == map[c := NewState(c, 0.0, 0.0, false)]
    ensures Run(Initial, [Transaction(Deposit, c, 2, 3.1234), Transaction(Withdrawal, c, 2, 3.1234)]).errors == []
  {
    DepositRun(c);
    RunSnoc(Initial, [Transaction(Deposit, c, 2, 3.1234)], Transaction(Withdrawal, c, 2, 3.1234));
    assert [Transaction(Deposit, c, 2, 3.1234)] + [Transaction(Withdrawal, c, 2, 3.1234)]
        == [Transaction(Deposit, c, 2, 3.1234), Transaction(Withdrawal, c, 2, 3.1234)];
  }

  /** A lone withdrawal is refused, yet its client appears with a zero account. */
  lemma LoneWithdrawalRun(c: ClientId)
    ensures Run(Initial, [Transaction(Withdrawal, c, 2, 3.1234)])
         == RunResult(EngineState(map[c := EmptyState(c)], map[], map[]),
                      [WithdrawalFailed(2, InsufficientAvailableFunds)])
  {
    RunSnoc(Initial, [], Transaction(Withdrawal, c, 2, 3.1234));
  }

  /** The state after depositing 100 under tx 1. */
  function Funded(c: ClientId): EngineState {
    EngineState(map[c := NewState(c, 100.0, 0.0, false)], map[1 := 100.0], map[])
  }

  /** The state after that deposit has been disputed. */
  function Held(c: ClientId): EngineState {
    EngineState(map[c := NewState(c, 0.0, 100.0, false)], map[1 := 100.0], map[1 := 100.0])
  }

  lemma FundedRun(c: ClientId)
    ensures Run(Initial, [Transaction(Deposit, c, 1, 100.0)]) == RunResult(Funded(c), [])
  {
    RunSnoc(Initial, [], Transaction(Deposit, c, 1, 100.0));
  }

  /** Two records after the deposit of 100 under tx 1: the run is one step from `Funded(c)`. */
  lemma RunAfterDeposit(c: ClientId, t: Transaction)
    ensures Run(Initial, [Transaction(Deposit, c, 1, 100.0), t]) == RunResult(Step(Funded(c), t).state, ErrorsOf(Step(Funded(c), t).outcome))
  {
    FundedRun(c);
    RunSnoc(Initial, [Transaction(Deposit, c, 1, 100.0)], t);
    assert [Transaction(Deposit, c, 1, 100.0)] + [t] == [Transaction(Deposit, c, 1, 100.0), t];
  }

  /** Deposit then dispute: the 100 moves to held, no errors. */
  lemma DisputeRun(c: ClientId)
    ensures Run(Initial, [Transaction(Deposit, c, 1, 100.0), Transaction(Dispute, c, 1, 0.0)]) == RunResult(Held(c), [])
  {
    RunAfterDeposit(c, Transaction(Dispute, c, 1, 0.0));
  }

  /** Deposit then a dispute, resolve or chargeback of tx 999, which was never
      applied: one error and the deposit stands. */
  lemma UnknownTxRun(c: ClientId, kind: Kind)
    requires kind == Dispute || kind == Resolve || kind == Chargeback
    ensures Run(Initial, [Transaction(Deposit, c, 1, 100.0), Transaction(kind, c, 999, 0.0)]).state == Funded(c)
    ensures |Run(Initial, [Transaction(Deposit, c, 1, 100.0), Transaction(kind, c, 999, 0.0)]).errors| == 1
  {
    RunAfterDeposit(c, Transaction(kind, c, 999, 0.0));
  }

  /** Deposit then a resolve or chargeback of the undisputed tx 1: one error and
      the deposit stands. */
  lemma UndisputedRun(c: ClientId, kind: Kind)
    requires kind == Resolve || kind == Chargeback
    ensures Run(Initial, [Transaction(Deposit, c, 1, 100.0), Transaction(kind, c, 1, 0.0)]).state == Funded(c)
    ensures |Run(Initial, [Transaction(Deposit, c, 1, 100.0), Transaction(kind, c, 1, 0.0)]).errors| == 1
  {
    RunAfterDeposit(c, Transaction(kind, c, 1, 0.0));
  }

  /** Deposit, dispute, then resolve (back to 100 available) or chargeback (all
      zero and locked), with no errors. */
  lemma SettleRun(c: ClientId, kind: Kind)
    requires kind == Resolve || kind == Chargeback
    ensures Run(Initial, [Transaction(Deposit, c, 1, 100.0), Transaction(Dispute, c, 1, 0.0), Transaction(kind, c, 1, 0.0)]).state.accounts
         == map[c := if kind == Resolve then NewState(c, 100.0, 0.0, false) else NewState(c, 0.0, 0.0, true)]
    ensures Run(Initial, [Transaction(Deposit, c, 1, 100.0), Transaction(Dispute, c, 1, 0.0), Transaction(kind, c, 1, 0.0)]).errors == []
  {
    DisputeRun(c);
    RunSnoc(Initial, [Transaction(Deposit, c, 1, 100.0), Transaction(Dispute, c, 1, 0.0)], Transaction(kind, c, 1, 0.0));
    assert [Transaction(Deposit, c, 1, 100.0), Transaction(Dispute, c, 1, 0.0)] + [Transaction(kind, c, 1, 0.0)]
        == [Transaction(Deposit, c, 1, 100.0), Transaction(Dispute, c, 1, 0.0), Transaction(kind, c, 1, 0.0)];
  }

  /** The chargeback scenario run through the simple engine: the listing is the one
      locked, empty account, and there are no errors. */
  method ChargebackScenario(c: ClientId) returns (accounts: seq<AccountState>, errors: seq<EngineError>)
    ensures accounts == [NewState(c, 0.0, 0.0, true)] && errors == []
  {
    var txs := [Transaction(Deposit, c, 1, 100.0), Transaction(Dispute, c, 1, 0.0), Transaction(Chargeback, c, 1, 0.0)];
    accounts, errors := EngineSimple.Analyze(txs);
    SettleRun(c, Chargeback);
    ListingOfOne(accounts, NewState(c, 0.0, 0.0, true));
  }

  /** The lone failed withdrawal run through the extended engine: a zero account
      and one error. */
  method LoneWithdrawalScenario(c: ClientId) returns (accounts: seq<AccountState>, errors: seq<EngineError>)
    ensures accounts == [EmptyState(c)] && errors == [WithdrawalFailed(2, InsufficientAvailableFunds)]
  {
    accounts, errors := EngineExtended.AnalyzeFresh([Transaction(Withdrawal, c, 2, 3.1234)]);
    LoneWithdrawalRun(c);
    ListingOfOne(accounts, EmptyState(c));
  }

  // ---------------------------------------------------------------------------
  // The two engines

  /** On records of the five known kinds the two engines, the extended one on
      fresh collaborators, list the same accounts and report the same errors. */
  method EnginesAgree(txs: seq<Transaction>)
    returns (simple: seq<AccountState>, extended: seq<AccountState>, simpleErrors: seq<EngineError>, extendedErrors: seq<EngineError>)
    requires forall i | 0 <= i < |txs| :: !txs[i].kind.Unknown?
    ensures |simple| == |extended| && (forall r :: r in simple <==> r in extended)
    ensures simpleErrors == extendedErrors
  {
    simple, simpleErrors := EngineSimple.Analyze(txs);
    extended, extendedErrors := EngineExtended.AnalyzeFresh(txs);
    ListsExactlySameRecords(simple, extended, Run(Initial, txs).state.accounts);
  }

  /** An unrecognised type is reported by the extended engine, which carries on:
      the client still gets an account and the following deposit is applied. */
  method UnknownTypeScenario(c: ClientId) returns (accounts: seq<AccountState>, errors: seq<EngineError>)
    ensures accounts == [NewState(c, 5.0, 0.0, false)]
    ensures errors == [UnhandledType("transfer")]
  {
    var txs := [Transaction(Unknown("transfer"), c, 1, 5.0), Transaction(Deposit, c, 2, 5.0)];
    accounts, errors := EngineExtended.AnalyzeFresh(txs);
    RunSnoc(Initial, [], txs[0]);
    RunSnoc(Initial, [txs[0]], txs[1]);
    assert [txs[0]] + [txs[1]] == txs;
    ListingOfOne(accounts, NewState(c, 5.0, 0.0, false));
  }

  /** Two calls of the extended engine's `Analyze` on the same engine amount to one
      call on the concatenated records: accounts and trackers carry over. */
  method AnalyzeTwice(first: seq<Transaction>, second: seq<Transaction>)
    returns (accounts: seq<AccountState>, firstErrors: seq<EngineError>, secondErrors: seq<EngineError>)
    ensures ListsExactly(accounts, Run(Initial, first + second).state.accounts)
    ensures firstErrors + secondErrors == Run(Initial, first + second).errors
  {
    var repository := new AccountRepository();
    var applied := new CachedAmounts();
    var disputed := new CachedAmounts();
    var engine := new EngineExtended.Engine(repository, applied, disputed);
    assert engine.State() == Initial;
    var firstAccounts;
    firstAccounts, firstErrors := engine.Analyze(first);
    ghost var middle := engine.State();
    accounts, secondErrors := engine.Analyze(second);
    assert engine.State() == Run(middle, second).state;
    RunAppend(Initial, first, second);
  }
}
