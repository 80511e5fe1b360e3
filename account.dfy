/** The per-client ledger record and its five guarded operations. */
module Accounts {
  import opened Types

  /** Why an account operation was refused. */
  datatype AccountError = InsufficientAvailableFunds | InsufficientHeldFunds

  /** The value of an account at one instant (what the source clones out of its maps). */
  datatype AccountState = AccountState(client: ClientId, available: Amount, held: Amount, total: Amount, locked: bool)
  {
    /** The balance identity the source keeps: total is available plus held. */
    predicate Balanced() {
      total == available + held
    }

    predicate NonNegative() {
      available >= 0.0 && held >= 0.0 && total >= 0.0
    }
  }

  /** The record built by `Account::new`: total is derived from the other two balances. */
  function NewState(client: ClientId, available: Amount, held: Amount, locked: bool): (a: AccountState)
    ensures a.Balanced()
    ensures a.client == client && a.available == available && a.held == held && a.locked == locked
  {
    AccountState(client, available, held, available + held, locked)
  }

  /** The record built by `Account::empty`: zero balances, unlocked. */
  function EmptyState(client: ClientId): (a: AccountState)
    ensures a.Balanced() && a.NonNegative()
    ensures a.client == client && a.available == a.held == a.total == 0.0 && !a.locked
  {
    NewState(client, 0.0, 0.0, false)
  }

  // The five operations on values. Each is the specification of the method of the
  // same meaning in class Account; a refused operation yields the error only.

  function Deposited(a: AccountState, amount: Amount): AccountState
  {
    a.(available := a.available + amount, total := a.total + amount)
  }

  function Withdrawn(a: AccountState, amount: Amount): Result<AccountState, AccountError>
  {
    if amount > a.available then Err(InsufficientAvailableFunds)
    else Ok(a.(available := a.available - amount, total := a.total - amount))
  }

  function Disputed(a: AccountState, amount: Amount): Result<AccountState, AccountError>
  {
    if amount > a.available then Err(InsufficientAvailableFunds)
    else Ok(a.(available := a.available - amount, held := a.held + amount))
  }

  function Resolved(a: AccountState, amount: Amount): Result<AccountState, AccountError>
  {
    if amount > a.held then Err(InsufficientHeldFunds)
    else Ok(a.(available := a.available + amount, held := a.held - amount))
  }

  function ChargedBack(a: AccountState, amount: Amount): Result<AccountState, AccountError>
  {
    if amount > a.held then Err(InsufficientHeldFunds)
    else Ok(a.(held := a.held - amount, total := a.total - amount, locked := true))
  }

  /** The five operations, named, so that properties can be stated once for all of them. */
  datatype Op = DepositOp | WithdrawOp | DisputeOp | ResolveOp | ChargebackOp

  function Apply(a: AccountState, op: Op, amount: Amount): Result<AccountState, AccountError>
  {
    match op
    case DepositOp => Ok(Deposited(a, amount))
    case WithdrawOp => Withdrawn(a, amount)
    case DisputeOp => Disputed(a, amount)
    case ResolveOp => Resolved(a, amount)
    case ChargebackOp => ChargedBack(a, amount)
  }

  /** The balance an operation draws on: available for withdraw and dispute,
      held for resolve and chargeback; deposit draws on nothing. */
  function DrawnBalance(a: AccountState, op: Op): Option<Amount>
  {
    match op
    case DepositOp => None
    case WithdrawOp => Some(a.available)
    case DisputeOp => Some(a.available)
    case ResolveOp => Some(a.held)
    case ChargebackOp => Some(a.held)
  }

  /** An operation fails exactly when the amount exceeds the balance it draws on,
      and the error names that balance. */
  lemma ApplyFailsIff(a: AccountState, op: Op, amount: Amount)
    ensures Apply(a, op, amount).Err? <==> (DrawnBalance(a, op).Some? && amount > DrawnBalance(a, op).value)
    ensures Apply(a, op, amount).Err? ==>
              Apply(a, op, amount).error == (if op == WithdrawOp || op == DisputeOp then InsufficientAvailableFunds else InsufficientHeldFunds)
  {
  }

  /** Every successful operation keeps `total == available + held`, keeps the client,
      and sets `locked` exactly when it is a chargeback (nothing clears it). */
  lemma ApplyPreservesInvariants(a: AccountState, op: Op, amount: Amount)
    requires Apply(a, op, amount).Ok?
    ensures var b := Apply(a, op, amount).value;
      && (a.Balanced() ==> b.Balanced())
      && b.client == a.client
      && b.locked == (a.locked || op == ChargebackOp)
  {
  }

  /** With a non-negative amount no successful operation drives a non-negative balance negative. */
  lemma ApplyKeepsNonNegative(a: AccountState, op: Op, amount: Amount)
    requires a.Balanced() && a.NonNegative() && amount >= 0.0
    requires Apply(a, op, amount).Ok?
    ensures Apply(a, op, amount).value.NonNegative()
  {
  }

  /** How each successful operation moves money between the three balances. */
  lemma ApplyMovesFunds(a: AccountState, op: Op, amount: Amount)
    requires Apply(a, op, amount).Ok?
    ensures var b := Apply(a, op, amount).value;
      match op
      case DepositOp => b.available == a.available + amount && b.held == a.held && b.total == a.total + amount
      case WithdrawOp => b.available == a.available - amount && b.held == a.held && b.total == a.total - amount
      case DisputeOp => b.available == a.available - amount && b.held == a.held + amount && b.total == a.total
      case ResolveOp => b.available == a.available + amount && b.held == a.held - amount && b.total == a.total
      case ChargebackOp => b.available == a.available && b.held == a.held - amount && b.total == a.total - amount
  {
  }

  /** A dispute followed by a resolve of the same amount restores the account.
      The held balance must not be negative to start with: otherwise the resolve's
      guard (`amount > held`) refuses the amount the dispute has just moved. */
  lemma DisputeThenResolveRestores(a: AccountState, amount: Amount)
    requires a.held >= 0.0
    requires Disputed(a, amount).Ok?
    ensures Resolved(Disputed(a, amount).value, amount) == Ok(a)
  {
  }

  /** The in-place ledger record of one client. */
  class Account {
    var client: ClientId
    var available: Amount
    var held: Amount
    var total: Amount
    var locked: bool

    function Value(): AccountState
      reads this
    {
      AccountState(client, available, held, total, locked)
    }

    constructor New(client: ClientId, available: Amount, held: Amount, locked: bool)
      ensures Value() == NewState(client, available, held, locked)
    {
      this.client := client;
      this.available := available;
      this.held := held;
      this.total := available + held;
      this.locked := locked;
    }

    constructor Empty(client: ClientId)
      ensures Value() == EmptyState(client)
    {
      this.client := client;
      this.available := 0.0;
      this.held := 0.0;
      this.total := 0.0;
      this.locked := false;
    }

    method Deposit(amount: Amount) returns (r: Outcome<AccountError>)
      modifies this
      ensures r == Pass
      ensures Value() == Deposited(old(Value()), amount)
    {
      available := available + amount;
      total := total + amount;
      r := Pass;
    }

    method Withdraw(amount: Amount) returns (r: Outcome<AccountError>)
      modifies this
      ensures Withdrawn(old(Value()), amount).Err? ==>
                r == Fail(Withdrawn(old(Value()), amount).error) && Value() == old(Value())
      ensures Withdrawn(old(Value()), amount).Ok? ==>
                r == Pass && Value() == Withdrawn(old(Value()), amount).value
    {
      if amount > available {
        return Fail(InsufficientAvailableFunds);
      }
      available := available - amount;
      total := total - amount;
      r := Pass;
    }

    method Dispute(amount: Amount) returns (r: Outcome<AccountError>)
      modifies this
      ensures Disputed(old(Value()), amount).Err? ==>
                r == Fail(Disputed(old(Value()), amount).error) && Value() == old(Value())
      ensures Disputed(old(Value()), amount).Ok? ==>
                r == Pass && Value() == Disputed(old(Value()), amount).value
    {
      if amount > available {
        return Fail(InsufficientAvailableFunds);
      }
      available := available - amount;
      held := held + amount;
      r := Pass;
    }

    method Resolve(amount: Amount) returns (r: Outcome<AccountError>)
      modifies this
      ensures Resolved(old(Value()), amount).Err? ==>
                r == Fail(Resolved(old(Value()), amount).error) && Value() == old(Value())
      ensures Resolved(old(Value()), amount).Ok? ==>
                r == Pass && Value() == Resolved(old(Value()), amount).value
    {
      if amount > held {
        return Fail(InsufficientHeldFunds);
      }
      available := available + amount;
      held := held - amount;
      r := Pass;
    }

    method Chargeback(amount: Amount) returns (r: Outcome<AccountError>)
      modifies this
      ensures ChargedBack(old(Value()), amount).Err? ==>
                r == Fail(ChargedBack(old(Value()), amount).error) && Value() == old(Value())
      ensures ChargedBack(old(Value()), amount).Ok? ==>
                r == Pass && Value() == ChargedBack(old(Value()), amount).value
    {
      if amount > held {
        return Fail(InsufficientHeldFunds);
      }
      held := held - amount;
      total := total - amount;
      locked := true;
      r := Pass;
    }
  }
}
