/** The engine that keeps its accounts and its applied and disputed amounts in
    local maps for the duration of one call. */
module EngineSimple {
  import opened Types
  import opened Accounts
  import opened Repository
  import opened Replay

  /** The `match` on the record's kind in the source's loop, against the account
      already fetched for the record's client. A failure leaves the account and both
      maps as they were and reports the error in `outcome`. */
  method DispatchRecord(account: Account, applied: map<TxId, Amount>, disputed: map<TxId, Amount>, t: Transaction)
    returns (applied': map<TxId, Amount>, disputed': map<TxId, Amount>, outcome: Outcome<EngineError>)
    requires !t.kind.Unknown?
    modifies account
    ensures Dispatched(account.Value(), applied', disputed', outcome) == Dispatch(old(account.Value()), applied, disputed, t)
  {
    applied', disputed', outcome := applied, disputed, Pass;
    match t.kind {
      case Deposit =>
        var ok := account.Deposit(t.amount);
        applied' := applied'[t.tx := t.amount];
      case Withdrawal =>
        var r := account.Withdraw(t.amount);
        if r.Fail? {
          return applied', disputed', Fail(WithdrawalFailed(t.tx, r.error));
        }
        applied' := applied'[t.tx := t.amount];
      case Dispute =>
        if t.tx !in applied' {
          return applied', disputed', Fail(AppliedNotFound(t.tx));
        }
        var disputable := applied'[t.tx];
        var r := account.Dispute(disputable);
        if r.Fail? {
          return applied', disputed', Fail(DisputeFailed(t.tx, r.error));
        }
        disputed' := disputed'[t.tx := disputable];
      case Resolve =>
        if t.tx !in disputed' {
          return applied', disputed', Fail(UndisputedResolve(t.tx));
        }
        var resolvable := disputed'[t.tx];
        var r := account.Resolve(resolvable);
        if r.Fail? {
          return applied', disputed', Fail(ResolveFailed(t.tx, r.error));
        }
        disputed' := disputed' - {t.tx};
      case Chargeback =>
        if t.tx !in disputed' {
          return applied', disputed', Fail(UndisputedChargeback(t.tx));
        }
        var chargeable := disputed'[t.tx];
        var r := account.Chargeback(chargeable);
        if r.Fail? {
          return applied', disputed', Fail(ChargebackFailed(t.tx, r.error));
        }
        disputed' := disputed' - {t.tx};
    }
  }

  /** Dispatches against the account stored under `t.client` in `table`; only
      that account changes, so the table's snapshot changes at `t.client` only. */
  method DispatchStored(table: map<ClientId, Account>, applied: map<TxId, Amount>, disputed: map<TxId, Amount>, t: Transaction)
    returns (applied': map<TxId, Amount>, disputed': map<TxId, Amount>, outcome: Outcome<EngineError>)
    requires KeyedByClient(table) && t.client in table
    requires !t.kind.Unknown?
    modifies table[t.client]
    ensures KeyedByClient(table)
    ensures Snapshot(table) == old(Snapshot(table))[t.client := table[t.client].Value()]
    ensures Dispatched(table[t.client].Value(), applied', disputed', outcome)
         == Dispatch(old(table[t.client].Value()), applied, disputed, t)
  {
    ghost var before := Snapshot(table);
    applied', disputed', outcome := DispatchRecord(table[t.client], applied, disputed, t);
    forall k | k in table && k != t.client
      ensures table[k].Value() == before[k]
    {
      assert old(table[k].client) == k;
    }
    SnapshotUpdate(table, t.client, before);
  }

  /** The body of the source's loop for one record: fetch the record client's
      account from the table, creating an empty one if there is none, then dispatch. */
  method AnalyzeRecord(table: map<ClientId, Account>, applied: map<TxId, Amount>, disputed: map<TxId, Amount>, t: Transaction)
    returns (table': map<ClientId, Account>, applied': map<TxId, Amount>, disputed': map<TxId, Amount>, outcome: Outcome<EngineError>)
    requires KeyedByClient(table)
    requires !t.kind.Unknown?
    modifies table.Values
    ensures KeyedByClient(table')
    ensures table'.Keys == table.Keys + {t.client}
    ensures forall c | c in table :: table'[c] == table[c]
    ensures t.client !in table ==> fresh(table'[t.client])
    ensures StepResult(EngineState(Snapshot(table'), applied', disputed'), outcome)
         == Step(EngineState(old(Snapshot(table)), applied, disputed), t)
  {
    if t.client in table {
      table' := table;
    } else {
      var account := new Account.Empty(t.client);
      table' := table[t.client := account];
    }
    ghost var touched := Touch(EngineState(Snapshot(table), applied, disputed), t.client);
    assert Snapshot(table') == touched.accounts;
    applied', disputed', outcome := DispatchStored(table', applied, disputed, t);
  }

  /** Replays `txs` from nothing and returns every account touched (in unspecified
      order) and the errors, in input order. An unrecognised type aborts the source
      program, so callers must not pass one. */
  method Analyze(txs: seq<Transaction>) returns (accounts: seq<AccountState>, errors: seq<EngineError>)
    requires forall i | 0 <= i < |txs| :: !txs[i].kind.Unknown?
    ensures ListsExactly(accounts, Run(Initial, txs).state.accounts)
    ensures errors == Run(Initial, txs).errors
  {
    var table: map<ClientId, Account> := map[];
    var applied: map<TxId, Amount> := map[];
    var disputed: map<TxId, Amount> := map[];
    errors := [];

    for i := 0 to |txs|
      invariant KeyedByClient(table)
      invariant forall c | c in table :: fresh(table[c])
      invariant EngineState(Snapshot(table), applied, disputed) == Run(Initial, txs[..i]).state
      invariant errors == Run(Initial, txs[..i]).errors
    {
      var outcome;
      table, applied, disputed, outcome := AnalyzeRecord(table, applied, disputed, txs[i]);
      RunExtends(Initial, txs, i, EngineState(Snapshot(table), applied, disputed), outcome);
      if outcome.Fail? {
        errors := errors + [outcome.error];
      }
    }
    assert txs[..|txs|] == txs;
    accounts := Collect(table);
  }
}
