/** The engine that keeps its accounts in an AccountRepository and its applied and
    disputed amounts in two CachedAmounts trackers, all owned across calls. */
module EngineExtended {
  import opened Types
  import opened Accounts
  import opened Cache
  import opened Repository
  import opened Replay

  class Engine {
    var repository: AccountRepository
    var applied: CachedAmounts
    var disputed: CachedAmounts

    /** The repository keeps every account under its own client, and the two
        trackers are distinct objects (an update of one never shows in the other). */
    ghost predicate Valid()
      reads this, repository, repository.data.Values
    {
      repository.Valid() && applied != disputed
    }

    /** The engine's state as the replay model sees it. */
    ghost function State(): EngineState
      reads this, repository, repository.data.Values, applied, disputed
    {
      EngineState(repository.Accounts(), applied.data, disputed.data)
    }

    /** The repository and two distinct trackers, each owned by the engine from here on. */
    constructor (repository: AccountRepository, applied: CachedAmounts, disputed: CachedAmounts)
      requires repository.Valid() && applied != disputed
      ensures Valid()
      ensures this.repository == repository
      ensures this.applied == applied && this.disputed == disputed
    {
      this.repository := repository;
      this.applied := applied;
      this.disputed := disputed;
    }

    /** The `match` on the record's kind, against the account already fetched and
        the two trackers. A failure leaves the account and both trackers as they were. */
    method DispatchTracked(account: Account, t: Transaction) returns (outcome: Outcome<EngineError>)
      requires applied != disputed
      modifies account, applied, disputed
      ensures Dispatched(account.Value(), applied.data, disputed.data, outcome)
           == Dispatch(old(account.Value()), old(applied.data), old(disputed.data), t)
    {
      outcome := Pass;
      match t.kind {
        case Deposit =>
          var ok := account.Deposit(t.amount);
          applied.Add(t.tx, t.amount);
        case Withdrawal =>
          var r := account.Withdraw(t.amount);
          if r.Fail? {
            return Fail(WithdrawalFailed(t.tx, r.error));
          }
          applied.Add(t.tx, t.amount);
        case Dispute =>
          var found := applied.Get(t.tx);
          if found.None? {
            return Fail(AppliedNotFound(t.tx));
          }
          var disputable := found.value;
          var r := account.Dispute(disputable);
          if r.Fail? {
            return Fail(DisputeFailed(t.tx, r.error));
          }
          disputed.Add(t.tx, disputable);
        case Resolve =>
          var found := disputed.Get(t.tx);
          if found.None? {
            return Fail(UndisputedResolve(t.tx));
          }
          var r := account.Resolve(found.value);
          if r.Fail? {
            return Fail(ResolveFailed(t.tx, r.error));
          }
          disputed.Remove(t.tx);
        case Chargeback =>
          var found := disputed.Get(t.tx);
          if found.None? {
            return Fail(UndisputedChargeback(t.tx));
          }
          var r := account.Chargeback(found.value);
          if r.Fail? {
            return Fail(ChargebackFailed(t.tx, r.error));
          }
          disputed.Remove(t.tx);
        case Unknown(name) =>
          return Fail(UnhandledType(name));
      }
    }

    /** Dispatches against the account the repository holds for `t.client`; the
        repository's other accounts keep their values. */
    method DispatchStored(t: Transaction) returns (outcome: Outcome<EngineError>)
      requires Valid() && t.client in repository.data
      modifies repository.data[t.client], applied, disputed
      ensures Valid()
      ensures repository.Accounts() == old(repository.Accounts())[t.client := repository.data[t.client].Value()]
      ensures Dispatched(repository.data[t.client].Value(), applied.data, disputed.data, outcome)
           == Dispatch(old(repository.data[t.client].Value()), old(applied.data), old(disputed.data), t)
    {
      ghost var before := repository.Accounts();
      outcome := DispatchTracked(repository.data[t.client], t);
      forall k | k in repository.data && k != t.client
        ensures repository.data[k].Value() == before[k]
      {
        assert old(repository.data[k].client) == k;
      }
      SnapshotUpdate(repository.data, t.client, before);
    }

    /** Applies one record: fetch or create the client's account, then dispatch.
        The new state is one replay step from the old, and an unrecognised type is
        reported as an error (the account has been created by then). */
    method AnalyzeTransaction(t: Transaction) returns (outcome: Outcome<EngineError>)
      requires Valid()
      modifies repository, repository.data.Values, applied, disputed
      ensures Valid()
      ensures StepResult(State(), outcome) == Step(old(State()), t)
      ensures forall a | a in repository.data.Values :: a in old(repository.data.Values) || fresh(a)
    {
      var account := repository.GetOrCreate(t.client);
      assert State() == Touch(old(State()), t.client);
      outcome := DispatchStored(t);
    }

    /** Applies every record in order, collecting the errors in input order, then
        lists every account the repository holds (in unspecified order). */
    method Analyze(txs: seq<Transaction>) returns (accounts: seq<AccountState>, errors: seq<EngineError>)
      requires Valid()
      modifies repository, repository.data.Values, applied, disputed
      ensures Valid()
      ensures forall a | a in repository.data.Values :: a in old(repository.data.Values) || fresh(a)
      ensures State() == Run(old(State()), txs).state
      ensures errors == Run(old(State()), txs).errors
      ensures ListsExactly(accounts, Run(old(State()), txs).state.accounts)
    {
      ghost var start := State();
      errors := [];
      for i := 0 to |txs|
        invariant Valid()
        invariant forall a | a in repository.data.Values :: a in old(repository.data.Values) || fresh(a)
        invariant State() == Run(start, txs[..i]).state
        invariant errors == Run(start, txs[..i]).errors
      {
        var outcome := AnalyzeTransaction(txs[i]);
        RunExtends(start, txs, i, State(), outcome);
        if outcome.Fail? {
          errors := errors + [outcome.error];
        }
      }
      assert txs[..|txs|] == txs;
      accounts := repository.All();
    }
  }

  /** An engine built on an empty repository and empty trackers replays `txs`
      from the initial state. */
  method AnalyzeFresh(txs: seq<Transaction>) returns (accounts: seq<AccountState>, errors: seq<EngineError>)
    ensures ListsExactly(accounts, Run(Initial, txs).state.accounts)
    ensures errors == Run(Initial, txs).errors
  {
    var repository := new AccountRepository();
    var applied := new CachedAmounts();
    var disputed := new CachedAmounts();
    var engine := new Engine(repository, applied, disputed);
    assert engine.State() == Initial;
    accounts, errors := engine.Analyze(txs);
  }
}
