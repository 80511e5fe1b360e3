/** The transaction engine as a state machine on values: one step per record,
    and the replay of a whole sequence. Both engines are proved against it. */
module Replay {
  import opened Types
  import opened Accounts

  /** Why one record was rejected; one variant per error message of the source. */
  datatype EngineError =
    | WithdrawalFailed(tx: TxId, cause: AccountError)
    | AppliedNotFound(tx: TxId)
    | DisputeFailed(tx: TxId, cause: AccountError)
    | UndisputedResolve(tx: TxId)
    | ResolveFailed(tx: TxId, cause: AccountError)
    | UndisputedChargeback(tx: TxId)
    | ChargebackFailed(tx: TxId, cause: AccountError)
    | UnhandledType(name: string)

  /** Accounts by client, and the applied and disputed amounts by tx. */
  datatype EngineState = EngineState(
    accounts: map<ClientId, AccountState>,
    applied: map<TxId, Amount>,
    disputed: map<TxId, Amount>)

  const Initial := EngineState(map[], map[], map[])

  datatype StepResult = StepResult(state: EngineState, outcome: Outcome<EngineError>)

  datatype RunResult = RunResult(state: EngineState, errors: seq<EngineError>)

  /** Every stored account carries its own key as client: the value-level form of
      `Repository.KeyedByClient`, which is stated over the stored objects. */
  ghost predicate ClientKeyed(s: EngineState) {
    forall c | c in s.accounts :: s.accounts[c].client == c
  }

  /** Fetch-or-create: the account of `client` exists afterwards, nothing else changes. */
  function Touch(s: EngineState, client: ClientId): (r: EngineState)
    ensures r.accounts.Keys == s.accounts.Keys + {client}
    ensures client in s.accounts ==> r == s
    ensures client !in s.accounts ==> r.accounts[client] == EmptyState(client)
    ensures r.applied == s.applied && r.disputed == s.disputed
    ensures forall c | c in s.accounts :: r.accounts[c] == s.accounts[c]
  {
    if client in s.accounts then s
    else s.(accounts := s.accounts[client := EmptyState(client)])
  }

  /** The effect of one record on the account it is applied to and on the two
      trackers, with the outcome. */
  datatype Dispatched = Dispatched(account: AccountState, applied: map<TxId, Amount>, disputed: map<TxId, Amount>, outcome: Outcome<EngineError>)

  /** The `match` on the record's kind, given the already fetched account `a`.
      Dispute, resolve and chargeback recall the stored amount of `t.tx` and apply
      it to `a`, whichever client made the original transaction. */
  function Dispatch(a: AccountState, applied: map<TxId, Amount>, disputed: map<TxId, Amount>, t: Transaction): (d: Dispatched)
    ensures d.outcome.Fail? ==> d.account == a && d.applied == applied && d.disputed == disputed
    ensures d.account.client == a.client
  {
    var same := Dispatched(a, applied, disputed, Pass);
    match t.kind
    case Deposit =>
      Dispatched(Deposited(a, t.amount), applied[t.tx := t.amount], disputed, Pass)
    case Withdrawal =>
      (match Withdrawn(a, t.amount)
       case Err(e) => same.(outcome := Fail(WithdrawalFailed(t.tx, e)))
       case Ok(b) => Dispatched(b, applied[t.tx := t.amount], disputed, Pass))
    case Dispute =>
      if t.tx !in applied then same.(outcome := Fail(AppliedNotFound(t.tx)))
      else
        var amount := applied[t.tx];
        (match Disputed(a, amount)
         case Err(e) => same.(outcome := Fail(DisputeFailed(t.tx, e)))
         case Ok(b) => Dispatched(b, applied, disputed[t.tx := amount], Pass))
    case Resolve =>
      if t.tx !in disputed then same.(outcome := Fail(UndisputedResolve(t.tx)))
      else
        (match Resolved(a, disputed[t.tx])
         case Err(e) => same.(outcome := Fail(ResolveFailed(t.tx, e)))
         case Ok(b) => Dispatched(b, applied, disputed - {t.tx}, Pass))
    case Chargeback =>
      if t.tx !in disputed then same.(outcome := Fail(UndisputedChargeback(t.tx)))
      else
        (match ChargedBack(a, disputed[t.tx])
         case Err(e) => same.(outcome := Fail(ChargebackFailed(t.tx, e)))
         case Ok(b) => Dispatched(b, applied, disputed - {t.tx}, Pass))
    case Unknown(name) => same.(outcome := Fail(UnhandledType(name)))
  }

  /** One record: the account of the record's client is fetched or created first,
      then the record is dispatched on its kind against that account. */
  function Step(s: EngineState, t: Transaction): (r: StepResult)
    ensures r.state.accounts.Keys == s.accounts.Keys + {t.client}
    ensures r.outcome.Fail? ==> r.state == Touch(s, t.client)
    ensures forall c | c in s.accounts && c != t.client :: r.state.accounts[c] == s.accounts[c]
  {
    var s0 := Touch(s, t.client);
    var d := Dispatch(s0.accounts[t.client], s0.applied, s0.disputed, t);
    assert d.outcome.Fail? ==> s0.accounts[t.client := d.account] == s0.accounts;
    StepResult(EngineState(s0.accounts[t.client := d.account], d.applied, d.disputed), d.outcome)
  }

  function ErrorsOf(o: Outcome<EngineError>): seq<EngineError> {
    if o.Fail? then [o.error] else []
  }

  /** Replays `txs` in order from `s`, collecting one error per rejected record. */
  function Run(s: EngineState, txs: seq<Transaction>): (r: RunResult)
    ensures |r.errors| <= |txs|
    decreases |txs|
  {
    if txs == [] then RunResult(s, [])
    else
      var prev := Run(s, txs[..|txs| - 1]);
      var step := Step(prev.state, txs[|txs| - 1]);
      RunResult(step.state, prev.errors + ErrorsOf(step.outcome))
  }

  // ---------------------------------------------------------------------------
  // One step

  /** A deposit, or a withdrawal that succeeds, records `tx ↦ amount` as applied
      and changes the client's account by the account operation. */
  lemma StepRecordsApplied(s: EngineState, t: Transaction)
    requires t.kind == Deposit || t.kind == Withdrawal
    ensures var r := Step(s, t);
      var a := Touch(s, t.client).accounts[t.client];
      var op := if t.kind == Deposit then DepositOp else WithdrawOp;
      && (r.outcome.Pass? <==> Apply(a, op, t.amount).Ok?)
      && (r.outcome.Pass? ==>
            && r.state.applied == s.applied[t.tx := t.amount]
            && r.state.disputed == s.disputed
            && r.state.accounts == Touch(s, t.client).accounts[t.client := Apply(a, op, t.amount).value])
  {
  }

  /** A dispute succeeds exactly when the tx is applied and its amount is available
      on the record's client; it then copies the applied amount into the disputed map. */
  lemma StepDispute(s: EngineState, t: Transaction)
    requires t.kind == Dispute
    ensures var r := Step(s, t);
      var a := Touch(s, t.client).accounts[t.client];
      && (t.tx !in s.applied ==> r.outcome == Fail(AppliedNotFound(t.tx)))
      && (r.outcome.Pass? <==> t.tx in s.applied && s.applied[t.tx] <= a.available)
      && (r.outcome.Pass? ==>
            && r.state.disputed == s.disputed[t.tx := s.applied[t.tx]]
            && r.state.applied == s.applied
            && r.state.accounts == Touch(s, t.client).accounts[t.client := Disputed(a, s.applied[t.tx]).value])
  {
  }

  /** Resolve and chargeback need the tx in the disputed map; on success they
      remove it from there and apply the disputed amount to the record's client. */
  lemma StepSettle(s: EngineState, t: Transaction)
    requires t.kind == Resolve || t.kind == Chargeback
    ensures var r := Step(s, t);
      var a := Touch(s, t.client).accounts[t.client];
      var op := if t.kind == Resolve then ResolveOp else ChargebackOp;
      && (t.tx !in s.disputed ==>
            r.outcome == Fail(if t.kind == Resolve then UndisputedResolve(t.tx) else UndisputedChargeback(t.tx)))
      && (r.outcome.Pass? <==> t.tx in s.disputed && s.disputed[t.tx] <= a.held)
      && (r.outcome.Pass? ==>
            && r.state.disputed == s.disputed - {t.tx}
            && r.state.applied == s.applied
            && r.state.accounts == Touch(s, t.client).accounts[t.client := Apply(a, op, s.disputed[t.tx]).value])
  {
  }

  /** An unrecognised type is an error that still creates the client's account. */
  lemma StepUnknown(s: EngineState, t: Transaction)
    requires t.kind.Unknown?
    ensures Step(s, t) == StepResult(Touch(s, t.client), Fail(UnhandledType(t.kind.name)))
  {
  }

  /** The record's own amount is ignored by dispute, resolve and chargeback. */
  lemma StepIgnoresAmount(s: EngineState, t: Transaction, other: Amount)
    requires t.kind == Dispute || t.kind == Resolve || t.kind == Chargeback
    ensures Step(s, t.(amount := other)) == Step(s, t)
  {
  }

  // ---------------------------------------------------------------------------
  // Whole runs

  lemma RunSnoc(s: EngineState, txs: seq<Transaction>, t: Transaction)
    ensures Run(s, txs + [t]) ==
      RunResult(Step(Run(s, txs).state, t).state, Run(s, txs).errors + ErrorsOf(Step(Run(s, txs).state, t).outcome))
  {
    assert (txs + [t])[..|txs|] == txs;
  }

  /** A step taken from the state after `txs[..i]` on `txs[i]` gives the run of
      `txs[..i + 1]`. */
  lemma RunExtends(s: EngineState, txs: seq<Transaction>, i: nat, next: EngineState, outcome: Outcome<EngineError>)
    requires i < |txs|
    requires StepResult(next, outcome) == Step(Run(s, txs[..i]).state, txs[i])
    ensures Run(s, txs[..i + 1]) == RunResult(next, Run(s, txs[..i]).errors + ErrorsOf(outcome))
  {
    assert txs[..i + 1][..i] == txs[..i];
  }

  /** Replaying `a` then `b` from where `a` stopped is replaying `a + b`:
      state carried across calls makes a second call continue from the first. */
  lemma {:induction false} RunAppend(s: EngineState, a: seq<Transaction>, b: seq<Transaction>)
    ensures Run(s, a + b) ==
      RunResult(Run(Run(s, a).state, b).state, Run(s, a).errors + Run(Run(s, a).state, b).errors)
    decreases |b|
  {
    if b == [] {
      assert a + b == a;
    } else {
      var b', t := b[..|b| - 1], b[|b| - 1];
      assert b == b' + [t];
      assert a + b == (a + b') + [t];
      RunAppend(s, a, b');
      var first := Run(s, a);
      var whole := Run(s, a + b');
      var rest := Run(first.state, b');
      assert whole.state == rest.state && whole.errors == first.errors + rest.errors;
      var last := Step(whole.state, t);
      RunSnoc(s, a + b', t);
      RunSnoc(first.state, b', t);
      assert Run(first.state, b) == RunResult(last.state, rest.errors + ErrorsOf(last.outcome));
      ConcatAssoc(first.errors, rest.errors, ErrorsOf(last.outcome));
    }
  }

  lemma ConcatAssoc(x: seq<EngineError>, y: seq<EngineError>, z: seq<EngineError>)
    ensures x + (y + z) == (x + y) + z
  {
  }

  /** The clients named by `txs`. */
  ghost function ClientsOf(txs: seq<Transaction>): set<ClientId> {
    set i | 0 <= i < |txs| :: txs[i].client
  }

  /** After a run the accounts are exactly those present before plus every client
      named by a record, including clients all of whose records failed. */
  lemma {:induction false} RunAccountsCoverClients(s: EngineState, txs: seq<Transaction>)
    ensures Run(s, txs).state.accounts.Keys == s.accounts.Keys + ClientsOf(txs)
    decreases |txs|
  {
    if txs != [] {
      var n := |txs| - 1;
      RunAccountsCoverClients(s, txs[..n]);
      ClientsOfLast(txs);
    }
  }

  lemma ClientsOfLast(txs: seq<Transaction>)
    requires txs != []
    ensures ClientsOf(txs) == ClientsOf(txs[..|txs| - 1]) + {txs[|txs| - 1].client}
  {
    var n := |txs| - 1;
    forall c | c in ClientsOf(txs) ensures c in ClientsOf(txs[..n]) + {txs[n].client} {
      var i :| 0 <= i < |txs| && txs[i].client == c;
      if i < n { assert txs[..n][i].client == c; }
    }
    forall c | c in ClientsOf(txs[..n]) ensures c in ClientsOf(txs) {
      var i :| 0 <= i < n && txs[..n][i].client == c;
      assert txs[i].client == c;
    }
  }

  /** The balance identity of every account is kept by any run. */
  lemma {:induction false} RunKeepsBalanced(s: EngineState, txs: seq<Transaction>)
    requires AllBalanced(s)
    ensures AllBalanced(Run(s, txs).state)
    decreases |txs|
  {
    if txs != [] {
      var n := |txs| - 1;
      RunKeepsBalanced(s, txs[..n]);
      StepKeepsBalanced(Run(s, txs[..n]).state, txs[n]);
    }
  }

  ghost predicate AllBalanced(s: EngineState) {
    forall c | c in s.accounts :: s.accounts[c].Balanced()
  }

  /** A successful known step changes exactly the record client's account, by one
      account operation on the amount the step uses. */
  lemma StepAccountOp(s: EngineState, t: Transaction) returns (op: Op, amount: Amount)
    requires Step(s, t).outcome.Pass?
    ensures var s0 := Touch(s, t.client);
      var a := s0.accounts[t.client];
      && Apply(a, op, amount).Ok?
      && Step(s, t).state.accounts == s0.accounts[t.client := Apply(a, op, amount).value]
      && (op == ChargebackOp <==> t.kind == Chargeback)
      && (t.kind == Deposit || t.kind == Withdrawal ==> amount == t.amount)
      && (t.kind == Dispute ==> t.tx in s.applied && amount == s.applied[t.tx])
      && (t.kind == Resolve || t.kind == Chargeback ==> t.tx in s.disputed && amount == s.disputed[t.tx])
  {
    match t.kind
    case Deposit => op, amount := DepositOp, t.amount;
    case Withdrawal => op, amount := WithdrawOp, t.amount;
    case Dispute => op, amount := DisputeOp, s.applied[t.tx];
    case Resolve => op, amount := ResolveOp, s.disputed[t.tx];
    case Chargeback => op, amount := ChargebackOp, s.disputed[t.tx];
  }

  lemma StepKeepsBalanced(s: EngineState, t: Transaction)
    requires AllBalanced(s)
    ensures AllBalanced(Step(s, t).state)
  {
    if Step(s, t).outcome.Pass? {
      var op, amount := StepAccountOp(s, t);
      ApplyPreservesInvariants(Touch(s, t.client).accounts[t.client], op, amount);
    }
  }

  /** Every stored account keeps the client id it is stored under. */
  lemma {:induction false} RunKeepsClientKeyed(s: EngineState, txs: seq<Transaction>)
    requires ClientKeyed(s)
    ensures ClientKeyed(Run(s, txs).state)
    decreases |txs|
  {
    if txs != [] {
      var n := |txs| - 1;
      RunKeepsClientKeyed(s, txs[..n]);
    }
  }
  /** Every account balanced with all three balances non-negative, and all applied
      and disputed amounts non-negative. */
  ghost predicate BalancedNonNegative(s: EngineState) {
    && (forall c | c in s.accounts :: s.accounts[c].Balanced() && s.accounts[c].NonNegative())
    && (forall tx | tx in s.applied :: s.applied[tx] >= 0.0)
    && (forall tx | tx in s.disputed :: s.disputed[tx] >= 0.0)
  }

  /** A deposit or withdrawal moves a non-negative amount; the other kinds take
      their amount from the applied or disputed map and ignore their own. */
  predicate MovesNonNegative(t: Transaction) {
    t.kind == Deposit || t.kind == Withdrawal ==> t.amount >= 0.0
  }

  lemma StepKeepsNonNegative(s: EngineState, t: Transaction)
    requires BalancedNonNegative(s) && MovesNonNegative(t)
    ensures BalancedNonNegative(Step(s, t).state)
  {
    if Step(s, t).outcome.Pass? {
      var op, amount := StepAccountOp(s, t);
      var a := Touch(s, t.client).accounts[t.client];
      ApplyPreservesInvariants(a, op, amount);
      ApplyKeepsNonNegative(a, op, amount);
    }
  }

  /** With non-negative deposit and withdrawal amounts, no run makes a balance
      or a stored amount negative. */
  lemma {:induction false} RunKeepsNonNegative(s: EngineState, txs: seq<Transaction>)
    requires BalancedNonNegative(s)
    requires forall i | 0 <= i < |txs| :: MovesNonNegative(txs[i])
    ensures BalancedNonNegative(Run(s, txs).state)
    decreases |txs|
  {
    if txs != [] {
      var n := |txs| - 1;
      RunKeepsNonNegative(s, txs[..n]);
      StepKeepsNonNegative(Run(s, txs[..n]).state, txs[n]);
    }
  }

  /** Applied transactions are never forgotten, and only applied transactions are
      ever under dispute. */
  lemma StepAppliedAndDisputed(s: EngineState, t: Transaction)
    ensures s.applied.Keys <= Step(s, t).state.applied.Keys
    ensures s.disputed.Keys <= s.applied.Keys ==> Step(s, t).state.disputed.Keys <= Step(s, t).state.applied.Keys
  {
  }

  lemma {:induction false} RunAppliedGrows(s: EngineState, txs: seq<Transaction>)
    ensures s.applied.Keys <= Run(s, txs).state.applied.Keys
    ensures s.disputed.Keys <= s.applied.Keys ==> Run(s, txs).state.disputed.Keys <= Run(s, txs).state.applied.Keys
    decreases |txs|
  {
    if txs != [] {
      var n := |txs| - 1;
      RunAppliedGrows(s, txs[..n]);
      StepAppliedAndDisputed(Run(s, txs[..n]).state, txs[n]);
    }
  }

  /** Only a successful chargeback sets `locked`, and nothing clears it. */
  lemma StepLocking(s: EngineState, t: Transaction)
    ensures var f := Step(s, t).state;
      forall c | c in f.accounts ::
        f.accounts[c].locked == ((c in s.accounts && s.accounts[c].locked) ||
                                 (c == t.client && t.kind == Chargeback && Step(s, t).outcome.Pass?))
  {
    if Step(s, t).outcome.Pass? {
      var op, amount := StepAccountOp(s, t);
      ApplyPreservesInvariants(Touch(s, t.client).accounts[t.client], op, amount);
    }
  }

  /** A locked account stays locked, and without a chargeback record nothing gets locked. */
  lemma {:induction false} RunLocking(s: EngineState, txs: seq<Transaction>)
    ensures var f := Run(s, txs).state;
      forall c | c in s.accounts && s.accounts[c].locked :: c in f.accounts && f.accounts[c].locked
    ensures (forall i | 0 <= i < |txs| :: txs[i].kind != Chargeback) ==>
      var f := Run(s, txs).state;
      forall c | c in f.accounts :: f.accounts[c].locked == (c in s.accounts && s.accounts[c].locked)
    decreases |txs|
  {
    if txs != [] {
      var n := |txs| - 1;
      RunLocking(s, txs[..n]);
      StepLocking(Run(s, txs[..n]).state, txs[n]);
    }
  }
}
