/** The account store: one Account per client id, created on first reference. */
module Repository {
  import opened Types
  import opened Accounts

  /** The value of every account held in `m`, by client. */
  ghost function Snapshot(m: map<ClientId, Account>): (s: map<ClientId, AccountState>)
    reads m.Values
    ensures s.Keys == m.Keys
  {
    map c | c in m :: m[c].Value()
  }

  /** Every stored account carries the client id it is stored under. Distinct keys
      therefore hold distinct Account objects. */
  ghost predicate KeyedByClient(m: map<ClientId, Account>)
    reads m.Values
  {
    forall c | c in m :: m[c].client == c
  }

  /** If every account but the one under `c` still has the value recorded in
      `before`, the snapshot differs from `before` at `c` only. */
  lemma SnapshotUpdate(m: map<ClientId, Account>, c: ClientId, before: map<ClientId, AccountState>)
    requires before.Keys == m.Keys && c in m
    requires forall k | k in m && k != c :: m[k].Value() == before[k]
    ensures Snapshot(m) == before[c := m[c].Value()]
  {
  }

  /** The clients of the records in `out`. */
  ghost function Clients(out: seq<AccountState>): set<ClientId>
  {
    set j | 0 <= j < |out| :: out[j].client
  }

  lemma ClientsSnoc(out: seq<AccountState>, r: AccountState)
    ensures Clients(out + [r]) == Clients(out) + {r.client}
  {
    var ext := out + [r];
    assert ext[|out|].client == r.client;
    forall x | x in Clients(ext) ensures x in Clients(out) + {r.client} {
      var j :| 0 <= j < |ext| && ext[j].client == x;
      if j < |out| { assert out[j].client == x; }
    }
    forall x | x in Clients(out) ensures x in Clients(ext) {
      var j :| 0 <= j < |out| && out[j].client == x;
      assert ext[j].client == x;
    }
  }

  /** `out` lists the accounts of `m` in some order, exactly one per client. */
  ghost predicate ListsExactly(out: seq<AccountState>, m: map<ClientId, AccountState>)
  {
    && |out| == |m|
    && Clients(out) == m.Keys
    && forall j | 0 <= j < |out| :: out[j].client in m && out[j] == m[out[j].client]
  }

  /** Two listings of the same accounts hold the same records (order may differ). */
  lemma ListsExactlySameRecords(out1: seq<AccountState>, out2: seq<AccountState>, m: map<ClientId, AccountState>)
    requires ListsExactly(out1, m) && ListsExactly(out2, m)
    ensures |out1| == |out2|
    ensures forall r :: r in out1 <==> r in out2
  {
    forall r | r in out1 ensures r in out2 {
      var j :| 0 <= j < |out1| && out1[j] == r;
      assert r.client in Clients(out2);
      var k :| 0 <= k < |out2| && out2[k].client == r.client;
    }
    forall r | r in out2 ensures r in out1 {
      var j :| 0 <= j < |out2| && out2[j] == r;
      assert r.client in Clients(out1);
      var k :| 0 <= k < |out1| && out1[k].client == r.client;
    }
  }

  /** Copies every account of `m` out, in whatever order the keys are picked
      (the source's hash-map iteration order is unspecified). */
  method Collect(m: map<ClientId, Account>) returns (out: seq<AccountState>)
    requires KeyedByClient(m)
    ensures ListsExactly(out, Snapshot(m))
  {
    out := [];
    var rest := m.Keys;
    while rest != {}
      invariant rest <= m.Keys
      invariant |out| + |rest| == |m|
      invariant Clients(out) == m.Keys - rest
      invariant forall j | 0 <= j < |out| :: out[j].client in m && out[j] == m[out[j].client].Value()
      decreases rest
    {
      var c :| c in rest;
      ClientsSnoc(out, m[c].Value());
      out := out + [m[c].Value()];
      rest := rest - {c};
    }
  }

  class AccountRepository {
    var data: map<ClientId, Account>

    ghost predicate Valid()
      reads this, data.Values
    {
      KeyedByClient(data)
    }

    /** The accounts held, by client. */
    ghost function Accounts(): map<ClientId, AccountState>
      reads this, data.Values
    {
      Snapshot(data)
    }

    constructor ()
      ensures Valid()
      ensures data == map[] && Accounts() == map[]
    {
      data := map[];
    }

    /** Returns the account of `client`, storing a fresh empty one if there is none.
        An existing account is handed back unchanged and no other entry changes. */
    method GetOrCreate(client: ClientId) returns (account: Account)
      requires Valid()
      modifies this
      ensures Valid()
      ensures client in data && account == data[client]
      ensures client in old(data) ==> data == old(data)
      ensures client !in old(data) ==> fresh(account) && data == old(data)[client := account]
      ensures Accounts() == old(Accounts())[client := if client in old(data) then old(Accounts())[client] else EmptyState(client)]
    {
      if client in data {
        account := data[client];
      } else {
        account := new Account.Empty(client);
        data := data[client := account];
      }
    }

    /** A copy of every stored account, one per client, in unspecified order. */
    method All() returns (accounts: seq<AccountState>)
      requires Valid()
      ensures ListsExactly(accounts, Accounts())
    {
      accounts := Collect(data);
    }
  }
}
