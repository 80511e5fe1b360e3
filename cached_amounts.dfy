/** The pending-amount tracker: a map from transaction id to amount. The engines
    keep two of them, one for applied and one for disputed transactions. */
module Cache {
  import opened Types

  class CachedAmounts {
    var data: map<TxId, Amount>

    constructor ()
      ensures data == map[]
    {
      data := map[];
    }

    /** Records `tx ↦ amount`, overwriting an earlier amount for the same tx. */
    method Add(tx: TxId, amount: Amount)
      modifies this
      ensures data == old(data)[tx := amount]
      ensures tx in data && data[tx] == amount
      ensures forall other | other != tx :: (other in data <==> other in old(data))
      ensures forall other | other != tx && other in data :: data[other] == old(data)[other]
    {
      data := data[tx := amount];
    }

    /** Forgets `tx`; forgetting an absent tx changes nothing. */
    method Remove(tx: TxId)
      modifies this
      ensures data == old(data) - {tx}
      ensures tx !in data
      ensures tx !in old(data) ==> data == old(data)
      ensures forall other | other != tx :: (other in data <==> other in old(data))
      ensures forall other | other != tx && other in data :: data[other] == old(data)[other]
    {
      data := data - {tx};
    }

    /** Looks `tx` up. It changes nothing (no modifies clause), so repeated calls agree. */
    method Get(tx: TxId) returns (r: Option<Amount>)
      ensures r.Some? <==> tx in data
      ensures r.Some? ==> r.value == data[tx]
    {
      if tx in data {
        r := Some(data[tx]);
      } else {
        r := None;
      }
    }
  }

  /** A freshly built tracker followed by `Add` then `Get` returns the amount added;
      after `Remove` the lookup misses. */
  method AddGetRemove(tx: TxId, first: Amount, second: Amount) returns (afterAdd: Option<Amount>, afterOverwrite: Option<Amount>, afterRemove: Option<Amount>)
    ensures afterAdd == Some(first)
    ensures afterOverwrite == Some(second)
    ensures afterRemove == None
  {
    var cache := new CachedAmounts();
    cache.Add(tx, first);
    afterAdd := cache.Get(tx);
    cache.Add(tx, second);
    afterOverwrite := cache.Get(tx);
    cache.Remove(tx);
    afterRemove := cache.Get(tx);
  }
}
