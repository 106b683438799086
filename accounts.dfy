/**
 * The per-player balance table that the exchange reads and updates. The
 * player record class itself is not part of this model; it is stood in for
 * by `User`, whose balance table is keyed by currency id.
 */
module Accounts {
  import opened Currencies

  /** The balance of `c` in a table; a currency with no entry yet reads as its start value. */
  function BalanceIn(balances: map<string, real>, c: Currency): real {
    if c.id in balances then balances[c.id] else c.startValue
  }

  /** The table after `delta` is added to the balance of `c`; every other entry is kept. */
  function Shifted(balances: map<string, real>, c: Currency, delta: real): (r: map<string, real>)
    ensures BalanceIn(r, c) == BalanceIn(balances, c) + delta
    ensures r.Keys == balances.Keys + {c.id}
    ensures forall id :: id in balances && id != c.id ==> r[id] == balances[id]
  {
    balances[c.id := BalanceIn(balances, c) + delta]
  }

  class User {
    const name: string
    var balances: map<string, real>

    constructor (name: string, balances: map<string, real>)
      ensures this.name == name && this.balances == balances
    {
      this.name := name;
      this.balances := balances;
    }

    function Balance(c: Currency): real
      reads this
    {
      BalanceIn(balances, c)
    }

    method AddBalance(c: Currency, amount: real)
      modifies this
      ensures balances == Shifted(old(balances), c, amount)
    {
      balances := balances[c.id := Balance(c) + amount];
    }

    method RemoveBalance(c: Currency, amount: real)
      modifies this
      ensures balances == Shifted(old(balances), c, -amount)
    {
      balances := balances[c.id := Balance(c) - amount];
    }
  }
}
