/**
 * The currency manager: the registry of currencies by id, the leaderboard
 * cache, and the exchange of one currency into another for a player. Calls
 * into collaborators that are not part of this model (the data store, the
 * command layer, the Vault economy hook, the save scheduler, the audit log)
 * are recorded, in order, in `events`.
 */
module CurrencyManagement {
  import opened Wrappers
  import opened Text
  import opened Currencies
  import opened Accounts
  import opened Exchanges
  import opened Leaderboard

  datatype Event =
    | ColumnCreated(id: string)            // balance column provisioned in the data store
    | CommandsLoaded(id: string)           // per-currency commands registered
    | VaultSetup(id: string)               // currency bound to the Vault economy hook
    | EconomyCommandsLoaded(id: string)    // economy command shortcuts registered
    | VaultMissing                         // Vault currency found but Vault is not installed
    | CommandUnregistered(alias: string)   // the currency's main command removed
    | VaultShutdown                        // Vault economy hook shut down
    | SaveScheduled(user: string)          // batched save of the player requested
    | ExchangeLogged(user: string, from: string, to: string, amount: real, result: real)

  /** Some registered currency is flagged as the Vault economy. */
  predicate HasVaultCurrency(currencies: map<string, Currency>) {
    exists id :: id in currencies && currencies[id].vaultEconomy
  }

  /** Every currency is filed under its own id and has a main command alias. */
  predicate WellFiled(currencies: map<string, Currency>) {
    forall id :: id in currencies ==> currencies[id].id == id && currencies[id].commandAliases != []
  }

  /** What `unregisterCurrency(id)` does outside the map: drop the main command, if the id was there. */
  function UnregisterEffects(currencies: map<string, Currency>, id: string): seq<Event>
    requires WellFiled(currencies)
  {
    if id in currencies then [CommandUnregistered(currencies[id].commandAliases[0])] else []
  }

  /**
   * What `registerCurrency(c)` does about the Vault economy, given the
   * registry left after the removal of `c.id`: a Vault-flagged currency is
   * bound only when no registered currency carries the flag.
   */
  function VaultEffects(remaining: map<string, Currency>, c: Currency,
                        vaultInstalled: bool, economyShortcuts: bool): seq<Event>
  {
    if c.vaultEconomy && !HasVaultCurrency(remaining) then
      if vaultInstalled then
        [VaultSetup(c.id)] + (if economyShortcuts then [EconomyCommandsLoaded(c.id)] else [])
      else [VaultMissing]
    else []
  }

  /**
   * A currency is bound to the Vault economy exactly when it is flagged,
   * Vault is installed and no currency with another id is flagged; in
   * particular a second flagged currency with a different id is never bound.
   */
  lemma VaultBindingRule(currencies: map<string, Currency>, c: Currency,
                         vaultInstalled: bool, economyShortcuts: bool)
    ensures VaultSetup(c.id) in VaultEffects(currencies - {c.id}, c, vaultInstalled, economyShortcuts)
            <==> c.vaultEconomy && vaultInstalled
                 && forall id :: id in currencies && id != c.id ==> !currencies[id].vaultEconomy
  {
    var effects := VaultEffects(currencies - {c.id}, c, vaultInstalled, economyShortcuts);
    if !(forall id :: id in currencies && id != c.id ==> !currencies[id].vaultEconomy) {
      var id :| id in currencies && id != c.id && currencies[id].vaultEconomy;
      assert id in currencies - {c.id};
    }
    if effects != [] {
      assert effects[0] == VaultSetup(c.id) || effects == [VaultMissing];
    }
  }

  class CurrencyManager {
    var currencyMap: map<string, Currency>
    var balanceMap: map<Currency, seq<Entry>>
    var events: seq<Event>

    ghost predicate Valid()
      reads this
    {
      WellFiled(currencyMap)
    }

    constructor ()
      ensures Valid()
      ensures currencyMap == map[] && balanceMap == map[] && events == []
    {
      currencyMap := map[];
      balanceMap := map[];
      events := [];
    }

    /** `getCurrency`: the query is lower-cased before the lookup. */
    function GetCurrency(id: string): (r: Option<Currency>)
      reads this
      requires Valid()
      ensures r.Some? <==> ToLowerCase(id) in currencyMap
      ensures r.Some? ==> r.value == currencyMap[ToLowerCase(id)] && r.value.id == ToLowerCase(id)
    {
      var key := ToLowerCase(id);
      if key in currencyMap then Some(currencyMap[key]) else None
    }

    /** `getVaultCurrency`: some registered currency flagged as the Vault economy, if there is one. */
    method GetVaultCurrency() returns (r: Option<Currency>)
      ensures r.Some? ==> r.value in currencyMap.Values && r.value.vaultEconomy
      ensures r.None? <==> !HasVaultCurrency(currencyMap)
    {
      if HasVaultCurrency(currencyMap) {
        var id :| id in currencyMap && currencyMap[id].vaultEconomy;
        r := Some(currencyMap[id]);
      } else {
        r := None;
      }
    }

    /** `unregisterCurrency(id)`: reports whether the id was registered; afterwards it is not. */
    method UnregisterCurrency(id: string) returns (removed: bool)
      requires Valid()
      modifies this`currencyMap, this`events
      ensures Valid()
      ensures removed <==> id in old(currencyMap)
      ensures currencyMap == old(currencyMap) - {id}
      ensures !removed ==> currencyMap == old(currencyMap)
      ensures events == old(events) + UnregisterEffects(old(currencyMap), id)
    {
      if id !in currencyMap {
        return false;
      }
      var currency := currencyMap[id];
      currencyMap := currencyMap - {id};
      events := events + [CommandUnregistered(currency.commandAliases[0])];
      return true;
    }

    /** `unregisterCurrency(currency)`: unregisters by the currency's id. */
    method UnregisterCurrencyOf(c: Currency) returns (removed: bool)
      requires Valid()
      modifies this`currencyMap, this`events
      ensures Valid()
      ensures removed <==> c.id in old(currencyMap)
      ensures currencyMap == old(currencyMap) - {c.id}
      ensures events == old(events) + UnregisterEffects(old(currencyMap), c.id)
    {
      removed := UnregisterCurrency(c.id);
    }

    /**
     * `registerCurrency(c)`: any currency with the same id is unregistered
     * first, then `c` is filed under its id, so the later registration wins
     * and no id is ever filed twice. `vaultInstalled` and `economyShortcuts`
     * are whether Vault is present and whether economy shortcuts are
     * configured.
     */
    method RegisterCurrency(c: Currency, vaultInstalled: bool, economyShortcuts: bool)
      requires Valid()
      requires c.commandAliases != []
      modifies this`currencyMap, this`events
      ensures Valid()
      ensures currencyMap == old(currencyMap)[c.id := c]
      ensures events == old(events) + UnregisterEffects(old(currencyMap), c.id)
                        + [ColumnCreated(c.id), CommandsLoaded(c.id)]
                        + VaultEffects(old(currencyMap) - {c.id}, c, vaultInstalled, economyShortcuts)
      ensures IsLowerCase(c.id) ==> GetCurrency(c.id) == Some(c)
    {
      var _ := UnregisterCurrencyOf(c);
      events := events + [ColumnCreated(c.id), CommandsLoaded(c.id)];
      if c.vaultEconomy {
        var vault := GetVaultCurrency();
        if vault.None? {
          if vaultInstalled {
            events := events + [VaultSetup(c.id)];
            if economyShortcuts {
              events := events + [EconomyCommandsLoaded(c.id)];
            }
          } else {
            events := events + [VaultMissing];
          }
        }
      }
      currencyMap := currencyMap[c.id := c];
      if IsLowerCase(c.id) {
        LowerCaseIsFixed(c.id);
      }
    }

    /** `onShutdown`: the Vault hook is shut down when Vault is present, and the registry emptied. */
    method Shutdown(vaultInstalled: bool)
      modifies this`currencyMap, this`events
      ensures Valid()
      ensures currencyMap == map[]
      ensures events == old(events) + (if vaultInstalled then [VaultShutdown] else [])
    {
      if vaultInstalled {
        events := events + [VaultShutdown];
      }
      currencyMap := map[];
    }

    /** `getBalanceList`: a copy of the cached list of the currency, or an empty list. */
    function BalanceList(c: Currency): (r: seq<Entry>)
      reads this
      ensures c in balanceMap ==> r == balanceMap[c]
      ensures c !in balanceMap ==> r == []
    {
      if c in balanceMap then balanceMap[c] else []
    }

    /** `getTotalBalance`: the sum of the balances of the cached list; 0 when there is none. */
    function TotalBalance(c: Currency): (r: real)
      reads this
      ensures c !in balanceMap ==> r == 0.0
      ensures r == SumBalances(BalanceList(c))
    {
      SumBalances(BalanceList(c))
    }

    /**
     * `updateBalances`: the cache is cleared, then for each currency of the
     * snapshot the sorted pairs are appended one by one to its list, the
     * list being created on the first append.
     */
    method UpdateBalances(snapshot: map<Currency, map<string, real>>,
                          sort: map<string, real> -> seq<Entry>)
      modifies this`balanceMap
      ensures balanceMap == Ranked(snapshot, sort)
      ensures SortsDescent(sort) ==>
                forall c :: c in snapshot ==>
                  && (c in balanceMap <==> snapshot[c] != map[])
                  && (c in balanceMap ==> Descending(balanceMap[c]) && Lists(balanceMap[c], snapshot[c]))
                  && TotalBalance(c) == MapTotal(snapshot[c])
    {
      balanceMap := map[];
      var pending := snapshot.Keys;
      while pending != {}
        invariant pending <= snapshot.Keys
        invariant forall d :: d in balanceMap ==> d in snapshot && d !in pending
        invariant forall d :: d in snapshot && d !in pending ==>
                    (d in balanceMap <==> sort(snapshot[d]) != [])
                    && (d in balanceMap ==> balanceMap[d] == sort(snapshot[d]))
        decreases |pending|
      {
        var c :| c in pending;
        var listed := sort(snapshot[c]);
        ghost var before := balanceMap;
        var i := 0;
        while i < |listed|
          invariant 0 <= i <= |listed|
          invariant i == 0 ==> balanceMap == before
          invariant i > 0 ==> balanceMap == before[c := listed[..i]]
          invariant c !in before
        {
          if c !in balanceMap {
            balanceMap := balanceMap[c := []];
          }
          assert balanceMap[c] + [listed[i]] == listed[..i + 1];
          balanceMap := balanceMap[c := balanceMap[c] + [listed[i]]];
          i := i + 1;
        }
        assert listed[..|listed|] == listed;
        pending := pending - {c};
      }
      assert balanceMap == Ranked(snapshot, sort);
      if SortsDescent(sort) {
        forall c | c in snapshot
          ensures (c in balanceMap <==> snapshot[c] != map[])
          ensures c in balanceMap ==> Descending(balanceMap[c]) && Lists(balanceMap[c], snapshot[c])
          ensures TotalBalance(c) == MapTotal(snapshot[c])
        {
          RankedFromSnapshot(snapshot, sort, c);
        }
      }
    }

    /**
     * `exchange`: `amount` of `from` into `to` for `user`. Every rejection
     * happens before anything is touched: the balances stay as they were and
     * nothing is scheduled or logged. On success the debit and the credit of
     * `Assess` are applied, one save is scheduled and the exchange is logged.
     */
    method Exchange(user: User, from: Currency, to: Currency, amount: real,
                    fine: Fine, rateOf: RateOf, underLimit: UnderLimit)
      returns (ok: bool, message: ExchangeMessage)
      modifies user, this`events
      ensures var v := Assess(old(user.balances), from, to, amount, fine, rateOf, underLimit);
              && ok == v.Approve?
              && message == (if v.Approve? then Done else v.message)
              && user.balances == (if v.Approve? then Settle(old(user.balances), from, to, v) else old(user.balances))
              && events == old(events) + (if v.Approve?
                                          then [SaveScheduled(user.name),
                                                ExchangeLogged(user.name, from.id, to.id, v.debit, v.credit)]
                                          else [])
    {
      if !from.exchangeAllowed {
        return false, Disabled;
      }
      if user.Balance(from) < amount {
        return false, LowBalance;
      }
      var rate := rateOf(from, to);
      if rate <= 0.0 {
        return false, NoRate;
      }
      var fined := fine(from, amount);
      if fined <= 0.0 {
        return false, LowAmount;
      }
      var result := fine(to, Converted(fined, rate));
      if result <= 0.0 {
        return false, LowAmount;
      }
      var has := user.Balance(to) + result;
      if !underLimit(to, has) {
        return false, LimitExceeded;
      }
      user.RemoveBalance(from, fined);
      user.AddBalance(to, result);
      events := events + [SaveScheduled(user.name)];
      events := events + [ExchangeLogged(user.name, from.id, to.id, fined, result)];
      return true, Done;
    }
  }
}
