/**
 * The currency record and the creation of new currency configurations
 * (`createCurrency` and `createDefaults` of the currency manager).
 */
module Currencies {
  import opened Wrappers

  /**
   * One configured currency. `maxValue == -1` means unlimited. The display
   * formats and the icon are not part of this model.
   */
  datatype Currency = Currency(
    id: string,
    name: string,
    symbol: string,
    commandAliases: seq<string>,
    decimal: bool,
    vaultEconomy: bool,
    permissionRequired: bool,
    transferAllowed: bool,
    exchangeAllowed: bool,
    startValue: real,
    maxValue: real)

  /**
   * The record `createCurrency` hands to its configuring callback: the blank
   * record of a fresh configuration whose id is taken from its file name,
   * with the creation defaults written over it. Fields that are not set keep
   * the blank record's values.
   */
  function Prepared(blank: Currency, id: string, name: string): (c: Currency)
    ensures c.id == id && c.name == name && c.commandAliases == [id]
    ensures !c.permissionRequired && c.transferAllowed && c.exchangeAllowed
    ensures c.startValue == 0.0 && c.maxValue == -1.0
    ensures c.symbol == blank.symbol && c.decimal == blank.decimal && c.vaultEconomy == blank.vaultEconomy
  {
    blank.(id := id, name := name, commandAliases := [id],
           permissionRequired := false, transferAllowed := true,
           startValue := 0.0, maxValue := -1.0, exchangeAllowed := true)
  }

  /**
   * `createCurrency`: the id is normalised first; an empty normalised id
   * creates nothing (`createCurrency` returns false). Otherwise the defaults are
   * applied, then the callback, and the configured record is the one saved
   * (`createCurrency` returns true). `normalize` is the id normaliser and
   * `capitalize` the display-name builder of the utility library.
   */
  function CreateCurrency(rawId: string, blank: Currency,
                          normalize: string -> string, capitalize: string -> string,
                          configure: Currency -> Currency): (r: Option<Currency>)
    ensures r.None? <==> normalize(rawId) == []
    ensures r.Some? ==> r.value == configure(Prepared(blank, normalize(rawId), capitalize(normalize(rawId))))
  {
    var id := normalize(rawId);
    if id == [] then None
    else Some(configure(Prepared(blank, id, capitalize(id))))
  }

  const CoinsSymbol: string := "\U{26C2}"
  const MoneySymbol: string := "$"

  /** The callback `createDefaults` passes for "coins": whole units only. */
  function ConfigureCoins(c: Currency): Currency {
    c.(symbol := CoinsSymbol, decimal := false)
  }

  /** The callback `createDefaults` passes for "money": decimal, the Vault economy. */
  function ConfigureMoney(c: Currency): Currency {
    c.(symbol := MoneySymbol, decimal := true, vaultEconomy := true)
  }

  function Created(r: Option<Currency>): seq<Currency> {
    if r.Some? then [r.value] else []
  }

  /**
   * `createDefaults`: nothing when the currency directory already exists;
   * otherwise the "coins" and the "money" currency, in that order.
   */
  function CreateDefaults(dirExists: bool, blank: Currency,
                          normalize: string -> string, capitalize: string -> string): (r: seq<Currency>)
    ensures dirExists ==> r == []
    ensures |r| <= 2
    ensures forall c :: c in r ==>
              c.startValue == 0.0 && c.maxValue == -1.0 && c.transferAllowed
              && c.exchangeAllowed && !c.permissionRequired && c.commandAliases == [c.id] && c.id != []
    ensures !dirExists && normalize("coins") != [] && normalize("money") != [] ==>
              |r| == 2 && r[0].id == normalize("coins") && r[1].id == normalize("money")
              && !r[0].decimal && r[1].decimal && r[1].vaultEconomy && r[0].vaultEconomy == blank.vaultEconomy
    ensures !blank.vaultEconomy ==>
              forall i, j :: 0 <= i < j < |r| ==> !(r[i].vaultEconomy && r[j].vaultEconomy)
  {
    if dirExists then []
    else
      Created(CreateCurrency("coins", blank, normalize, capitalize, ConfigureCoins))
      + Created(CreateCurrency("money", blank, normalize, capitalize, ConfigureMoney))
  }
}
