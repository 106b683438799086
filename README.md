# CoinsEngine currency manager, modelled in Dafny

This project models the currency manager of the CoinsEngine plugin
(`CurrencyManager.java`). The manager does three things:

- It keeps the **currency registry**, a map from currency id to currency record.
  - Registering a currency first unregisters any currency with the same id, then files the new one under its id.
  - A currency flagged as the Vault economy is bound to the Vault economy hook only when no currency with another id carries that flag. The same-id entry is removed first, so re-registering a flagged currency binds it again.
  - Lookup lower-cases the query.
  - `createCurrency` and `createDefaults` build new currency records with default settings.
- It runs the **exchange** of one currency into another for a player.
  - Six checks run in a fixed order. They send five distinct messages: the two checks on the rounded amounts share the low-amount message.
  - Only when every check passes is the source debited, the target credited, one save scheduled and the exchange logged.
- It keeps the **leaderboard cache**, a map from currency to a list of (name, balance) pairs in descending balance order.
  - The cache is rebuilt from a snapshot of the stored balances.
  - Two queries read it: the cached list and its total.

Modules:

- `Wrappers`: an `Option` type.
- `Text`: lower-casing of ids.
- `Currencies`: the currency record, `createCurrency` and `createDefaults`.
- `Accounts`: the player's balance table. It is keyed by currency id, and a missing entry reads as the currency's start value.
- `Exchanges`: the exchange decision `Assess` and its effect `Settle`.
- `Leaderboard`: the cache contents `Ranked` and the totals.
- `CurrencyManagement`: the class `CurrencyManager`. Its fields are `currencyMap`, `balanceMap` and `events`.

Calls into collaborators that are not part of this model are recorded in order in the `events` field. These are:

- provisioning the balance column;
- loading and unloading commands;
- Vault setup and shutdown;
- scheduling a save;
- the exchange audit log.

Helpers whose code is not part of this model are parameters of the operations that use them:

- rounding to a currency's precision (`fine`);
- the exchange rate;
- the upper-limit test;
- the descending sort of a player→balance map;
- id normalisation and display-name capitalisation;
- the blank record of a new configuration file.

Lemmas state only what the manager needs from these helpers, as hypotheses. For example, `SortsDescent` says the sort returns a descending listing of its input.

Three facts about the code that the model makes explicit:

- The registry does not enforce at most one Vault-flagged currency. `registerCurrency` files every currency (CurrencyManager.java:120); only the binding to the Vault hook is guarded, so two flagged currencies with different ids can both be registered; while one of them is registered, registering the other does not bind it (`VaultBindingRule`).
- There is no "top N" query: `getBalanceList` returns the whole cached list (`BalanceList`).
- Ids are filed as given but looked up lower-cased. `registerCurrency` files a currency under its id unchanged, while `getCurrency` lower-cases the query, so a currency whose id has an upper-case letter is registered but can never be found (`NotLowerCaseNeverQueried`).

## Model

| member | source | states |
|---|---|---|
| `Text.ToLowerCase` | src/main/java/su/nightexpress/coinsengine/currency/CurrencyManager.java:137-140 | the query key has the length of the query, contains no upper-case letter, and lower-cases each character of the query |
| `Text.LowerCaseIsFixed` | src/main/java/su/nightexpress/coinsengine/currency/CurrencyManager.java:137-140 | a lower-case id is its own lookup key, so a currency filed under it is found by its own id |
| `Text.ToLowerCaseIdempotent` | src/main/java/su/nightexpress/coinsengine/currency/CurrencyManager.java:137-140 | lower-casing a query twice gives the same key as lower-casing it once |
| `Text.NotLowerCaseNeverQueried` | src/main/java/su/nightexpress/coinsengine/currency/CurrencyManager.java:120-140 | no query is ever turned into a key that has an upper-case letter, so a currency filed under such an id is out of reach of `getCurrency` |
| `Currencies.Prepared` | src/main/java/su/nightexpress/coinsengine/currency/CurrencyManager.java:162-171 | before the callback runs, the new record has the normalised id, the alias list [id], no permission requirement, transfer and exchange allowed, start value 0 and max value -1; symbol, decimal and Vault flag keep the blank record's values |
| `Currencies.CreateCurrency` | src/main/java/su/nightexpress/coinsengine/currency/CurrencyManager.java:157-176 | nothing is created (false) exactly when the normalised id is empty; otherwise the result is the callback applied to the defaulted record (true) |
| `Currencies.CreateDefaults` | src/main/java/su/nightexpress/coinsengine/currency/CurrencyManager.java:58-74 | nothing when the currency directory exists; otherwise "coins" (whole units) then "money" (decimal, Vault economy), both permissive and unlimited; at most one is Vault-flagged when the blank record is not |
| `Accounts.Shifted` | src/main/java/su/nightexpress/coinsengine/currency/CurrencyManager.java:224-225 | changing one currency's balance by a delta moves exactly that balance by the delta and keeps every other entry |
| `Accounts.User.AddBalance` | src/main/java/su/nightexpress/coinsengine/currency/CurrencyManager.java:225 | the target's balance grows by the amount, nothing else changes |
| `Accounts.User.RemoveBalance` | src/main/java/su/nightexpress/coinsengine/currency/CurrencyManager.java:224 | the source's balance shrinks by the amount, nothing else changes |
| `Exchanges.Assess` | src/main/java/su/nightexpress/coinsengine/currency/CurrencyManager.java:178-222 | the six rejections in order (disabled; balance below the unrounded amount; rate ≤ 0; rounded amount ≤ 0; rounded result ≤ 0; target over its limit), each exactly when all earlier checks pass and its own fails; approval exactly when all pass, with debit `fine(from, amount)` and credit `fine(to, debit * rate)` |
| `Exchanges.Settle` | src/main/java/su/nightexpress/coinsengine/currency/CurrencyManager.java:224-225 | after approval the source loses exactly the debit and the target gains exactly the credit (one net change when both share an id); every other currency's balance is untouched |
| `Exchanges.ApprovedDebitWithinBalance` | src/main/java/su/nightexpress/coinsengine/currency/CurrencyManager.java:185-204 | with monotonic rounding and a stored balance already at the currency's precision, an approved exchange never debits more than the balance, although the check uses the unrounded amount |
| `Exchanges.RoundTripNeverGains` | src/main/java/su/nightexpress/coinsengine/currency/CurrencyManager.java:193-213 | exchanging there and back at reciprocal rates returns at most the original amount when rounding never raises a positive amount |
| `Exchanges.MoneyToCoinsExample` | src/main/java/su/nightexpress/coinsengine/currency/CurrencyManager.java:185-225 | worked case: from 10 money and 0 coins, exchanging 4 money at rate 2 is approved and leaves 6 money and 8 coins; asking for 11 money is refused for low balance |
| `Leaderboard.ListingSum` | src/main/java/su/nightexpress/coinsengine/currency/CurrencyManager.java:86-88 | any list holding exactly a snapshot's (name, balance) pairs sums to the snapshot's total, whatever its order |
| `Leaderboard.RankedFromSnapshot` | src/main/java/su/nightexpress/coinsengine/currency/CurrencyManager.java:90-100 | with a sort that returns a descending listing, a rebuilt currency has an entry exactly when its snapshot has a player, the entry is the snapshot's pairs in descending order, and its total is the snapshot's total |
| `CurrencyManagement.VaultBindingRule` | src/main/java/su/nightexpress/coinsengine/currency/CurrencyManager.java:103-118 | a registered currency is bound to the Vault hook exactly when it is flagged, Vault is installed and no currency with another id is flagged |
| `CurrencyManagement.CurrencyManager.constructor` | src/main/java/su/nightexpress/coinsengine/currency/CurrencyManager.java:30-34 | the manager starts with an empty registry, an empty cache and no collaborator calls |
| `CurrencyManagement.CurrencyManager.GetCurrency` | src/main/java/su/nightexpress/coinsengine/currency/CurrencyManager.java:137-140 | found exactly when the lower-cased query is a registered id, and then the result is the currency with that id |
| `CurrencyManagement.CurrencyManager.GetVaultCurrency` | src/main/java/su/nightexpress/coinsengine/currency/CurrencyManager.java:147-150 | a registered Vault-flagged currency, and nothing exactly when no registered currency is flagged |
| `CurrencyManagement.CurrencyManager.UnregisterCurrency` | src/main/java/su/nightexpress/coinsengine/currency/CurrencyManager.java:128-135 | true exactly when the id was registered; afterwards the id is absent and every other entry is kept; when false nothing changes; the main command is unloaded only when something was removed |
| `CurrencyManagement.CurrencyManager.UnregisterCurrencyOf` | src/main/java/su/nightexpress/coinsengine/currency/CurrencyManager.java:124-126 | unregistering a currency is unregistering its id |
| `CurrencyManagement.CurrencyManager.RegisterCurrency` | src/main/java/su/nightexpress/coinsengine/currency/CurrencyManager.java:102-122 | afterwards the id maps to the new currency and every other id keeps its currency; the prior same-id currency is unregistered first; column and commands are provisioned; Vault binding follows `VaultBindingRule`; a lower-case id is then found by `GetCurrency` |
| `CurrencyManagement.CurrencyManager.Shutdown` | src/main/java/su/nightexpress/coinsengine/currency/CurrencyManager.java:50-56 | the Vault hook is shut down when Vault is installed, and the registry is emptied |
| `CurrencyManagement.CurrencyManager.BalanceList` | src/main/java/su/nightexpress/coinsengine/currency/CurrencyManager.java:81-84 | the cached list of the currency, or the empty list when it has no entry |
| `CurrencyManagement.CurrencyManager.TotalBalance` | src/main/java/su/nightexpress/coinsengine/currency/CurrencyManager.java:86-88 | the sum of the balances of the cached list, 0 when the currency has no entry |
| `CurrencyManagement.CurrencyManager.UpdateBalances` | src/main/java/su/nightexpress/coinsengine/currency/CurrencyManager.java:90-100 | the old cache is discarded and the new one is exactly `Ranked(snapshot)`; with a sort that keeps its promise, each list is the snapshot's pairs in descending order, empty snapshots get no entry, and each total equals the snapshot's total |
| `CurrencyManagement.CurrencyManager.Exchange` | src/main/java/su/nightexpress/coinsengine/currency/CurrencyManager.java:178-236 | returns true exactly when `Assess` approves; on any rejection the balances are unchanged and nothing is scheduled or logged; on approval the balances become `Settle`'s, exactly one save is scheduled, the exchange is logged, and the player gets exactly one message |

## Left out

- Configuration files are not part of this model. This covers `onLoad`'s scan of the currency directory, loading and saving `ConfigCurrency`, the directory check of `createDefaults` (a parameter here) and the save in `createCurrency`.
- The periodic asynchronous task that calls `updateBalances` is not part of this model. Neither is the concurrent map: the clear-and-refill is modelled as one sequential operation.
- The Vault hook, command registration, the data store's column creation and the audit logger are outside the model. They appear only as entries of `events`.
- Info and error log lines are not recorded, except the missing-Vault error.
- Chat messages are reduced to the message key that `Exchange` returns.
- The icon and the display formats of a currency are not modelled. The placeholder strings they are built from are not part of this model.
- The player record, the user manager and resolving a player to a user are not part of this model. `Exchange` takes the user directly.
- `getBalanceMap` and `getCurrencyMap` only return a field, and `getCurrencies` returns a live view of the registry's values. The model reads the fields directly; the aliasing between the view and the map is not modelled.
- `double` arithmetic is modelled as exact `real` arithmetic: rounding error and summation order are not modelled, and neither are NaN and the infinities. With a NaN amount the source's comparisons against the balance, the rounded amount and the rounded result are all false, so those three rejections never fire; the model has no such value.
- Accounts.User.RemoveBalance: subtracts the amount exactly. The clamping at zero and at the maximum, and the rounding, that the player record may apply are not modelled, because its code is not part of this model.
- Accounts.User.AddBalance: adds the amount exactly, for the same reason.
- Text.ToLowerCase: lower-cases only the ASCII letters A-Z. Java's locale- and Unicode-aware case mapping is not modelled.
- CurrencyManagement.CurrencyManager.RegisterCurrency: requires a non-empty command alias list. With an empty list the source's unregister indexes the first alias and throws after the removal; that exception path is not modelled.
- CurrencyManagement.CurrencyManager.GetVaultCurrency: returns some flagged currency. Which one the hash map's iteration order yields when several are flagged is not modelled.
- The command class for taking balance is not part of this model: it parses arguments and makes one balance removal. The static API class is not part of this model either: it only delegates to the managers.
