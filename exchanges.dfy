/**
 * The decision part of `exchange`: six checks in a fixed order, which send
 * five distinct messages (the two rounded-amount checks share `LowAmount`),
 * and the balance change applied when all of them pass. The rounding of an amount to a currency's precision, the
 * exchange rate between two currencies and the upper-limit test belong to
 * the currency record and are parameters here.
 */
module Exchanges {
  import opened Currencies
  import opened Accounts

  /** Rounds an amount to the currency's precision (`Currency.fine`). */
  type Fine = (Currency, real) -> real
  /** The rate from the first currency to the second (`Currency.getExchangeRate`). */
  type RateOf = (Currency, Currency) -> real
  /** Whether a balance is within the currency's limit (`Currency.isUnderLimit`). */
  type UnderLimit = (Currency, real) -> bool

  /** The message the player is sent, one per exchange. */
  datatype ExchangeMessage = Disabled | LowBalance | NoRate | LowAmount | LimitExceeded | Done

  datatype Verdict = Reject(message: ExchangeMessage) | Approve(debit: real, credit: real)

  /** The amount taken from the source currency: the requested amount at its precision. */
  function Debit(from: Currency, amount: real, fine: Fine): real {
    fine(from, amount)
  }

  /** An amount converted at a rate, before rounding. */
  function Converted(amount: real, rate: real): real {
    amount * rate
  }

  /** The amount given in the target currency: the debit at the rate, at the target's precision. */
  function Credit(from: Currency, to: Currency, amount: real, fine: Fine, rateOf: RateOf): real {
    fine(to, Converted(Debit(from, amount, fine), rateOf(from, to)))
  }

  /**
   * The outcome of exchanging `amount` of `from` into `to` for a player
   * whose balance table is `balances`. Each rejection holds exactly when
   * every earlier check passed and its own check fails; the balance test
   * uses the amount as given, before rounding.
   */
  function Assess(balances: map<string, real>, from: Currency, to: Currency, amount: real,
                  fine: Fine, rateOf: RateOf, underLimit: UnderLimit): (v: Verdict)
    ensures v.Reject? ==> v.message != Done
    ensures v == Reject(Disabled) <==> !from.exchangeAllowed
    ensures v == Reject(LowBalance) <==> from.exchangeAllowed && BalanceIn(balances, from) < amount
    ensures v == Reject(NoRate) <==>
              from.exchangeAllowed && BalanceIn(balances, from) >= amount && rateOf(from, to) <= 0.0
    ensures var debit := Debit(from, amount, fine); var credit := Credit(from, to, amount, fine, rateOf);
            && (v == Reject(LowAmount) <==>
                  from.exchangeAllowed && BalanceIn(balances, from) >= amount && rateOf(from, to) > 0.0
                  && (debit <= 0.0 || credit <= 0.0))
            && (v == Reject(LimitExceeded) <==>
                  from.exchangeAllowed && BalanceIn(balances, from) >= amount && rateOf(from, to) > 0.0
                  && debit > 0.0 && credit > 0.0 && !underLimit(to, BalanceIn(balances, to) + credit))
            && (v.Approve? <==>
                  from.exchangeAllowed && BalanceIn(balances, from) >= amount && rateOf(from, to) > 0.0
                  && debit > 0.0 && credit > 0.0 && underLimit(to, BalanceIn(balances, to) + credit))
            && (v.Approve? ==> v.debit == debit && v.credit == credit)
  {
    if !from.exchangeAllowed then Reject(Disabled)
    else if BalanceIn(balances, from) < amount then Reject(LowBalance)
    else if rateOf(from, to) <= 0.0 then Reject(NoRate)
    else if Debit(from, amount, fine) <= 0.0 then Reject(LowAmount)
    else if Credit(from, to, amount, fine, rateOf) <= 0.0 then Reject(LowAmount)
    else if !underLimit(to, BalanceIn(balances, to) + Credit(from, to, amount, fine, rateOf))
    then Reject(LimitExceeded)
    else Approve(Debit(from, amount, fine), Credit(from, to, amount, fine, rateOf))
  }

  /**
   * The balance table after an approved exchange: the debit is removed from
   * `from`, then the credit is added to `to`. When both currencies share an
   * id the two changes land on the same entry.
   */
  function Settle(balances: map<string, real>, from: Currency, to: Currency, v: Verdict): (r: map<string, real>)
    requires v.Approve?
    ensures from.id != to.id ==>
              BalanceIn(r, from) == BalanceIn(balances, from) - v.debit
              && BalanceIn(r, to) == BalanceIn(balances, to) + v.credit
    ensures from.id == to.id ==> BalanceIn(r, to) == BalanceIn(balances, from) - v.debit + v.credit
    ensures r.Keys == balances.Keys + {from.id, to.id}
    ensures forall id :: id in balances && id != from.id && id != to.id ==> r[id] == balances[id]
  {
    Shifted(Shifted(balances, from, -v.debit), to, v.credit)
  }

  /**
   * No overdraft: when rounding to the source currency's precision is
   * monotonic and the stored balance is already at that precision, an
   * approved exchange never debits more than the player holds, although the
   * balance check looks at the unrounded amount.
   */
  lemma ApprovedDebitWithinBalance(balances: map<string, real>, from: Currency, to: Currency, amount: real,
                                   fine: Fine, rateOf: RateOf, underLimit: UnderLimit)
    requires forall x: real, y: real :: x <= y ==> fine(from, x) <= fine(from, y)
    requires fine(from, BalanceIn(balances, from)) == BalanceIn(balances, from)
    ensures var v := Assess(balances, from, to, amount, fine, rateOf, underLimit);
            v.Approve? ==> v.debit <= BalanceIn(balances, from)
  {
    var v := Assess(balances, from, to, amount, fine, rateOf, underLimit);
    if v.Approve? {
      assert fine(from, amount) <= fine(from, BalanceIn(balances, from));
    }
  }

  /**
   * Exchanging there and back at reciprocal rates never yields more than
   * was put in, as long as rounding never raises a positive amount.
   */
  lemma RoundTripNeverGains(there: map<string, real>, back: map<string, real>, a: Currency, b: Currency,
                            amount: real, fine: Fine, rateOf: RateOf, underLimit: UnderLimit)
    requires forall c: Currency, x: real :: fine(c, x) > 0.0 ==> fine(c, x) <= x
    requires rateOf(a, b) * rateOf(b, a) == 1.0
    requires Assess(there, a, b, amount, fine, rateOf, underLimit).Approve?
    requires Assess(back, b, a, Assess(there, a, b, amount, fine, rateOf, underLimit).credit,
                    fine, rateOf, underLimit).Approve?
    ensures Assess(back, b, a, Assess(there, a, b, amount, fine, rateOf, underLimit).credit,
                   fine, rateOf, underLimit).credit <= amount
  {
    var v1 := Assess(there, a, b, amount, fine, rateOf, underLimit);
    var v2 := Assess(back, b, a, v1.credit, fine, rateOf, underLimit);
    var r1, r2 := rateOf(a, b), rateOf(b, a);
    calc {
      v2.credit;
    <= v2.debit * r2;
    <= { ScaleMonotone(v2.debit, v1.credit, r2); }
      v1.credit * r2;
    <= { ScaleMonotone(v1.credit, v1.debit * r1, r2); }
      v1.debit * r1 * r2;
    == v1.debit * (r1 * r2);
    == { assert r1 * r2 == 1.0; }
      v1.debit * 1.0;
    == v1.debit;
    <= amount;
    }
  }

  /**
   * A worked case: 4 money at rate 2 into whole-unit coins, from 10 money
   * and 0 coins, leaves 6 money and 8 coins; asking for 11 money is refused
   * for low balance and changes nothing.
   */
  lemma MoneyToCoinsExample(money: Currency, coins: Currency)
    requires money.id == "money" && coins.id == "coins" && money.exchangeAllowed
    ensures var wallet := map["money" := 10.0, "coins" := 0.0];
            var fine := (c: Currency, x: real) => x;
            var rateOf := (a: Currency, b: Currency) => 2.0;
            var underLimit := (c: Currency, x: real) => true;
            && Assess(wallet, money, coins, 4.0, fine, rateOf, underLimit) == Approve(4.0, 8.0)
            && Settle(wallet, money, coins, Approve(4.0, 8.0)) == map["money" := 6.0, "coins" := 8.0]
            && Assess(wallet, money, coins, 11.0, fine, rateOf, underLimit) == Reject(LowBalance)
  {
    var wallet := map["money" := 10.0, "coins" := 0.0];
    assert BalanceIn(wallet, money) == 10.0;
    assert BalanceIn(wallet, coins) == 0.0;
    assert Settle(wallet, money, coins, Approve(4.0, 8.0)) == wallet["money" := 6.0]["coins" := 8.0];
  }

  lemma ScaleMonotone(x: real, y: real, k: real)
    requires x <= y && k > 0.0
    ensures x * k <= y * k
  {
  }
}
