/**
 * The leaderboard cache: for each currency, the players' (name, balance)
 * pairs in descending balance order, rebuilt from a snapshot of the stored
 * balances. The sorting routine of the utility library is a parameter; what
 * the cache is built from it is `Ranked`.
 */
module Leaderboard {
  import opened Currencies

  /** One (name, balance) pair of the cache. */
  datatype Entry = Entry(name: string, balance: real)

  predicate Descending(s: seq<Entry>) {
    forall i, j :: 0 <= i < j < |s| ==> s[i].balance >= s[j].balance
  }

  /** `s` lists every (name, balance) pair of `users` exactly once. */
  predicate Lists(s: seq<Entry>, users: map<string, real>) {
    && (forall i, j :: 0 <= i < j < |s| ==> s[i].name != s[j].name)
    && (forall i :: 0 <= i < |s| ==> s[i].name in users && users[s[i].name] == s[i].balance)
    && (forall name :: name in users ==> exists i :: 0 <= i < |s| && s[i].name == name)
  }

  /** What the cache relies on of the sorting routine: a descending listing of its input. */
  ghost predicate SortsDescent(sort: map<string, real> -> seq<Entry>) {
    forall users :: Descending(sort(users)) && Lists(sort(users), users)
  }

  /**
   * The cache rebuilt from `snapshot`: a currency gets an entry only once a
   * pair is appended for it, so a currency whose sorted listing is empty
   * gets none.
   */
  function Ranked(snapshot: map<Currency, map<string, real>>,
                  sort: map<string, real> -> seq<Entry>): map<Currency, seq<Entry>>
  {
    map c | c in snapshot && sort(snapshot[c]) != [] :: sort(snapshot[c])
  }

  /** The sum of the balances of a list, as the total balance query adds them up. */
  function SumBalances(s: seq<Entry>): real {
    if s == [] then 0.0 else s[0].balance + SumBalances(s[1..])
  }

  /** The sum of all balances of a snapshot, independent of any order. */
  ghost function MapTotal(users: map<string, real>): real
    decreases |users|
  {
    if users == map[] then 0.0
    else
      var name :| name in users;
      users[name] + MapTotal(users - {name})
  }

  lemma RemovedSize(users: map<string, real>, name: string)
    requires name in users
    ensures |users - {name}| == |users| - 1
  {
    assert (users - {name}).Keys == users.Keys - {name};
  }

  /** `MapTotal` may start from any name: the sum does not depend on which one it picks. */
  lemma {:induction false} MapTotalFrom(users: map<string, real>, name: string)
    requires name in users
    ensures MapTotal(users) == users[name] + MapTotal(users - {name})
    decreases |users|
  {
    var first :| first in users && MapTotal(users) == users[first] + MapTotal(users - {first});
    if first != name {
      RemovedSize(users, first);
      RemovedSize(users, name);
      MapTotalFrom(users - {first}, name);
      MapTotalFrom(users - {name}, first);
      assert users - {first} - {name} == users - {name} - {first};
    }
  }

  /** A list that lists a snapshot sums to the snapshot's total, whatever its order. */
  lemma {:induction false} ListingSum(s: seq<Entry>, users: map<string, real>)
    requires Lists(s, users)
    ensures SumBalances(s) == MapTotal(users)
    decreases |s|
  {
    if s == [] {
      assert forall name :: name !in users;
      assert users == map[];
    } else {
      var rest := users - {s[0].name};
      forall name | name in rest
        ensures exists i :: 0 <= i < |s[1..]| && s[1..][i].name == name
      {
        var i :| 0 <= i < |s| && s[i].name == name;
        assert i != 0;
        assert s[1..][i - 1].name == name;
      }
      ListingSum(s[1..], rest);
      MapTotalFrom(users, s[0].name);
    }
  }

  /**
   * With a sorting routine that keeps its promise, the rebuilt cache holds,
   * for each currency of the snapshot with at least one player, exactly the
   * snapshot's pairs in descending order, and nothing for a currency with no
   * player; its total for a currency is the snapshot's total.
   */
  lemma RankedFromSnapshot(snapshot: map<Currency, map<string, real>>,
                           sort: map<string, real> -> seq<Entry>, c: Currency)
    requires SortsDescent(sort)
    requires c in snapshot
    ensures c in Ranked(snapshot, sort) <==> snapshot[c] != map[]
    ensures c in Ranked(snapshot, sort) ==>
              Descending(Ranked(snapshot, sort)[c]) && Lists(Ranked(snapshot, sort)[c], snapshot[c])
    ensures SumBalances(if c in Ranked(snapshot, sort) then Ranked(snapshot, sort)[c] else [])
            == MapTotal(snapshot[c])
  {
    var listed := sort(snapshot[c]);
    assert Descending(listed) && Lists(listed, snapshot[c]);
    if snapshot[c] != map[] {
      var name :| name in snapshot[c];
      assert exists i :: 0 <= i < |listed| && listed[i].name == name;
    }
    ListingSum(listed, snapshot[c]);
  }
}
