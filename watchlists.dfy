/**
 * Watchlists (WatchlistServiceImpl): a user's list of coins, where adding a
 * coin that is already listed removes it instead.
 */
module Watchlists {
  import opened Domain

  /**
   * A watchlist row: its owner and the coins it lists, in insertion order.
   * The list refers to coin rows, so it holds their keys: a coin whose price
   * has changed since it was listed is still the same entry.
   */
  datatype Watchlist = Watchlist(user: UserId, coins: seq<CoinId>)

  /** No coin is listed twice. */
  predicate NoDuplicates(s: seq<CoinId>)
  {
    forall i, j :: 0 <= i < j < |s| ==> s[i] != s[j]
  }

  /** The position of the first occurrence of `c` in `s`. */
  function FirstIndex(s: seq<CoinId>, c: CoinId): (i: nat)
    requires c in s
    ensures i < |s| && s[i] == c && c !in s[..i]
  {
    if s[0] == c then 0 else 1 + FirstIndex(s[1..], c)
  }

  /**
   * `List.remove(Object)`: drops the first element equal to `c`, if there is
   * one, keeping the others in order; exactly one copy of `c` leaves the list.
   */
  function RemoveFirst(s: seq<CoinId>, c: CoinId): (r: seq<CoinId>)
    ensures c !in s ==> r == s
    ensures c in s ==> r == s[..FirstIndex(s, c)] + s[FirstIndex(s, c) + 1..]
    ensures c in s ==> |r| == |s| - 1 && multiset(r) == multiset(s) - multiset{c}
  {
    if c in s then
      var i := FirstIndex(s, c);
      assert s == s[..i] + [c] + s[i + 1..];
      s[..i] + s[i + 1..]
    else s
  }

  /** The list `addItemToWatchlist` leaves: without the coin's first occurrence if listed, else with it appended. */
  function Toggled(s: seq<CoinId>, c: CoinId): seq<CoinId>
  {
    if c in s then RemoveFirst(s, c) else s + [c]
  }

  /** Toggling a coin that is not listed, and then toggling it again, gives back the original list. */
  lemma {:induction false} ToggleTwiceRestores(s: seq<CoinId>, c: CoinId)
    requires c !in s
    ensures Toggled(s, c) == s + [c]
    ensures Toggled(Toggled(s, c), c) == s
  {
    var t := s + [c];
    assert t[|s|] == c;
    assert t[..|s|] == s;
  }

  /** Dropping one position from a list without duplicates keeps it without duplicates, and drops that element. */
  lemma {:induction false} DropKeepsNoDuplicates(s: seq<CoinId>, i: nat)
    requires NoDuplicates(s) && i < |s|
    ensures NoDuplicates(s[..i] + s[i + 1..])
    ensures s[i] !in s[..i] + s[i + 1..]
  {
    var r := s[..i] + s[i + 1..];
    forall a | 0 <= a < |r|
      ensures r[a] == s[if a < i then a else a + 1]
    {
      if a >= i {
        assert r[a] == s[i + 1..][a - i];
      }
    }
    forall a, b | 0 <= a < b < |r|
      ensures r[a] != r[b]
    {
      assert r[a] == s[if a < i then a else a + 1];
      assert r[b] == s[if b < i then b else b + 1];
    }
    forall a | 0 <= a < |r|
      ensures r[a] != s[i]
    {
      assert r[a] == s[if a < i then a else a + 1];
    }
  }

  /**
   * On a list without duplicates a toggle keeps it without duplicates, and
   * the coin is listed afterwards exactly when it was not listed before.
   */
  lemma {:induction false} ToggleKeepsNoDuplicates(s: seq<CoinId>, c: CoinId)
    requires NoDuplicates(s)
    ensures NoDuplicates(Toggled(s, c))
    ensures c in Toggled(s, c) <==> c !in s
  {
    if c in s {
      DropKeepsNoDuplicates(s, FirstIndex(s, c));
    } else {
      var r := s + [c];
      assert forall a :: 0 <= a < |s| ==> r[a] == s[a];
      assert r[|s|] == c;
    }
  }

  /** The key of `user`'s watchlist among the keys below `bound`, as `findByUserId` finds it. */
  function WatchlistKey(lists: map<nat, Watchlist>, user: UserId, bound: nat): (r: Option<nat>)
    ensures r.Some? ==> r.value < bound && r.value in lists && lists[r.value].user == user
    ensures r.Some? ==> forall k :: k < r.value && k in lists ==> lists[k].user != user
    ensures r.None? ==> forall k :: k < bound && k in lists ==> lists[k].user != user
  {
    if bound == 0 then None
    else match WatchlistKey(lists, user, bound - 1)
      case Some(k) => Some(k)
      case None => if bound - 1 in lists && lists[bound - 1].user == user then Some(bound - 1) else None
  }

  /** Rewriting a watchlist's coins leaves every user's lookup where it was. */
  lemma {:induction false} WatchlistKeyKept(lists: map<nat, Watchlist>, k: nat, coins: seq<CoinId>, user: UserId, bound: nat)
    requires k in lists
    ensures WatchlistKey(lists[k := lists[k].(coins := coins)], user, bound) == WatchlistKey(lists, user, bound)
  {
    if bound > 0 {
      WatchlistKeyKept(lists, k, coins, user, bound - 1);
    }
  }

  class WatchlistService {
    /** The watchlist repository. */
    var watchlists: map<nat, Watchlist>
    /** The key the next saved watchlist receives. */
    var nextId: nat

    ghost predicate Valid()
      reads this
    {
      forall k :: k in watchlists ==> k < nextId
    }

    constructor ()
      ensures Valid() && watchlists == map[] && nextId == 0
    {
      watchlists := map[];
      nextId := 0;
    }

    /** `findUserWatchlist`: the key of the user's watchlist, or "watchlist is not found". */
    method FindUserWatchlist(user: UserId) returns (r: Result<nat>)
      requires Valid()
      ensures r.Ok? ==> r.value in watchlists && watchlists[r.value].user == user
      ensures r.Ok? ==> forall k :: k in watchlists && k < r.value ==> watchlists[k].user != user
      ensures r.Err? <==> forall k :: k in watchlists ==> watchlists[k].user != user
      ensures r.Err? ==> r.msg == "watchlist is not found"
    {
      var found := WatchlistKey(watchlists, user, nextId);
      if found.None? {
        return Err("watchlist is not found");
      }
      r := Ok(found.value);
    }

    /** `createWatchList`: saves a new, empty watchlist bound to the user. */
    method CreateWatchList(user: UserId) returns (k: nat)
      requires Valid()
      modifies this
      ensures Valid()
      ensures k == old(nextId) && k !in old(watchlists) && nextId == k + 1
      ensures watchlists == old(watchlists)[k := Watchlist(user, [])]
    {
      k := nextId;
      watchlists := watchlists[k := Watchlist(user, [])];
      nextId := nextId + 1;
    }

    /** `findById`: the stored watchlist, or "Watchlist not found". */
    method FindById(id: nat) returns (r: Result<Watchlist>)
      ensures id in watchlists ==> r == Ok(watchlists[id])
      ensures id !in watchlists ==> r == Err("Watchlist not found")
    {
      if id in watchlists {
        r := Ok(watchlists[id]);
      } else {
        r := Err("Watchlist not found");
      }
    }

    /**
     * `addItemToWatchlist`: toggles the coin in the user's watchlist (removing
     * its first occurrence when listed, appending it otherwise), saves the
     * list and returns the coin; fails when the user has no watchlist.
     */
    method AddItemToWatchlist(coin: Coin, user: UserId) returns (r: Result<Coin>)
      requires Valid()
      modifies this
      ensures Valid() && nextId == old(nextId)
      ensures old(WatchlistKey(watchlists, user, nextId)).None? ==>
                r == Err("watchlist is not found") && watchlists == old(watchlists)
      ensures old(WatchlistKey(watchlists, user, nextId)).Some? ==>
                var k := old(WatchlistKey(watchlists, user, nextId)).value;
                && r == Ok(coin)
                && watchlists == old(watchlists)[k := old(watchlists)[k].(coins := Toggled(old(watchlists)[k].coins, coin.id))]
    {
      var found := FindUserWatchlist(user);
      if found.Err? {
        return Err(found.msg);
      }
      var k := found.value;
      var coins := watchlists[k].coins;
      if coin.id in coins {
        coins := RemoveFirst(coins, coin.id);
      } else {
        coins := coins + [coin.id];
      }
      watchlists := watchlists[k := watchlists[k].(coins := coins)];
      r := Ok(coin);
    }
  }

  /**
   * Adding a coin the user's watchlist does not list, and then adding it
   * again (possibly loaded at a newer price), leaves the repository as it was:
   * the second call finds the coin's row and removes it.
   */
  method AddTwice(svc: WatchlistService, coin: Coin, repriced: Coin, user: UserId) returns (r1: Result<Coin>, r2: Result<Coin>)
    requires svc.Valid()
    requires WatchlistKey(svc.watchlists, user, svc.nextId).Some?
    requires coin.id !in svc.watchlists[WatchlistKey(svc.watchlists, user, svc.nextId).value].coins
    requires repriced.id == coin.id
    modifies svc
    ensures r1 == Ok(coin) && r2 == Ok(repriced)
    ensures svc.watchlists == old(svc.watchlists)
  {
    ghost var k := WatchlistKey(svc.watchlists, user, svc.nextId).value;
    ToggleTwiceRestores(svc.watchlists[k].coins, coin.id);
    r1 := svc.AddItemToWatchlist(coin, user);
    WatchlistKeyKept(old(svc.watchlists), k, svc.watchlists[k].coins, user, svc.nextId);
    r2 := svc.AddItemToWatchlist(repriced, user);
  }
}
