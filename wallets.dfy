/**
 * The wallet ledger (WalletServiceImpl): one wallet per user, created lazily,
 * whose balance is credited, debited, transferred and charged for orders.
 */
module Wallets {
  import opened Domain
  import Store

  /** A wallet row. A new wallet's balance is zero (the model's reading of `Wallet`'s default). */
  datatype Wallet = Wallet(user: UserId, balance: real)

  /** The key of `user`'s wallet among the keys below `bound`, as `findByUserId` finds it. */
  function WalletKey(ws: map<nat, Wallet>, user: UserId, bound: nat): (r: Option<nat>)
    ensures r.Some? ==> r.value < bound && r.value in ws && ws[r.value].user == user
    ensures r.None? ==> forall k :: k < bound && k in ws ==> ws[k].user != user
  {
    if bound == 0 then None
    else match WalletKey(ws, user, bound - 1)
      case Some(k) => Some(k)
      case None => if bound - 1 in ws && ws[bound - 1].user == user then Some(bound - 1) else None
  }

  /** The balance of `user`'s wallet; a user without a wallet reads as the zero a fresh one holds. */
  function BalanceIn(ws: map<nat, Wallet>, user: UserId, bound: nat): real
  {
    match WalletKey(ws, user, bound)
    case Some(k) => ws[k].balance
    case None => 0.0
  }

  /** Every key lies below `bound`, and no two wallets belong to the same user. */
  ghost predicate WellFormed(ws: map<nat, Wallet>, bound: nat)
  {
    && (forall k :: k in ws ==> k < bound)
    && (forall i, j {:trigger ws[i].user, ws[j].user} :: i in ws && j in ws && ws[i].user == ws[j].user ==> i == j)
  }

  /**
   * Rewriting one user's wallet (or adding it) changes no other user's balance:
   * the invariant that lets every wallet operation below speak about its own
   * user only.
   */
  lemma OtherBalancesKept(before: map<nat, Wallet>, bound: nat, after: map<nat, Wallet>, bound': nat,
                          k: nat, user: UserId, balance: real, u: UserId)
    requires WellFormed(before, bound) && WellFormed(after, bound') && bound <= bound'
    requires k in before ==> before[k].user == user
    requires after == before[k := Wallet(user, balance)]
    requires u != user
    ensures WalletKey(after, u, bound') == WalletKey(before, u, bound)
    ensures BalanceIn(after, u, bound') == BalanceIn(before, u, bound)
  {
    var a := WalletKey(after, u, bound');
    var b := WalletKey(before, u, bound);
    if b.Some? {
      assert b.value != k && b.value in after && after[b.value].user == u;
      assert a.Some?;
      assert a.value in before && before[a.value].user == u;
    }
  }

  /** Rewriting a user's wallet row in place keeps it that user's wallet. */
  lemma WalletKeyKept(ws: map<nat, Wallet>, bound: nat, k: nat, balance: real)
    requires WellFormed(ws, bound) && k in ws
    ensures WellFormed(ws[k := Wallet(ws[k].user, balance)], bound)
    ensures WalletKey(ws[k := Wallet(ws[k].user, balance)], ws[k].user, bound) == Some(k)
  {
    var after := ws[k := Wallet(ws[k].user, balance)];
    var r := WalletKey(after, ws[k].user, bound);
    assert k < bound && k in after && after[k].user == ws[k].user;
    assert r.Some?;
    assert r.value in ws && ws[r.value].user == ws[k].user;
  }

  /**
   * The balance `payOrderPayment` leaves after settling an order of the given
   * side and price, or the exception it throws.  The BUY guard compares the
   * balance left after the debit with the price itself, so a BUY needs twice
   * its price in the wallet; a SELL always succeeds.
   */
  function SettledBalance(balance: real, side: OrderType, price: real): (r: Result<real>)
    ensures r.Err? <==> side == Buy && balance < 2.0 * price
    ensures r.Err? ==> r.msg == "Insufficient funds for the Transaction"
    ensures r.Ok? && side == Buy ==> r.value == balance - price && r.value >= price
    ensures side == Sell ==> r == Ok(balance + price)
  {
    match side
    case Buy =>
      var newBalance := balance - price;
      if newBalance < price then Err("Insufficient funds for the Transaction") else Ok(newBalance)
    case Sell => Ok(balance + price)
  }

  class WalletService {
    /** The wallet repository. */
    var wallets: map<nat, Wallet>
    /** The key the next saved wallet receives. */
    var nextId: nat

    ghost predicate Valid()
      reads this
    {
      WellFormed(wallets, nextId)
    }

    constructor ()
      ensures Valid() && wallets == map[] && nextId == 0
    {
      wallets := map[];
      nextId := 0;
    }

    /** `walletRepository.findByUserId`: the key of the user's wallet, if there is one. */
    function WalletOf(user: UserId): (r: Option<nat>)
      reads this
      ensures r.Some? ==> r.value in wallets && wallets[r.value].user == user
      ensures r.None? ==> forall k :: k in wallets && k < nextId ==> wallets[k].user != user
    {
      WalletKey(wallets, user, nextId)
    }

    /** The user's balance (zero for a user who has no wallet yet). */
    function Balance(user: UserId): real
      reads this
    {
      BalanceIn(wallets, user, nextId)
    }

    /**
     * The repository is `before` with the user's wallet, existing or newly
     * created, holding `balance`, and nothing else changed.
     */
    ghost predicate StoredAs(before: map<nat, Wallet>, user: UserId, balance: real)
      reads this
      ensures StoredAs(before, user, balance) ==> Balance(user) == balance
    {
      && WalletOf(user).Some?
      && wallets == before[WalletOf(user).value := Wallet(user, balance)]
    }

    /**
     * `getUserWallet`: returns the key of the user's wallet, creating and
     * saving a zero-balance wallet bound to the user when there is none.
     */
    method GetUserWallet(user: UserId) returns (k: nat)
      requires Valid()
      modifies this
      ensures Valid() && nextId >= old(nextId)
      ensures WalletOf(user) == Some(k)
      ensures old(WalletOf(user)).Some? ==> wallets == old(wallets) && nextId == old(nextId)
      ensures old(WalletOf(user)).None? ==> k == old(nextId) && k !in old(wallets) && nextId == old(nextId) + 1
      ensures StoredAs(old(wallets), user, old(Balance(user)))
      ensures forall u :: u != user ==> Balance(u) == old(Balance(u))
    {
      var found := WalletOf(user);
      if found.Some? {
        k := found.value;
        assert wallets[k := Wallet(user, wallets[k].balance)] == wallets;
      } else {
        k := nextId;
        wallets := wallets[k := Wallet(user, 0.0)];
        nextId := nextId + 1;
        assert WalletOf(user) == Some(k);
      }
      forall u | u != user
        ensures Balance(u) == old(Balance(u))
      {
        OtherBalancesKept(old(wallets), old(nextId), wallets, nextId, k, user, wallets[k].balance, u);
      }
    }

    /**
     * `setBalance` followed by `walletRepository.save` on a stored wallet: the
     * row gets the new balance, it stays its owner's wallet, and no other
     * user's wallet or balance changes.
     */
    method SaveBalance(k: nat, balance: real)
      requires Valid() && k in wallets
      modifies this
      ensures Valid() && nextId == old(nextId)
      ensures wallets == old(wallets)[k := Wallet(old(wallets)[k].user, balance)]
      ensures WalletOf(old(wallets)[k].user) == Some(k)
      ensures forall u :: u != old(wallets)[k].user ==> WalletOf(u) == old(WalletOf(u)) && Balance(u) == old(Balance(u))
    {
      var owner := wallets[k].user;
      WalletKeyKept(wallets, nextId, k, balance);
      wallets := wallets[k := Wallet(owner, balance)];
      forall u | u != owner
        ensures WalletOf(u) == old(WalletOf(u)) && Balance(u) == old(Balance(u))
      {
        OtherBalancesKept(old(wallets), nextId, wallets, nextId, k, owner, balance, u);
      }
    }

    /** `addBalance`: adds `amount` to the wallet's balance, with no check of sign or sufficiency. */
    method AddBalance(k: nat, amount: int)
      requires Valid() && k in wallets
      modifies this
      ensures Valid() && nextId == old(nextId)
      ensures wallets == old(wallets)[k := old(wallets)[k].(balance := old(wallets)[k].balance + amount as real)]
      ensures WalletOf(old(wallets)[k].user) == Some(k)
      ensures forall u :: u != old(wallets)[k].user ==> Balance(u) == old(Balance(u))
    {
      SaveBalance(k, wallets[k].balance + amount as real);
    }

    /** `findWalletById`: the stored wallet, or "Wallet not found". */
    method FindWalletById(id: nat) returns (r: Result<Wallet>)
      ensures id in wallets ==> r == Ok(wallets[id])
      ensures id !in wallets ==> r == Err("Wallet not found")
    {
      if id in wallets {
        r := Ok(wallets[id]);
      } else {
        r := Err("Wallet not found");
      }
    }

    /**
     * `walletToWalletTransfer`: fetches (or creates) the sender's wallet,
     * refuses when its balance is below `amount`, and otherwise debits the
     * sender and then credits the receiver, reading the receiver's balance
     * after the debit (a self-transfer therefore changes nothing).  Returns
     * the key of the sender's wallet.
     */
    method WalletToWalletTransfer(sender: UserId, receiver: nat, amount: int) returns (r: Result<nat>)
      requires Valid() && receiver in wallets
      modifies this
      ensures Valid()
      ensures old(Balance(sender)) < amount as real ==>
                r == Err("InSufficient funds to transfer") && StoredAs(old(wallets), sender, old(Balance(sender)))
      ensures old(Balance(sender)) >= amount as real ==> r.Ok? && WalletOf(sender) == Some(r.value)
      ensures r.Ok? && r.value == receiver ==> wallets == old(wallets)
      ensures r.Ok? && r.value != receiver ==>
                && wallets == old(wallets)[r.value := Wallet(sender, old(Balance(sender)) - amount as real)]
                                          [receiver := old(wallets)[receiver].(balance := old(wallets)[receiver].balance + amount as real)]
                && wallets[r.value].balance + wallets[receiver].balance
                   == old(Balance(sender)) + old(wallets)[receiver].balance
                && wallets[r.value].balance >= 0.0
    {
      var s := GetUserWallet(sender);
      if wallets[s].balance < amount as real {
        return Err("InSufficient funds to transfer");
      }
      SaveBalance(s, wallets[s].balance - amount as real);
      SaveBalance(receiver, wallets[receiver].balance + amount as real);
      r := Ok(s);
    }

    /**
     * `payOrderPayment`: fetches (or creates) the user's wallet and settles the
     * order against it as `SettledBalance` says; on a refused BUY the balance
     * is untouched (a wallet created by the fetch stays saved).  Returns the
     * key of the user's wallet.
     */
    method PayOrderPayment(order: Order, user: UserId) returns (r: Result<nat>)
      requires Valid()
      modifies this
      ensures Valid()
      ensures var s := SettledBalance(old(Balance(user)), order.orderType, order.price);
              && (s.Err? ==> r == Err(s.msg) && StoredAs(old(wallets), user, old(Balance(user))))
              && (s.Ok? ==> r.Ok? && WalletOf(user) == Some(r.value) && StoredAs(old(wallets), user, s.value))
      ensures forall u :: u != user ==> Balance(u) == old(Balance(u))
    {
      var k := GetUserWallet(user);
      var s := SettledBalance(wallets[k].balance, order.orderType, order.price);
      if s.Err? {
        return Err(s.msg);
      }
      SaveBalance(k, s.value);
      r := Ok(k);
    }
  }
}
