/**
 * Withdrawals (WithdrawalServiceImpl and WithdrawalController): a request
 * debits the caller's wallet at once and records a PENDING withdrawal; an
 * administrator's decision marks it SUCCESS, or DECLINED with the amount
 * credited back.
 */
module Withdrawals {
  import opened Domain
  import Store
  import Wallets

  /** Lifecycle of a withdrawal. */
  datatype WithdrawalStatus = Pending | Success | Declined

  /** A withdrawal row: who asked, the amount, and its status. */
  datatype Withdrawal = Withdrawal(user: UserId, amount: int, status: WithdrawalStatus)

  /** The status a decision writes. */
  function Decided(accept: bool): WithdrawalStatus
  {
    if accept then WithdrawalStatus.Success else WithdrawalStatus.Declined
  }

  class WithdrawalService {
    /** The withdrawal repository. */
    var withdrawals: map<nat, Withdrawal>
    /** The key the next saved withdrawal receives. */
    var nextId: nat

    ghost predicate Valid()
      reads this
    {
      forall k :: k in withdrawals ==> k < nextId
    }

    constructor ()
      ensures Valid() && withdrawals == map[] && nextId == 0
    {
      withdrawals := map[];
      nextId := 0;
    }

    /** `requestWithdrawal`: saves a PENDING withdrawal of `amount` for the user. */
    method RequestWithdrawal(amount: int, user: UserId) returns (k: nat)
      requires Valid()
      modifies this
      ensures Valid()
      ensures k == old(nextId) && k !in old(withdrawals) && nextId == k + 1
      ensures withdrawals == old(withdrawals)[k := Withdrawal(user, amount, WithdrawalStatus.Pending)]
    {
      k := nextId;
      withdrawals := withdrawals[k := Withdrawal(user, amount, WithdrawalStatus.Pending)];
      nextId := nextId + 1;
    }

    /**
     * `procedWithdrawal`: sets the status to SUCCESS or DECLINED, whatever the
     * current status is (a decided withdrawal can be decided again), or fails
     * with "withdrawal does not exist".
     */
    method ProcedWithdrawal(id: nat, accept: bool) returns (r: Result<Withdrawal>)
      requires Valid()
      modifies this
      ensures Valid() && nextId == old(nextId)
      ensures id !in old(withdrawals) ==> r == Err("withdrawal does not exist") && unchanged(this)
      ensures id in old(withdrawals) ==>
                && r == Ok(old(withdrawals)[id].(status := Decided(accept)))
                && withdrawals == old(withdrawals)[id := r.value]
    {
      if id !in withdrawals {
        return Err("withdrawal does not exist");
      }
      var w := withdrawals[id].(status := Decided(accept));
      withdrawals := withdrawals[id := w];
      r := Ok(w);
    }

    /**
     * `getUsersWithdrawalHistory`: exactly the user's withdrawals, each row
     * listed once per key that holds it.
     */
    method GetUsersWithdrawalHistory(user: UserId) returns (r: seq<Withdrawal>)
      requires Valid()
      ensures forall w :: w in r ==> w.user == user && w in withdrawals.Values
      ensures forall k :: k in withdrawals && withdrawals[k].user == user ==> withdrawals[k] in r
      ensures forall w :: multiset(r)[w] == |set k | k in withdrawals && withdrawals[k].user == user && withdrawals[k] == w|
    {
      var owned := (w: Withdrawal) => w.user == user;
      r := Store.Select(withdrawals, owned, nextId);
      forall w
        ensures multiset(r)[w] == |set k | k in withdrawals && withdrawals[k].user == user && withdrawals[k] == w|
      {
        assert Store.Hits(withdrawals, owned, nextId, w) == set k | k in withdrawals && withdrawals[k].user == user && withdrawals[k] == w;
      }
    }

    /** `getAllWithdrawalRequest`: every withdrawal, each row listed once per key that holds it. */
    method GetAllWithdrawalRequest() returns (r: seq<Withdrawal>)
      requires Valid()
      ensures forall w :: w in r ==> w in withdrawals.Values
      ensures forall k :: k in withdrawals ==> withdrawals[k] in r
      ensures forall w :: multiset(r)[w] == |set k | k in withdrawals && withdrawals[k] == w|
    {
      var any := (w: Withdrawal) => true;
      r := Store.Select(withdrawals, any, nextId);
      forall w
        ensures multiset(r)[w] == |set k | k in withdrawals && withdrawals[k] == w|
      {
        assert Store.Hits(withdrawals, any, nextId, w) == set k | k in withdrawals && withdrawals[k] == w;
      }
    }
  }

  /** The withdrawal routes; the caller resolved from the bearer token is a parameter. */
  class WithdrawalController {
    const withdrawalService: WithdrawalService
    const walletService: Wallets.WalletService

    ghost predicate Valid()
      reads this, withdrawalService, walletService
    {
      withdrawalService.Valid() && walletService.Valid()
    }

    constructor (withdrawalService: WithdrawalService, walletService: Wallets.WalletService)
      requires withdrawalService.Valid() && walletService.Valid()
      ensures this.withdrawalService == withdrawalService && this.walletService == walletService
      ensures Valid()
    {
      this.withdrawalService := withdrawalService;
      this.walletService := walletService;
    }

    /**
     * `withdrawalRequest`: fetches (or creates) the caller's wallet, records
     * a PENDING withdrawal and debits the amount at once, with no check that
     * the balance covers it.
     */
    method WithdrawalRequest(amount: int, caller: UserId) returns (k: nat)
      requires Valid()
      modifies withdrawalService, walletService
      ensures Valid()
      ensures k !in old(withdrawalService.withdrawals)
      ensures withdrawalService.withdrawals == old(withdrawalService.withdrawals)[k := Withdrawal(caller, amount, WithdrawalStatus.Pending)]
      ensures walletService.StoredAs(old(walletService.wallets), caller, old(walletService.Balance(caller)) - amount as real)
      ensures forall u :: u != caller ==> walletService.Balance(u) == old(walletService.Balance(u))
    {
      var wallet := walletService.GetUserWallet(caller);
      k := withdrawalService.RequestWithdrawal(amount, caller);
      walletService.AddBalance(wallet, -withdrawalService.withdrawals[k].amount);
    }

    /**
     * `proceedWithdrawal`: records the decision, then fetches (or creates)
     * the CALLER's wallet and, on a decline, credits it the withdrawal's
     * amount.  The caller is the administrator, not necessarily the user who
     * asked; nothing stops a withdrawal from being declined, and credited,
     * more than once.  An unknown key changes nothing.
     */
    method ProceedWithdrawal(id: nat, accept: bool, caller: UserId) returns (r: Result<Withdrawal>)
      requires Valid()
      modifies withdrawalService, walletService
      ensures Valid()
      ensures id !in old(withdrawalService.withdrawals) ==>
                && r == Err("withdrawal does not exist")
                && unchanged(withdrawalService, walletService)
      ensures id in old(withdrawalService.withdrawals) ==>
                && r.Ok?
                && r.value.user == old(withdrawalService.withdrawals)[id].user
                && r.value.amount == old(withdrawalService.withdrawals)[id].amount
                && r.value.status == Decided(accept)
                && withdrawalService.withdrawals == old(withdrawalService.withdrawals)[id := r.value]
                && walletService.StoredAs(old(walletService.wallets), caller,
                     old(walletService.Balance(caller)) + if accept then 0.0 else r.value.amount as real)
      ensures forall u :: u != caller ==> walletService.Balance(u) == old(walletService.Balance(u))
    {
      r := withdrawalService.ProcedWithdrawal(id, accept);
      if r.Err? {
        return;
      }
      var wallet := walletService.GetUserWallet(caller);
      if !accept {
        walletService.AddBalance(wallet, r.value.amount);
      }
    }
  }

  /**
   * A request followed by a decline by the same user leaves the balance
   * where it was, and the withdrawal DECLINED.
   */
  method RequestThenDecline(ctl: WithdrawalController, amount: int, user: UserId) returns (k: nat, r: Result<Withdrawal>)
    requires ctl.Valid()
    modifies ctl.withdrawalService, ctl.walletService
    ensures ctl.Valid()
    ensures r == Ok(Withdrawal(user, amount, WithdrawalStatus.Declined))
    ensures k in ctl.withdrawalService.withdrawals && ctl.withdrawalService.withdrawals[k] == r.value
    ensures ctl.walletService.Balance(user) == old(ctl.walletService.Balance(user))
  {
    k := ctl.WithdrawalRequest(amount, user);
    r := ctl.ProceedWithdrawal(k, false, user);
  }

  /**
   * A request followed by an acceptance leaves the amount debited and the
   * withdrawal SUCCESS.
   */
  method RequestThenAccept(ctl: WithdrawalController, amount: int, user: UserId) returns (k: nat, r: Result<Withdrawal>)
    requires ctl.Valid()
    modifies ctl.withdrawalService, ctl.walletService
    ensures ctl.Valid()
    ensures r == Ok(Withdrawal(user, amount, WithdrawalStatus.Success))
    ensures ctl.walletService.Balance(user) == old(ctl.walletService.Balance(user)) - amount as real
  {
    k := ctl.WithdrawalRequest(amount, user);
    r := ctl.ProceedWithdrawal(k, true, user);
  }

  /**
   * Declining the same withdrawal twice credits the caller twice, and
   * declining one that was already accepted still credits: decisions are
   * not guarded by the current status.
   */
  method DeclineTwice(ctl: WithdrawalController, id: nat, caller: UserId) returns (r1: Result<Withdrawal>, r2: Result<Withdrawal>)
    requires ctl.Valid() && id in ctl.withdrawalService.withdrawals
    modifies ctl.withdrawalService, ctl.walletService
    ensures ctl.Valid()
    ensures r1.Ok? && r2.Ok? && r2.value.status == WithdrawalStatus.Declined
    ensures ctl.walletService.Balance(caller)
            == old(ctl.walletService.Balance(caller)) + 2.0 * old(ctl.withdrawalService.withdrawals)[id].amount as real
  {
    r1 := ctl.ProceedWithdrawal(id, false, caller);
    r2 := ctl.ProceedWithdrawal(id, false, caller);
  }
}
