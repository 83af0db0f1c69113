/**
 * The wallet routes (WalletController): a deposit confirmed through a
 * payment order, a transfer to a wallet named by its key, and the payment of
 * a stored order.  The caller resolved from the bearer token is a parameter.
 */
module WalletRoutes {
  import opened Domain
  import Wallets
  import Orders
  import Payments

  class WalletController {
    const walletService: Wallets.WalletService
    const orderService: Orders.OrderService
    const paymentService: Payments.PaymentService

    /** The services are valid, and the order service settles against the same wallet service (one bean). */
    ghost predicate Valid()
      reads this, walletService, paymentService
    {
      walletService.Valid() && paymentService.Valid() && orderService.wallet == walletService
    }

    constructor (walletService: Wallets.WalletService, orderService: Orders.OrderService,
                 paymentService: Payments.PaymentService)
      requires walletService.Valid() && paymentService.Valid() && orderService.wallet == walletService
      ensures this.walletService == walletService && this.orderService == orderService
      ensures this.paymentService == paymentService
      ensures Valid()
    {
      this.walletService := walletService;
      this.orderService := orderService;
      this.paymentService := paymentService;
    }

    /**
     * `addMoneyToWallet`: fetches (or creates) the caller's wallet, loads the
     * payment order, proceeds with it, and credits the caller's wallet with
     * the order's amount exactly when the deposit is confirmed.  The loaded
     * order is the session's managed object, so the SUCCESS a captured
     * Razorpay payment sets on it in memory is written when the credit's save
     * commits: a pending order always leaves the table decided.  An unknown
     * payment order fails after the wallet fetch, with no balance changed.
     * Returns the key of the caller's wallet.
     */
    method AddMoneyToWallet(caller: UserId, orderId: nat, gatewayStatus: string) returns (r: Result<nat>)
      requires Valid()
      modifies walletService, paymentService
      ensures Valid() && paymentService.nextId == old(paymentService.nextId)
      ensures forall u :: u != caller ==> walletService.Balance(u) == old(walletService.Balance(u))
      ensures orderId !in old(paymentService.orders) ==>
                && r == Err(Payments.NotFound(orderId))
                && walletService.StoredAs(old(walletService.wallets), caller, old(walletService.Balance(caller)))
                && unchanged(paymentService)
      ensures orderId in old(paymentService.orders) ==>
                var order := old(paymentService.orders)[orderId];
                var confirmed := Payments.Confirms(order, gatewayStatus);
                && r.Ok? && walletService.WalletOf(caller) == Some(r.value)
                && walletService.StoredAs(old(walletService.wallets), caller,
                     old(walletService.Balance(caller)) + if confirmed then order.amount as real else 0.0)
                && paymentService.orders ==
                     if Payments.Effective(order.status) == Payments.PaymentOrderStatus.Pending then
                       old(paymentService.orders)[orderId := order.(status := Some(
                         if confirmed then Payments.PaymentOrderStatus.Success else Payments.PaymentOrderStatus.Failure))]
                     else old(paymentService.orders)
    {
      var k := walletService.GetUserWallet(caller);
      var found := paymentService.GetPaymentOrderById(orderId);
      if found.Err? {
        return Err(found.msg);
      }
      var ok, current := paymentService.ProceedPaymentOrder(orderId, gatewayStatus);
      if ok {
        walletService.AddBalance(k, found.value.amount);
        paymentService.FlushManaged(orderId, current);
      }
      r := Ok(k);
    }

    /**
     * The transfer route: looks the receiver's wallet up by key, failing with
     * "Wallet not found" before anything is written, and otherwise transfers
     * as `walletToWalletTransfer` does.  Returns the key of the sender's wallet.
     */
    method WalletToWalletTransfer(sender: UserId, receiverId: nat, amount: int) returns (r: Result<nat>)
      requires Valid()
      modifies walletService
      ensures Valid()
      ensures receiverId !in old(walletService.wallets) ==>
                r == Err("Wallet not found") && unchanged(walletService)
      ensures receiverId in old(walletService.wallets) && old(walletService.Balance(sender)) < amount as real ==>
                && r == Err("InSufficient funds to transfer")
                && walletService.StoredAs(old(walletService.wallets), sender, old(walletService.Balance(sender)))
      ensures receiverId in old(walletService.wallets) && old(walletService.Balance(sender)) >= amount as real ==>
                r.Ok? && walletService.WalletOf(sender) == Some(r.value)
      ensures r.Ok? && r.value == receiverId ==> walletService.wallets == old(walletService.wallets)
      ensures r.Ok? && r.value != receiverId ==>
                && walletService.wallets
                   == old(walletService.wallets)[r.value := Wallets.Wallet(sender, old(walletService.Balance(sender)) - amount as real)]
                        [receiverId := old(walletService.wallets)[receiverId].(balance := old(walletService.wallets)[receiverId].balance + amount as real)]
                && walletService.Balance(sender) == old(walletService.Balance(sender)) - amount as real
                && walletService.Balance(sender) >= 0.0
    {
      var receiver := walletService.FindWalletById(receiverId);
      if receiver.Err? {
        return Err(receiver.msg);
      }
      r := walletService.WalletToWalletTransfer(sender, receiverId, amount);
    }

    /**
     * The pay-order route: loads the order, failing with "Order not found"
     * before anything is written, and settles it against the caller's wallet
     * whatever its status, so a settled order can be charged again.  Returns
     * the key of the caller's wallet.
     */
    method PayOrderPayment(caller: UserId, orderId: nat) returns (r: Result<nat>)
      requires Valid()
      modifies walletService
      ensures Valid()
      ensures orderId !in orderService.orders ==> r == Err("Order not found") && unchanged(walletService)
      ensures orderId in orderService.orders ==>
                var order := orderService.orders[orderId];
                var s := Wallets.SettledBalance(old(walletService.Balance(caller)), order.orderType, order.price);
                && (s.Err? ==> r == Err(s.msg) && walletService.StoredAs(old(walletService.wallets), caller, old(walletService.Balance(caller))))
                && (s.Ok? ==> r.Ok? && walletService.StoredAs(old(walletService.wallets), caller, s.value))
    {
      var order := orderService.GetOrderById(orderId);
      if order.Err? {
        return Err(order.msg);
      }
      r := walletService.PayOrderPayment(order.value, caller);
    }
  }

  /**
   * Depositing through the same payment order twice credits the caller at
   * most once: the first call decides a pending order, and a decided order
   * confirms nothing.
   */
  method DepositTwice(ctl: WalletController, caller: UserId, orderId: nat, first: string, second: string)
    returns (r1: Result<nat>, r2: Result<nat>)
    requires ctl.Valid() && orderId in ctl.paymentService.orders
    modifies ctl.walletService, ctl.paymentService
    ensures r1.Ok? && r2.Ok?
    ensures ctl.walletService.Balance(caller)
            == old(ctl.walletService.Balance(caller))
               + if Payments.Confirms(old(ctl.paymentService.orders)[orderId], first)
                 then old(ctl.paymentService.orders)[orderId].amount as real else 0.0
  {
    r1 := ctl.AddMoneyToWallet(caller, orderId, first);
    r2 := ctl.AddMoneyToWallet(caller, orderId, second);
  }

  /**
   * Paying the same BUY order twice through the route charges the caller
   * twice: the route never looks at the order's status.
   */
  method PayTwice(ctl: WalletController, caller: UserId, orderId: nat) returns (r1: Result<nat>, r2: Result<nat>)
    requires ctl.Valid() && orderId in ctl.orderService.orders
    requires ctl.orderService.orders[orderId].orderType == Buy
    requires ctl.walletService.Balance(caller) >= 2.0 * ctl.orderService.orders[orderId].price
    requires ctl.walletService.Balance(caller) - ctl.orderService.orders[orderId].price >= 2.0 * ctl.orderService.orders[orderId].price
    modifies ctl.walletService
    ensures r1.Ok? && r2.Ok?
    ensures ctl.walletService.Balance(caller) == old(ctl.walletService.Balance(caller)) - 2.0 * ctl.orderService.orders[orderId].price
  {
    r1 := ctl.PayOrderPayment(caller, orderId);
    r2 := ctl.PayOrderPayment(caller, orderId);
  }
}
