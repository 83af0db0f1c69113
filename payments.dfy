/**
 * Deposits (PaymentServiceImpl): a payment order records an amount a user
 * intends to add to the wallet; proceeding with it moves it from PENDING to
 * SUCCESS or FAILURE, consulting the payment gateway's status for the
 * gateway that reports one.
 */
module Payments {
  import opened Domain

  /** The gateway a payment order goes through. */
  datatype PaymentMethod = Razorpay | Stripe

  /** Lifecycle of a payment order. */
  datatype PaymentOrderStatus = Pending | Success | Failure

  /** A payment order row; a status of `None` is a row whose status column is null. */
  datatype PaymentOrder = PaymentOrder(user: UserId, amount: int, status: Option<PaymentOrderStatus>, gateway: PaymentMethod)

  /** The status `proceedPaymentOrder` reads, after it has read a null status as PENDING. */
  function Effective(status: Option<PaymentOrderStatus>): PaymentOrderStatus
  {
    if status.None? then PaymentOrderStatus.Pending else status.value
  }

  /**
   * Whether proceeding with `order` confirms the deposit: the order must be
   * pending, and a Razorpay payment must be reported "captured".
   */
  predicate Confirms(order: PaymentOrder, gatewayStatus: string)
  {
    Effective(order.status) == PaymentOrderStatus.Pending && (order.gateway == Razorpay ==> gatewayStatus == "captured")
  }

  /**
   * The message `getPaymentOrderById` throws for an unknown key: a fixed
   * prefix followed by the key in decimal, which reads back as the key.
   */
  function NotFound(id: nat): (msg: string)
    ensures |msg| > 34 && msg[..34] == "PaymentOrder is not found with id "
    ensures IsDecimal(msg[34..]) && DecimalValue(msg[34..]) == id
  {
    var prefix := "PaymentOrder is not found with id ";
    DecimalRoundTrip(id);
    assert (prefix + DecimalString(id))[34..] == DecimalString(id);
    prefix + DecimalString(id)
  }

  class PaymentService {
    /** The payment order repository. */
    var orders: map<nat, PaymentOrder>
    /** The key the next saved payment order receives. */
    var nextId: nat

    ghost predicate Valid()
      reads this
    {
      forall k :: k in orders ==> k < nextId
    }

    constructor ()
      ensures Valid() && orders == map[] && nextId == 0
    {
      orders := map[];
      nextId := 0;
    }

    /** `createPaymentOrder`: saves a PENDING payment order for the user, amount and method. */
    method CreatePaymentOrder(user: UserId, amount: int, gateway: PaymentMethod) returns (k: nat)
      requires Valid()
      modifies this
      ensures Valid()
      ensures k == old(nextId) && k !in old(orders) && nextId == k + 1
      ensures orders == old(orders)[k := PaymentOrder(user, amount, Some(PaymentOrderStatus.Pending), gateway)]
    {
      k := nextId;
      orders := orders[k := PaymentOrder(user, amount, Some(PaymentOrderStatus.Pending), gateway)];
      nextId := nextId + 1;
    }

    /** `getPaymentOrderById`: the stored payment order, or a failure naming the key. */
    method GetPaymentOrderById(id: nat) returns (r: Result<PaymentOrder>)
      ensures id in orders ==> r == Ok(orders[id])
      ensures id !in orders ==> r == Err(NotFound(id))
    {
      if id in orders {
        r := Ok(orders[id]);
      } else {
        r := Err(NotFound(id));
      }
    }

    /**
     * `proceedPaymentOrder` on the stored order `id`, with the status the
     * gateway reports for the payment.  Returns whether the deposit is
     * confirmed, and the order as the caller's in-memory copy ends up.
     *   - An order that is not pending: false, nothing written.
     *   - A pending non-Razorpay order: SUCCESS, saved, true.
     *   - A pending Razorpay order reported "captured": SUCCESS in memory
     *     only (it is not saved), true.
     *   - A pending Razorpay order reported otherwise: FAILURE, saved, false.
     */
    method ProceedPaymentOrder(id: nat, gatewayStatus: string) returns (ok: bool, current: PaymentOrder)
      requires Valid() && id in orders
      modifies this
      ensures Valid() && nextId == old(nextId)
      ensures ok == Confirms(old(orders)[id], gatewayStatus)
      ensures Effective(old(orders)[id].status) != PaymentOrderStatus.Pending ==> current == old(orders)[id] && orders == old(orders)
      ensures Effective(old(orders)[id].status) == PaymentOrderStatus.Pending ==>
                && current == old(orders)[id].(status := Some(if ok then PaymentOrderStatus.Success else PaymentOrderStatus.Failure))
                && orders == if ok && current.gateway == Razorpay then old(orders) else old(orders)[id := current]
    {
      current := orders[id];
      if current.status.None? {
        current := current.(status := Some(PaymentOrderStatus.Pending));
      }
      if current.status == Some(PaymentOrderStatus.Pending) {
        if current.gateway == Razorpay {
          if gatewayStatus == "captured" {
            current := current.(status := Some(PaymentOrderStatus.Success));
            return true, current;
          }
          current := current.(status := Some(PaymentOrderStatus.Failure));
          orders := orders[id := current];
          return false, current;
        }
        current := current.(status := Some(PaymentOrderStatus.Success));
        orders := orders[id := current];
        return true, current;
      }
      ok := false;
    }

    /**
     * The persistence session writing a changed payment order back: a loaded
     * order is a managed object, so the status `proceedPaymentOrder` set on
     * it in memory reaches the table when a later save in the same request
     * commits.  Only the status can differ from the stored row.
     */
    method FlushManaged(id: nat, current: PaymentOrder)
      requires Valid() && id in orders
      requires current == orders[id].(status := current.status)
      modifies this
      ensures Valid() && nextId == old(nextId)
      ensures orders == old(orders)[id := current]
    {
      orders := orders[id := current];
    }
  }

  /**
   * A non-Razorpay order confirmed once is SUCCESS in the store, so
   * proceeding with it again confirms nothing.
   */
  method ProceedTwice(svc: PaymentService, id: nat, first: string, second: string) returns (ok1: bool, ok2: bool)
    requires svc.Valid() && id in svc.orders
    requires svc.orders[id].gateway != Razorpay && Effective(svc.orders[id].status) == PaymentOrderStatus.Pending
    modifies svc
    ensures ok1 && !ok2
    ensures id in svc.orders && svc.orders[id].status == Some(PaymentOrderStatus.Success)
  {
    var current: PaymentOrder;
    ok1, current := svc.ProceedPaymentOrder(id, first);
    ok2, current := svc.ProceedPaymentOrder(id, second);
  }
}
