/**
 * Order settlement (OrderServiceImpl): a BUY or SELL of a quantity of a coin
 * records an order item and an order, charges or credits the user's wallet
 * and opens, overwrites or closes the user's asset in that coin.
 *
 * Each service call runs in one transaction; the `Exception` it throws is a
 * checked one, which does not roll the transaction back, so every row saved
 * before the throw stays saved.  The effects below say so case by case.
 */
module Orders {
  import opened Domain
  import Store
  import Wallets
  import Assets

  class OrderService {
    /** The order repository. */
    var orders: map<nat, Order>
    /** The key the next saved order receives. */
    var nextOrderId: nat
    /** The order item repository. */
    var items: map<nat, OrderItem>
    /** The key the next saved order item receives. */
    var nextItemId: nat
    /** The wallet service settlement pays through. */
    const wallet: Wallets.WalletService
    /** The asset service settlement keeps positions in. */
    const book: Assets.AssetService

    ghost predicate Valid()
      reads this, wallet, book
    {
      && (forall k :: k in orders ==> k < nextOrderId)
      && (forall k :: k in items ==> k < nextItemId)
      && wallet.Valid()
      && book.Valid()
      && Assets.OnePerCoin(book.assets)
    }

    constructor (wallet: Wallets.WalletService, book: Assets.AssetService)
      requires wallet.Valid() && book.Valid() && Assets.OnePerCoin(book.assets)
      ensures Valid() && this.wallet == wallet && this.book == book
      ensures orders == map[] && items == map[] && nextOrderId == 0 && nextItemId == 0
    {
      this.wallet := wallet;
      this.book := book;
      orders := map[];
      items := map[];
      nextOrderId := 0;
      nextItemId := 0;
    }

    /**
     * What `buyAsset` does.  A negative quantity is refused before anything is
     * written (zero is accepted).  Otherwise an item priced at the coin's
     * current price and a PENDING order of price `currentPrice * quantity`
     * are saved and linked; the wallet is charged as `SettledBalance` says;
     * when the charge is refused the PENDING order stays.  When it succeeds the
     * order becomes SUCCESS and the user's asset in the coin is created at
     * `quantity`, or has its quantity overwritten with `quantity`.
     */
    twostate predicate BuyEffect(coin: Coin, quantity: real, user: UserId, new r: Result<nat>)
      reads this, wallet, book
    {
      var total := Cost(coin, quantity);
      var oi, oo := old(nextItemId), old(nextOrderId);
      var balance := old(wallet.Balance(user));
      if quantity < 0.0 then
        r == Err("Quantity must be more than zero") && unchanged(this, wallet, book)
      else
        && items == old(items)[oi := OrderItem(coin, quantity, coin.currentPrice, 0.0, Some(oo))]
        && nextItemId == oi + 1 && nextOrderId == oo + 1
        && var settled := Wallets.SettledBalance(balance, Buy, total);
           if settled.Err? then
             && r == Err(settled.msg)
             && orders == old(orders)[oo := Order(user, Buy, Pending, total, oi)]
             && wallet.StoredAs(old(wallet.wallets), user, balance)
             && unchanged(book)
           else
             && r == Ok(oo)
             && orders == old(orders)[oo := Order(user, Buy, Success, total, oi)]
             && wallet.StoredAs(old(wallet.wallets), user, settled.value)
             && match old(book.PositionOf(user, coin.id))
                case Some(k) =>
                  book.assets == old(book.assets)[k := old(book.assets)[k].(quantity := quantity)]
                case None =>
                  book.assets == old(book.assets)[old(book.nextId) := Assets.Asset(user, coin, quantity, coin.currentPrice)]
    }

    /**
     * What `sellAsset` does.  A quantity that is not positive, or a user who
     * holds no asset in the coin, is refused before anything is written.
     * Otherwise an item carrying the asset's buy price and the coin's current
     * price as sell price, and a PENDING order of price
     * `currentPrice * quantity`, are saved and linked; a quantity above the
     * held one is then refused with the PENDING order kept.  When it is not,
     * the order becomes SUCCESS, the wallet is credited the order's price, and
     * the asset's quantity is overwritten with `-quantity`; the asset is then
     * deleted when that quantity times the coin price is at most 1.
     */
    twostate predicate SellEffect(coin: Coin, quantity: real, user: UserId, new r: Result<nat>)
      reads this, wallet, book
    {
      var total := Cost(coin, quantity);
      var oi, oo := old(nextItemId), old(nextOrderId);
      var position := old(book.PositionOf(user, coin.id));
      if quantity <= 0.0 then
        r == Err("Quantity must be more than zero") && unchanged(this, wallet, book)
      else if position.None? then
        r == Err("Asset Not Found") && unchanged(this, wallet, book)
      else
        var k := position.value;
        var held := old(book.assets)[k];
        && items == old(items)[oi := OrderItem(coin, quantity, held.buyPrice, coin.currentPrice, Some(oo))]
        && nextItemId == oi + 1 && nextOrderId == oo + 1
        && if held.quantity < quantity then
             && r == Err("Insufficient Quantity to Sell Asset")
             && orders == old(orders)[oo := Order(user, Sell, Pending, total, oi)]
             && unchanged(wallet, book)
           else
             && r == Ok(oo)
             && orders == old(orders)[oo := Order(user, Sell, Success, total, oi)]
             && wallet.StoredAs(old(wallet.wallets), user, old(wallet.Balance(user)) + total)
             && book.nextId == old(book.nextId)
             && book.assets == if -quantity * coin.currentPrice <= 1.0 then old(book.assets) - {k}
                               else old(book.assets)[k := held.(quantity := -quantity)]
    }

    /** `createOrderItem`: saves an item not yet linked to an order. */
    method CreateOrderItem(coin: Coin, quantity: real, buyPrice: real, sellPrice: real) returns (k: nat)
      requires Valid()
      modifies this
      ensures Valid() && orders == old(orders) && nextOrderId == old(nextOrderId)
      ensures k == old(nextItemId) && k !in old(items) && nextItemId == k + 1
      ensures items == old(items)[k := OrderItem(coin, quantity, buyPrice, sellPrice, None)]
    {
      k := nextItemId;
      items := items[k := OrderItem(coin, quantity, buyPrice, sellPrice, None)];
      nextItemId := nextItemId + 1;
    }

    /** `createOrder`: saves a PENDING order priced at the item's coin price times its quantity. */
    method CreateOrder(user: UserId, item: nat, side: OrderType) returns (k: nat)
      requires Valid() && item in items
      modifies this
      ensures Valid() && items == old(items) && nextItemId == old(nextItemId)
      ensures k == old(nextOrderId) && k !in old(orders) && nextOrderId == k + 1
      ensures orders == old(orders)[k := Order(user, side, Pending, Cost(items[item].coin, items[item].quantity), item)]
    {
      k := nextOrderId;
      orders := orders[k := Order(user, side, Pending, Cost(items[item].coin, items[item].quantity), item)];
      nextOrderId := nextOrderId + 1;
    }

    /** `getOrderById`: the stored order, or "Order not found". */
    method GetOrderById(id: nat) returns (r: Result<Order>)
      ensures id in orders ==> r == Ok(orders[id])
      ensures id !in orders ==> r == Err("Order not found")
    {
      if id in orders {
        r := Ok(orders[id]);
      } else {
        r := Err("Order not found");
      }
    }

    /**
     * `getAllOrdersofUser`: exactly the user's orders, each row listed once
     * per key that holds it; the side and symbol filters are ignored.
     */
    method GetAllOrdersOfUser(user: UserId, side: OrderType, symbol: string) returns (r: seq<Order>)
      requires Valid()
      ensures forall o :: o in r ==> o.user == user && o in orders.Values
      ensures forall k :: k in orders && orders[k].user == user ==> orders[k] in r
      ensures forall o :: multiset(r)[o] == |set k | k in orders && orders[k].user == user && orders[k] == o|
    {
      var owned := (o: Order) => o.user == user;
      r := Store.Select(orders, owned, nextOrderId);
      forall o
        ensures multiset(r)[o] == |set k | k in orders && orders[k].user == user && orders[k] == o|
      {
        assert Store.Hits(orders, owned, nextOrderId, o) == set k | k in orders && orders[k].user == user && orders[k] == o;
      }
    }

    /**
     * The first writes of a settlement: `createOrderItem`, `createOrder` and
     * `setOrder`, which leave a saved item linked to a saved PENDING order
     * priced at `Cost(coin, quantity)`.
     */
    method OpenOrder(user: UserId, coin: Coin, quantity: real, buyPrice: real, sellPrice: real, side: OrderType)
      returns (oi: nat, oo: nat)
      requires Valid()
      modifies this
      ensures Valid()
      ensures oi == old(nextItemId) && nextItemId == oi + 1 && oo == old(nextOrderId) && nextOrderId == oo + 1
      ensures items == old(items)[oi := OrderItem(coin, quantity, buyPrice, sellPrice, Some(oo))]
      ensures orders == old(orders)[oo := Order(user, side, Pending, Cost(coin, quantity), oi)]
    {
      oi := CreateOrderItem(coin, quantity, buyPrice, sellPrice);
      oo := CreateOrder(user, oi, side);
      items := items[oi := items[oi].(order := Some(oo))];
    }

    /**
     * The asset step of `buyAsset`: creates the user's asset in the coin at
     * `quantity` when the lookup finds none, and otherwise overwrites the
     * found asset's quantity with `quantity`.
     */
    method OpenOrOverwrite(user: UserId, coin: Coin, quantity: real)
      requires Valid()
      modifies book
      ensures Valid()
      ensures match old(book.PositionOf(user, coin.id))
              case Some(k) => book.assets == old(book.assets)[k := old(book.assets)[k].(quantity := quantity)]
              case None => book.assets == old(book.assets)[old(book.nextId) := Assets.Asset(user, coin, quantity, coin.currentPrice)]
      ensures book.PositionOf(user, coin.id).Some?
      ensures book.assets[book.PositionOf(user, coin.id).value].quantity == quantity
    {
      var held := book.FindAssetByUserIdAndCoinId(user, coin.id);
      if held.None? {
        var k := book.CreateAsset(user, coin, quantity);
        OpenedPositionFound(old(book.assets), book.assets, k, user, coin, quantity, book.nextId);
      } else {
        var _ := book.UpdateAsset(held.value, quantity);
        assert book.assets[held.value].user == user && book.assets[held.value].coin.id == coin.id;
      }
    }

    /**
     * The asset step of `sellAsset`: overwrites the asset's quantity with
     * `-quantity` and deletes it when that quantity times the coin price is at
     * most 1.  For a positive quantity at a non-negative price the asset is
     * always deleted.
     */
    method CloseOut(k: nat, coin: Coin, quantity: real)
      requires Valid() && k in book.assets && book.assets[k].coin.id == coin.id
      modifies book
      ensures Valid() && book.nextId == old(book.nextId)
      ensures book.assets == if -quantity * coin.currentPrice <= 1.0 then old(book.assets) - {k}
                             else old(book.assets)[k := old(book.assets)[k].(quantity := -quantity)]
      ensures quantity > 0.0 && coin.currentPrice >= 0.0 ==> book.PositionOf(old(book.assets)[k].user, coin.id).None?
    {
      var updated := book.UpdateAsset(k, -quantity);
      if updated.value.quantity * coin.currentPrice <= 1.0 {
        book.DeleteAsset(k);
      } else {
        assert quantity > 0.0 ==> coin.currentPrice < 0.0;
      }
    }

    /** `buyAsset`, returning the key of the settled order. */
    method BuyAsset(coin: Coin, quantity: real, user: UserId) returns (r: Result<nat>)
      requires Valid()
      modifies this, wallet, book
      ensures Valid()
      ensures BuyEffect(coin, quantity, user, r)
      ensures forall u :: u != user ==> wallet.Balance(u) == old(wallet.Balance(u))
      ensures r.Ok? ==>
                && r.value in orders && orders[r.value].status == Success
                && wallet.Balance(user) == old(wallet.Balance(user)) - Cost(coin, quantity)
                && wallet.Balance(user) >= Cost(coin, quantity)
                && book.PositionOf(user, coin.id).Some?
                && book.assets[book.PositionOf(user, coin.id).value].quantity == quantity
    {
      if quantity < 0.0 {
        return Err("Quantity must be more than zero");
      }
      var price := coin.currentPrice;
      var oi, oo := OpenOrder(user, coin, quantity, price, 0.0, Buy);
      var paid := wallet.PayOrderPayment(orders[oo], user);
      if paid.Err? {
        return Err(paid.msg);
      }
      orders := orders[oo := orders[oo].(status := Success, orderType := Buy)];
      OpenOrOverwrite(user, items[oi].coin, items[oi].quantity);
      r := Ok(oo);
    }

    /**
     * The part of `sellAsset` after the quantity check: marks the order
     * SUCCESS, credits the wallet with the order's price and closes the asset.
     */
    method CompleteSale(oo: nat, k: nat, coin: Coin, quantity: real, user: UserId)
      requires Valid() && oo in orders && orders[oo].orderType == Sell && orders[oo].price == Cost(coin, quantity)
      requires k in book.assets && book.assets[k].user == user && book.assets[k].coin.id == coin.id
      modifies this, wallet, book
      ensures Valid()
      ensures items == old(items) && nextItemId == old(nextItemId) && nextOrderId == old(nextOrderId)
      ensures orders == old(orders)[oo := old(orders)[oo].(status := Success)]
      ensures wallet.StoredAs(old(wallet.wallets), user, old(wallet.Balance(user)) + Cost(coin, quantity))
      ensures forall u :: u != user ==> wallet.Balance(u) == old(wallet.Balance(u))
      ensures book.nextId == old(book.nextId)
      ensures book.assets == if -quantity * coin.currentPrice <= 1.0 then old(book.assets) - {k}
                             else old(book.assets)[k := old(book.assets)[k].(quantity := -quantity)]
      ensures quantity > 0.0 && coin.currentPrice >= 0.0 ==> book.PositionOf(user, coin.id).None?
    {
      orders := orders[oo := orders[oo].(status := Success, orderType := Sell)];
      var _ := wallet.PayOrderPayment(orders[oo], user);
      CloseOut(k, coin, quantity);
    }

    /** `sellAsset`, returning the key of the settled order. */
    method SellAsset(coin: Coin, quantity: real, user: UserId) returns (r: Result<nat>)
      requires Valid()
      modifies this, wallet, book
      ensures Valid()
      ensures SellEffect(coin, quantity, user, r)
      ensures forall u :: u != user ==> wallet.Balance(u) == old(wallet.Balance(u))
      ensures r.Ok? ==>
                && r.value in orders && orders[r.value].status == Success
                && wallet.Balance(user) == old(wallet.Balance(user)) + Cost(coin, quantity)
      ensures r.Ok? && coin.currentPrice >= 0.0 ==> book.PositionOf(user, coin.id).None?
    {
      if quantity <= 0.0 {
        return Err("Quantity must be more than zero");
      }
      var sellPrice := coin.currentPrice;
      var found := book.FindAssetByUserIdAndCoinId(user, coin.id);
      if found.None? {
        return Err("Asset Not Found");
      }
      var k := found.value;
      var held := book.assets[k];
      var oi, oo := OpenOrder(user, coin, quantity, held.buyPrice, sellPrice, Sell);
      if held.quantity < quantity {
        return Err("Insufficient Quantity to Sell Asset");
      }
      CompleteSale(oo, k, coin, quantity, user);
      r := Ok(oo);
    }

    /** `processOrder`: dispatches on the side; a missing side is refused with nothing written. */
    method ProcessOrder(coin: Coin, quantity: real, side: Option<OrderType>, user: UserId) returns (r: Result<nat>)
      requires Valid()
      modifies this, wallet, book
      ensures Valid()
      ensures side == None ==> r == Err("Invalid Order Type") && unchanged(this, wallet, book)
      ensures side == Some(Buy) ==> BuyEffect(coin, quantity, user, r)
      ensures side == Some(Sell) ==> SellEffect(coin, quantity, user, r)
      ensures forall u :: u != user ==> wallet.Balance(u) == old(wallet.Balance(u))
      ensures side == Some(Buy) && r.Ok? ==>
                && wallet.Balance(user) == old(wallet.Balance(user)) - Cost(coin, quantity)
                && book.PositionOf(user, coin.id).Some?
                && book.assets[book.PositionOf(user, coin.id).value].quantity == quantity
      ensures side == Some(Sell) && r.Ok? ==>
                && wallet.Balance(user) == old(wallet.Balance(user)) + Cost(coin, quantity)
                && (coin.currentPrice >= 0.0 ==> book.PositionOf(user, coin.id).None?)
    {
      match side
      case Some(Buy) => r := BuyAsset(coin, quantity, user);
      case Some(Sell) => r := SellAsset(coin, quantity, user);
      case None => r := Err("Invalid Order Type");
    }
  }

  /**
   * Opening an asset when the lookup found none keeps one asset per user and
   * coin, and the lookup then finds the new one.
   */
  lemma OpenedPositionFound(before: map<nat, Assets.Asset>, after: map<nat, Assets.Asset>, k: nat,
                            user: UserId, coin: Coin, quantity: real, bound: nat)
    requires Assets.OnePerCoin(before) && k !in before && k < bound
    requires forall j :: j in before ==> !(before[j].user == user && before[j].coin.id == coin.id)
    requires after == before[k := Assets.Asset(user, coin, quantity, coin.currentPrice)]
    ensures Assets.OnePerCoin(after)
    ensures Assets.PositionKey(after, user, coin.id, bound) == Some(k)
  {
    var r := Assets.PositionKey(after, user, coin.id, bound);
    assert after[k].user == user && after[k].coin.id == coin.id;
    assert r.Some?;
  }

  /**
   * A BUY the wallet can pay for, followed by a SELL of the same quantity at
   * the same price, both succeed, leave the balance where it was and leave
   * the user without an asset in the coin.
   */
  method BuyThenSell(svc: OrderService, coin: Coin, quantity: real, user: UserId)
    returns (bought: Result<nat>, sold: Result<nat>)
    requires svc.Valid()
    requires quantity > 0.0 && coin.currentPrice >= 0.0
    requires svc.wallet.Balance(user) >= 2.0 * Cost(coin, quantity)
    modifies svc, svc.wallet, svc.book
    ensures svc.Valid()
    ensures bought.Ok? && sold.Ok?
    ensures svc.wallet.Balance(user) == old(svc.wallet.Balance(user))
    ensures svc.book.PositionOf(user, coin.id).None?
  {
    bought := svc.ProcessOrder(coin, quantity, Some(Buy), user);
    sold := svc.ProcessOrder(coin, quantity, Some(Sell), user);
  }

  /**
   * Two BUYs of one coin leave the asset at the second quantity, not the sum:
   * the second BUY overwrites the quantity the first one opened.
   */
  method BuyTwice(svc: OrderService, coin: Coin, first: real, second: real, user: UserId)
    returns (r1: Result<nat>, r2: Result<nat>)
    requires svc.Valid()
    requires first >= 0.0 && second >= 0.0
    requires svc.wallet.Balance(user) >= 2.0 * Cost(coin, first)
    requires svc.wallet.Balance(user) - Cost(coin, first) >= 2.0 * Cost(coin, second)
    modifies svc, svc.wallet, svc.book
    ensures svc.Valid()
    ensures r1.Ok? && r2.Ok?
    ensures svc.book.PositionOf(user, coin.id).Some?
    ensures svc.book.assets[svc.book.PositionOf(user, coin.id).value].quantity == second
  {
    r1 := svc.ProcessOrder(coin, first, Some(Buy), user);
    r2 := svc.ProcessOrder(coin, second, Some(Buy), user);
  }
}
