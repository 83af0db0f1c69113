# tradeIn trading and wallet ledger, in Dafny

This project models the ledger core of the tradeIn crypto-trading backend:

- **order settlement:** a BUY or SELL of a quantity of a coin, priced at the coin's current price. Settlement charges or credits the user's wallet and opens, overwrites or closes the user's asset in that coin.
- **the wallet ledger:** lazily created wallets, unchecked credits, transfers, and order payments.
- **the asset book.**
- **withdrawals:** debited on request, refunded on decline.
- **deposits:** confirmed through a payment order and the gateway's reported status.
- **the watchlist toggle.**
- **the one-time-password generator.**

Each Spring service is a Dafny `class`. Its JPA repository is a `map` from surrogate key to row, plus the next key to hand out. Every method that saves rows has `modifies` on the service whose repository it writes. Its `ensures` gives the new contents of every repository it writes as a function of the old contents. The controllers are classes holding the services they call.

The model reads the Java code as follows. The first three points are standing assumptions.

- **Failures keep earlier writes.** Every service call that can fail throws the checked `java.lang.Exception`. `@Transactional` does not roll a transaction back for a checked exception, so rows saved before the throw stay saved:
  - the wallet `getUserWallet` created;
  - the order item;
  - the PENDING order.
- **One object per row.** Within one request each row is a single managed object. So `walletToWalletTransfer` reads the receiver's balance after the sender's debit has been written, and a transfer to one's own wallet changes nothing.
- **New wallets start at zero.** A new wallet's balance is zero; `Wallet` is not part of this model.
- **Keys, not entities.** Methods that return an entity in the source return its key, or the entity value, as the contract states.
- **Single-row finders.** `findByUserId` and `findByUserIdAndCoinId` find the row with the lowest key. For wallets, every user has at most one wallet (`Wallets.WellFormed`). For assets, settlement keeps at most one asset per user and coin (`Assets.OnePerCoin`).

The model follows the code as written, including these behaviours a reader of its method names and comments might not expect:

- **Balances can go negative.** A withdrawal request and `addBalance` check nothing.
- **Assets are overwritten, not adjusted.**
  - A BUY overwrites the quantity of an existing asset with the bought quantity.
  - A SELL writes `-quantity` and then deletes the asset whenever the price is non-negative.
- **Refused orders stay stored.** A refused order stays stored as PENDING, with its item.
- **BUY guard.** The BUY guard demands twice the order's price.
- **Withdrawal decisions.**
  - A withdrawal can be decided any number of times.
  - A decline credits the deciding administrator's wallet, not the wallet of the user who asked.
- **No order-status check.** The pay-order route charges an order whatever its status.
- **Captured payments.** `proceedPaymentOrder` marks a Razorpay payment reported "captured" SUCCESS on the in-memory object only. Because that object is the session's managed copy of the row, the deposit route's wallet save writes it back (`Payments.PaymentService.FlushManaged`).

Several methods outside the services, such as `Orders.BuyThenSell` and `Withdrawals.DeclineTwice`, are client sequences. They compose the service calls and state what the sequence guarantees.

## Model

| member | source | states |
|---|---|---|
| Domain.DecimalString | src/main/java/com/kakz/tradeIn/service/PaymentServiceImpl.java:97 | the id written into the not-found message is a non-empty string of decimal digits with no leading zero: a leading '0' happens only for the id 0, which is written "0" |
| Domain.DecimalRoundTrip | src/main/java/com/kakz/tradeIn/service/PaymentServiceImpl.java:97 | reading the written id back as a decimal number gives the id, so the message names the missing key exactly |
| Domain.DigitValue | src/main/java/com/kakz/tradeIn/utils/OtpUtils.java:16 | decoding a digit character inverts the encoding of a draw as a character |
| Store.Select | src/main/java/com/kakz/tradeIn/service/AssetServiceImpl.java:73-75 | a list query returns only stored rows that match, every stored row that matches, and each row as many times as there are keys holding it |
| Wallets.WalletKey | src/main/java/com/kakz/tradeIn/service/WalletServiceImpl.java:41 | `findByUserId`: a found key holds that user's wallet; finding none means no wallet belongs to the user |
| Wallets.SettledBalance | src/main/java/com/kakz/tradeIn/service/WalletServiceImpl.java:123-134 | a BUY is refused with "Insufficient funds for the Transaction" exactly when balance < 2 × price; an accepted BUY leaves balance − price, which is at least the price; a SELL always leaves balance + price |
| Wallets.OtherBalancesKept | src/main/java/com/kakz/tradeIn/service/WalletServiceImpl.java:58-63 | saving one user's wallet changes no other user's wallet lookup or balance |
| Wallets.WalletKeyKept | src/main/java/com/kakz/tradeIn/service/WalletServiceImpl.java:128-135 | rewriting a stored wallet's balance keeps one wallet per user and keeps that row its owner's wallet |
| Wallets.WalletService.WalletOf | src/main/java/com/kakz/tradeIn/service/WalletServiceImpl.java:41 | the user's wallet key holds a wallet of that user; none means no stored wallet is the user's |
| Wallets.WalletService.GetUserWallet | src/main/java/com/kakz/tradeIn/service/WalletServiceImpl.java:40-48 | returns the user's existing wallet with nothing changed, or saves exactly one new zero-balance wallet for the user under a fresh key; no other balance changes |
| Wallets.WalletService.SaveBalance | src/main/java/com/kakz/tradeIn/service/WalletServiceImpl.java:128-135 | `setBalance` plus `save`: only that row changes, it stays its owner's wallet, every other user's lookup and balance is kept |
| Wallets.WalletService.AddBalance | src/main/java/com/kakz/tradeIn/service/WalletServiceImpl.java:58-64 | the balance becomes balance + amount with no sign or sufficiency check; no other wallet changes |
| Wallets.WalletService.FindWalletById | src/main/java/com/kakz/tradeIn/service/WalletServiceImpl.java:74-80 | the stored wallet, or "Wallet not found" for an unknown key |
| Wallets.WalletService.WalletToWalletTransfer | src/main/java/com/kakz/tradeIn/service/WalletServiceImpl.java:92-107 | refused with "InSufficient funds to transfer" exactly when the sender's balance is below the amount, leaving both balances; otherwise the sender loses and the receiver gains the amount, the two balances' sum is conserved and the sender's new balance is ≥ 0; a self-transfer changes nothing |
| Wallets.WalletService.PayOrderPayment | src/main/java/com/kakz/tradeIn/service/WalletServiceImpl.java:120-137 | the user's wallet (created if missing) holds the balance `SettledBalance` gives, or is untouched with that error; no other balance changes |
| Assets.PositionKey | src/main/java/com/kakz/tradeIn/service/AssetServiceImpl.java:101-103 | `findByUserIdAndCoinId`: a found key holds an asset of that user in that coin; none found means the user holds no asset in the coin |
| Assets.AssetService.PositionOf | src/main/java/com/kakz/tradeIn/service/AssetServiceImpl.java:101-103 | a found key holds the user's asset in the coin |
| Assets.AssetService.CreateAsset | src/main/java/com/kakz/tradeIn/service/AssetServiceImpl.java:29-37 | stores one new asset with the given user, coin and quantity and buy price = the coin's current price, under a fresh key |
| Assets.AssetService.GetAssetById | src/main/java/com/kakz/tradeIn/service/AssetServiceImpl.java:47-51 | the stored asset, or "Asset not found" |
| Assets.AssetService.GetAssetByUserAndId | src/main/java/com/kakz/tradeIn/service/AssetServiceImpl.java:61-64 | always returns null |
| Assets.AssetService.GetUsersAssets | src/main/java/com/kakz/tradeIn/service/AssetServiceImpl.java:73-75 | exactly the assets owned by the user, each listed once per stored row holding it |
| Assets.AssetService.UpdateAsset | src/main/java/com/kakz/tradeIn/service/AssetServiceImpl.java:86-90 | replaces the quantity with its argument, keeping user, coin, buy price and every other asset; "Asset not found" with nothing changed for an unknown key |
| Assets.AssetService.FindAssetByUserIdAndCoinId | src/main/java/com/kakz/tradeIn/service/AssetServiceImpl.java:101-103 | a key of an asset matching both user and coin, or null exactly when no asset matches |
| Assets.AssetService.DeleteAsset | src/main/java/com/kakz/tradeIn/service/AssetServiceImpl.java:112-114 | removes only the given key |
| Orders.OrderService.CreateOrderItem | src/main/java/com/kakz/tradeIn/service/OrderServiceImpl.java:121-129 | stores one new unlinked item with the given coin, quantity, buy and sell prices |
| Orders.OrderService.CreateOrder | src/main/java/com/kakz/tradeIn/service/OrderServiceImpl.java:68-81 | stores one new PENDING order of the given user and side, priced at the item coin's current price × the item's quantity |
| Orders.OrderService.GetOrderById | src/main/java/com/kakz/tradeIn/service/OrderServiceImpl.java:91-96 | the stored order, or "Order not found" |
| Orders.OrderService.GetAllOrdersOfUser | src/main/java/com/kakz/tradeIn/service/OrderServiceImpl.java:107-110 | exactly the user's orders, each listed once per stored row holding it; the side and symbol arguments filter nothing |
| Orders.OrderService.OpenOrder | src/main/java/com/kakz/tradeIn/service/OrderServiceImpl.java:148-150 | a new item and a new PENDING order priced at price × quantity are stored and linked to each other |
| Orders.OrderService.OpenOrOverwrite | src/main/java/com/kakz/tradeIn/service/OrderServiceImpl.java:157-166 | after a BUY exactly one asset exists for (user, coin): created with the bought quantity if absent, otherwise its quantity replaced (not incremented) |
| Orders.OrderService.CloseOut | src/main/java/com/kakz/tradeIn/service/OrderServiceImpl.java:210-215 | the asset's quantity becomes −quantity and the asset is deleted when −quantity × price ≤ 1; with a positive quantity and a non-negative price it is always deleted |
| Orders.OrderService.CompleteSale | src/main/java/com/kakz/tradeIn/service/OrderServiceImpl.java:205-215 | the order becomes SUCCESS, the wallet is credited exactly price × quantity, and the asset is closed as `CloseOut` says |
| Orders.OrderService.BuyAsset | src/main/java/com/kakz/tradeIn/service/OrderServiceImpl.java:143-168 | `BuyEffect`: a negative quantity is refused with nothing written, zero is accepted; the PENDING order and item stay when the wallet refuses; on success the order is SUCCESS/BUY, the wallet is debited exactly price × quantity and still holds at least that much, and the user's asset in the coin holds the bought quantity |
| Orders.OrderService.SellAsset | src/main/java/com/kakz/tradeIn/service/OrderServiceImpl.java:181-223 | `SellEffect`: quantity ≤ 0, "Asset Not Found" and "Insufficient Quantity to Sell Asset" leave wallet and asset untouched; on success the item carries the asset's buy price and the current sell price, the order is SUCCESS/SELL, the wallet is credited price × quantity, and with a non-negative price the asset is gone |
| Orders.OrderService.ProcessOrder | src/main/java/com/kakz/tradeIn/service/OrderServiceImpl.java:238-249 | BUY behaves as `buyAsset`, SELL as `sellAsset`, a missing side fails with "Invalid Order Type" and changes nothing |
| Orders.OpenedPositionFound | src/main/java/com/kakz/tradeIn/service/OrderServiceImpl.java:157-163 | opening an asset when none was found keeps one asset per user and coin, and the lookup then finds the new one |
| Orders.BuyThenSell | src/main/java/com/kakz/tradeIn/service/OrderServiceImpl.java:143-223 | an affordable BUY followed by a SELL of the same quantity at the same price both succeed, restore the balance exactly and leave no asset |
| Orders.BuyTwice | src/main/java/com/kakz/tradeIn/service/OrderServiceImpl.java:157-166 | two affordable BUYs leave the asset at the second quantity, not the sum |
| Withdrawals.WithdrawalService.RequestWithdrawal | src/main/java/com/kakz/tradeIn/service/WithdrawalServiceImpl.java:40-48 | stores one new PENDING withdrawal with the given amount and user |
| Withdrawals.WithdrawalService.ProcedWithdrawal | src/main/java/com/kakz/tradeIn/service/WithdrawalServiceImpl.java:61-75 | "withdrawal does not exist" for an unknown key; otherwise SUCCESS when accepted and DECLINED when not, whatever the current status, with amount and user kept |
| Withdrawals.WithdrawalService.GetUsersWithdrawalHistory | src/main/java/com/kakz/tradeIn/service/WithdrawalServiceImpl.java:84-87 | exactly the user's withdrawals, each listed once per stored row holding it |
| Withdrawals.WithdrawalService.GetAllWithdrawalRequest | src/main/java/com/kakz/tradeIn/service/WithdrawalServiceImpl.java:95-98 | every stored withdrawal, each listed once per stored row holding it |
| Withdrawals.WithdrawalController.WithdrawalRequest | src/main/java/com/kakz/tradeIn/controller/WithdrawalController.java:43-60 | a PENDING withdrawal is stored and the caller's balance drops by the amount at once, with no funds check |
| Withdrawals.WithdrawalController.ProceedWithdrawal | src/main/java/com/kakz/tradeIn/controller/WithdrawalController.java:73-87 | an unknown key changes nothing; a decline credits the amount to the caller's wallet (not the requester's); an acceptance changes no balance |
| Withdrawals.RequestThenDecline | src/main/java/com/kakz/tradeIn/controller/WithdrawalController.java:43-87 | a request followed by a decline by the same user restores that user's balance exactly and leaves the withdrawal DECLINED |
| Withdrawals.RequestThenAccept | src/main/java/com/kakz/tradeIn/controller/WithdrawalController.java:43-87 | a request followed by an acceptance leaves the amount debited and the withdrawal SUCCESS |
| Withdrawals.DeclineTwice | src/main/java/com/kakz/tradeIn/controller/WithdrawalController.java:73-87 | declining the same withdrawal twice credits the amount twice |
| Payments.NotFound | src/main/java/com/kakz/tradeIn/service/PaymentServiceImpl.java:97 | the not-found message is "PaymentOrder is not found with id " followed by decimal digits that read back as the key |
| Payments.PaymentService.CreatePaymentOrder | src/main/java/com/kakz/tradeIn/service/PaymentServiceImpl.java:74-84 | stores one new PENDING payment order with the given user, amount and method |
| Payments.PaymentService.GetPaymentOrderById | src/main/java/com/kakz/tradeIn/service/PaymentServiceImpl.java:94-100 | the stored payment order, or the not-found failure for an unknown key |
| Payments.PaymentService.ProceedPaymentOrder | src/main/java/com/kakz/tradeIn/service/PaymentServiceImpl.java:111-143 | null reads as PENDING; not pending: false, nothing written; pending non-Razorpay: SUCCESS saved, true; pending Razorpay "captured": SUCCESS in memory only, true; pending Razorpay otherwise: FAILURE saved, false |
| Payments.PaymentService.FlushManaged | src/main/java/com/kakz/tradeIn/service/PaymentServiceImpl.java:126-129 | the status set on the loaded, managed order is written to its row when a later save commits, and no other row changes |
| Payments.ProceedTwice | src/main/java/com/kakz/tradeIn/service/PaymentServiceImpl.java:111-143 | after a successful non-Razorpay proceed the stored order is SUCCESS and a second proceed returns false |
| WalletRoutes.WalletController.AddMoneyToWallet | src/main/java/com/kakz/tradeIn/controller/WalletController.java:106-128 | the caller's own wallet is credited the stored order's amount exactly when the deposit is confirmed, and is otherwise left at its balance; a pending order is stored SUCCESS when confirmed and FAILURE otherwise (the captured status reaching the table with the credit's save), a decided one is left as it is; an unknown payment order fails with no balance or order changed |
| WalletRoutes.WalletController.WalletToWalletTransfer | src/main/java/com/kakz/tradeIn/controller/WalletController.java:60-72 | an unknown receiver key fails with "Wallet not found" and changes nothing; a short sender balance fails with "InSufficient funds to transfer" and only the sender's wallet fetch stored; otherwise the new wallet table is the old one with the sender debited and the receiver credited the amount, the sender left non-negative, and a self-transfer changing nothing |
| WalletRoutes.WalletController.PayOrderPayment | src/main/java/com/kakz/tradeIn/controller/WalletController.java:84-94 | "Order not found" with nothing written, or the order is settled against the caller's wallet whatever its status |
| WalletRoutes.DepositTwice | src/main/java/com/kakz/tradeIn/controller/WalletController.java:106-128 | depositing through the same payment order twice credits the caller at most once: by the amount if the first deposit is confirmed, else not at all |
| WalletRoutes.PayTwice | src/main/java/com/kakz/tradeIn/controller/WalletController.java:84-94 | paying the same BUY order twice through the route charges its price twice |
| Watchlists.FirstIndex | src/main/java/com/kakz/tradeIn/service/WatchlistServiceImpl.java:84 | the position of the first occurrence of the coin |
| Watchlists.RemoveFirst | src/main/java/com/kakz/tradeIn/service/WatchlistServiceImpl.java:83-84 | an unlisted coin leaves the list as it is; a listed one loses its first occurrence, the other coins keeping their order, so exactly one copy leaves and the list shrinks by one |
| Watchlists.ToggleTwiceRestores | src/main/java/com/kakz/tradeIn/service/WatchlistServiceImpl.java:83-88 | toggling an absent coin appends it, and toggling it again gives back the original list |
| Watchlists.DropKeepsNoDuplicates | src/main/java/com/kakz/tradeIn/service/WatchlistServiceImpl.java:83-84 | removing one position from a duplicate-free list keeps it duplicate-free and removes that coin |
| Watchlists.ToggleKeepsNoDuplicates | src/main/java/com/kakz/tradeIn/service/WatchlistServiceImpl.java:83-88 | a list naming no coin row twice (compared by coin key) still names none twice after a toggle, and names the coin exactly when it did not before |
| Watchlists.WatchlistKey | src/main/java/com/kakz/tradeIn/service/WatchlistServiceImpl.java:33 | `findByUserId`: the first stored watchlist of the user, or none when the user has none |
| Watchlists.WatchlistKeyKept | src/main/java/com/kakz/tradeIn/service/WatchlistServiceImpl.java:88 | saving a watchlist's coin list does not change which watchlist a user's lookup finds |
| Watchlists.WatchlistService.FindUserWatchlist | src/main/java/com/kakz/tradeIn/service/WatchlistServiceImpl.java:32-39 | the user's first watchlist, or "watchlist is not found" exactly when the user has none |
| Watchlists.WatchlistService.CreateWatchList | src/main/java/com/kakz/tradeIn/service/WatchlistServiceImpl.java:48-53 | stores one new empty watchlist bound to the user |
| Watchlists.WatchlistService.FindById | src/main/java/com/kakz/tradeIn/service/WatchlistServiceImpl.java:63-69 | the stored watchlist, or "Watchlist not found" |
| Watchlists.WatchlistService.AddItemToWatchlist | src/main/java/com/kakz/tradeIn/service/WatchlistServiceImpl.java:81-91 | fails with "watchlist is not found" when the user has none; otherwise removes the coin's first occurrence if its row is listed (matched by key, whatever its current price) and appends it if not, and returns the coin |
| Watchlists.AddTwice | src/main/java/com/kakz/tradeIn/service/WatchlistServiceImpl.java:81-91 | adding an unlisted coin twice leaves the repository as it was, also when the second call carries the coin at a newer price |
| Otp.GenerateOtp | src/main/java/com/kakz/tradeIn/utils/OtpUtils.java:11-19 | exactly six characters, each a decimal digit, character i encoding the i-th draw; a leading zero is kept |

## Left out

- Market data: the CoinGecko calls are not modelled. A coin is an input value holding its id and current price, and `Coin`'s other fields are left out. A watchlist refers to coin rows, so the model stores their keys and compares coins by key.
- Coin snapshots in assets and order items: an `Asset` or `OrderItem` row in the model keeps a copy of the coin as it was when saved, while the source's row refers to the live coin row. No contract reads that copy's price, so nothing stated depends on it; settlement prices come from the coin passed in.
- Payment gateway calls: the Razorpay `payments.fetch` is not modelled. The status it reports is an input. Its `RazorpayException` and the payment amount it reads (unused by the code) are left out. Payment link creation is left out too.
- Authentication: JWT parsing and the user lookup it drives are not modelled. The caller is a parameter.
- Timestamps: `setTimestamp` and `setDate` write clock values that no rule reads, so they are not modelled.
- Floating point: prices, quantities and balances are exact reals. Double rounding and the `BigDecimal.valueOf(double)` conversion are not modelled.
- 64-bit arithmetic: amounts are unbounded integers. The overflow of negating `Long.MIN_VALUE` in the withdrawal debit is not modelled.
- Transactions: rollback machinery, flushing and concurrency between requests are not modelled. Calls run one after another, and a checked exception keeps earlier writes.
- Payments.PaymentService.ProceedPaymentOrder: a "captured" Razorpay order's in-memory SUCCESS is not written by the service itself. The deposit route writes it back with the wallet save. A write-back by some other save later in the request is not modelled.
- Payments.PaymentService.ProceedPaymentOrder: the method takes the key of a stored payment order rather than an arbitrary `PaymentOrder` object, because its only caller passes one it has just loaded.
- Wallets.WalletService.WalletToWalletTransfer: the method requires the receiver to be a stored wallet, because its caller passes a wallet it has just loaded.
- Null balances: `Wallet` is not part of this model, and a new wallet's balance is taken to be zero. So the null-balance patch in `addMoneyToWallet` (WalletController.java:114-116) never fires and is not modelled.
- Non-unique finders: when `findByUserId` would match several rows, the model returns the lowest key. JPA would throw `IncorrectResultSizeDataAccessException`; that exception is not modelled. Wallets and assets never have several matches. Watchlists can, since `createWatchList` does not check for an existing one.
- List order: the contracts of list queries state which rows are returned and how often, not their order, because the repository promises no order.
- Other components: the coin service, payment-link and payment-details services, the user, OTP-delivery and password flows, the wallet transaction service (a stub), and the thin CRUD controllers are not part of this model.
