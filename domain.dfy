/**
 * Shared vocabulary of the trading ledger: identifiers, the coin snapshot the
 * settlement core prices against, and the result type that stands for a
 * service call that either returns or throws `java.lang.Exception`.
 */
module Domain {
  /** Surrogate key of a user; the caller resolved from the bearer token is passed as one. */
  type UserId = nat

  /** External (market-data) identifier of a coin. */
  type CoinId = string

  /** A value or Java's `null`. */
  datatype Option<+T> = None | Some(value: T)

  /** The outcome of a service call: a value, or a thrown exception carrying its message. */
  datatype Result<+T> = Ok(value: T) | Err(msg: string)

  /** A coin as the settlement core reads it: its id and its latest quoted price. */
  datatype Coin = Coin(id: CoinId, currentPrice: real)

  /** Side of a trade. */
  datatype OrderType = Buy | Sell

  /** Lifecycle of an order: the statuses settlement writes, PENDING on creation and SUCCESS once settled. */
  datatype OrderStatus = Pending | Success

  /**
   * A stored order: who placed it, its side and status, its price (coin price
   * times quantity, fixed when it is created) and the key of its order item.
   */
  datatype Order = Order(user: UserId, orderType: OrderType, status: OrderStatus, price: real, item: nat)

  /**
   * A stored order item: the coin (with the price it was read at), the
   * quantity, the buy and sell prices, and the key of the order that owns it
   * once `setOrder` has linked the two.
   */
  datatype OrderItem = OrderItem(coin: Coin, quantity: real, buyPrice: real, sellPrice: real, order: Option<nat>)

  /** What `quantity` units of `coin` cost at its current price: the price `createOrder` gives an order. */
  function Cost(coin: Coin, quantity: real): real
  {
    coin.currentPrice * quantity
  }

  /** The character of the decimal digit `d`. */
  function DigitChar(d: nat): (c: char)
    requires d < 10
    ensures '0' <= c <= '9'
  {
    ('0' as int + d) as char
  }

  /** The digit a decimal character stands for. */
  function DigitValue(c: char): (d: nat)
    requires '0' <= c <= '9'
    ensures d < 10 && DigitChar(d) == c
  {
    c as int - '0' as int
  }

  /** Every character is a decimal digit. */
  predicate IsDecimal(s: string)
  {
    forall i :: 0 <= i < |s| ==> '0' <= s[i] <= '9'
  }

  /** The number a string of decimal digits denotes, most significant digit first. */
  function DecimalValue(s: string): nat
    requires IsDecimal(s)
  {
    if s == [] then 0 else DecimalValue(s[..|s| - 1]) * 10 + DigitValue(s[|s| - 1])
  }

  /**
   * Java's decimal rendering of a non-negative `long`, as string
   * concatenation writes it: at least one digit, and no leading zero except
   * in "0" itself.
   */
  function DecimalString(n: nat): (s: string)
    ensures 1 <= |s| && IsDecimal(s)
    ensures s[0] == '0' ==> n == 0 && s == "0"
  {
    if n < 10 then [DigitChar(n)] else DecimalString(n / 10) + [DigitChar(n % 10)]
  }

  /** Rendering a number in decimal and reading it back gives the number. */
  lemma {:induction false} DecimalRoundTrip(n: nat)
    ensures DecimalValue(DecimalString(n)) == n
  {
    if n >= 10 {
      var s := DecimalString(n / 10);
      var t := s + [DigitChar(n % 10)];
      DecimalRoundTrip(n / 10);
      assert t[..|t| - 1] == s;
    }
  }
}
