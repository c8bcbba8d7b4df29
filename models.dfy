/** The three record shapes of the payment backend: user wallets, payment
    orders and the transaction ledger.

    Every amount column is declared Numeric(18, 2). The model takes every
    amount as a whole number of hundredths (cents); how the storage engine
    keeps and rounds other values is not modelled. */
module Models {

  type UserId = string
  type OrderId = string
  type TxId = string

  /** An amount in hundredths of a unit: the two decimal places the columns declare. */
  type Cents = int

  datatype Option<T> = None | Some(value: T)

  /** A row of user_wallets, keyed by userId: the available balance and the
      amount held back for payments still in progress. */
  datatype Wallet = Wallet(userId: UserId, balance: Cents, frozen: Cents)

  /** The row inserted for a user seen for the first time: both amounts
      take their 0.00 default. */
  function NewWallet(u: UserId): Wallet
  {
    Wallet(u, 0, 0)
  }

  /** The domain of payment_orders.status. */
  datatype Status = Ready | Completed | Canceled

  /** The only status changes an order may undergo: out of READY, into one of
      the two terminal states. */
  predicate CanMove(from: Status, to: Status)
  {
    from == Ready && to != Ready
  }

  /** A row of payment_orders, keyed by orderId. */
  datatype Order = Order(orderId: OrderId, userId: UserId, merchant: string,
                         amount: Cents, status: Status)

  /** The order inserted by the freeze step; its status takes the READY default. */
  function NewOrder(id: OrderId, u: UserId, merchant: string, amount: Cents): Order
  {
    Order(id, u, merchant, amount, Ready)
  }

  /** The domain of transaction_ledger.type. */
  datatype TxType = Buy | Pay | Refund

  /** A row of transaction_ledger, keyed by txId. A charge (BUY) carries no
      related order; a settlement (PAY) or a release (REFUND) names its order. */
  datatype Entry = Entry(txId: TxId, walletId: UserId, kind: TxType,
                         amount: Cents, relatedId: Option<OrderId>)

  /** What every entry the backend writes looks like. */
  predicate WellFormedEntry(e: Entry)
  {
    e.amount > 0 && (e.kind == Buy <==> e.relatedId == None)
  }
}
