/** The payment backend as a store object whose handlers update its tables
    in place. Each handler runs as one atomic transaction: it either returns
    an error and leaves every table as it was, or applies all of its writes.
    Each is proved to do exactly what the corresponding step of the escrow
    state machine describes, and so to keep the store consistent. */
module Service {
  import opened Models
  import opened Ledger
  import opened Escrow
  import opened Preservation
  import opened Queries

  class PaymentService {
    var wallets: map<UserId, Wallet>
    var orders: map<OrderId, Order>
    var orderLog: seq<OrderId>
    var ledger: seq<Entry>

    /** The current contents of the three tables. */
    function Snapshot(): State
      reads this
    {
      State(wallets, orders, orderLog, ledger)
    }

    ghost predicate Valid()
      reads this
    {
      Inv(Snapshot())
    }

    /** A freshly bootstrapped schema: every table empty. */
    constructor ()
      ensures Valid() && Snapshot() == Empty()
    {
      wallets, orders, orderLog, ledger := map[], map[], [], [];
    }

    /** POST /api/buy: charge `amount` to the wallet of `userId`, creating
        the wallet first if it does not exist; `txId` is the id of the BUY
        row. Answers the new balance. */
    method BuyNsc(userId: UserId, amount: Cents, txId: TxId) returns (r: Result<Cents>)
      requires Valid()
      modifies this
      ensures Valid()
      ensures Step(r, Snapshot()) == BuyStep(old(Snapshot()), userId, amount, txId)
    {
      ghost var s0 := Snapshot();
      if amount <= 0 {
        return Err(InvalidAmount);
      }
      if txId in TxIds(ledger) {
        return Err(DuplicateKey);
      }
      CreditInPlace(userId, amount, txId);
      r := Ok(wallets[userId].balance);
      BuyCommits(s0, userId, amount, txId);
      BuyPreservesInv(s0, userId, amount, txId);
    }

    /** The writes of a buy that passed its checks: create the wallet of
        `userId` if it is missing, raise its balance by `amount` and append
        the BUY row `txId`. */
    method CreditInPlace(userId: UserId, amount: Cents, txId: TxId)
      modifies this
      ensures Snapshot() == Credit(OpenWallet(old(Snapshot()), userId), userId, amount, txId)
    {
      var wallet: Wallet;
      if userId in wallets {
        wallet := wallets[userId];
      } else {
        wallet := NewWallet(userId);
      }
      wallet := wallet.(balance := wallet.balance + amount);
      wallets := wallets[userId := wallet];
      ledger := ledger + [Entry(txId, userId, Buy, amount, None)];
    }

    /** POST /api/pay/prepare: freeze `amount` of the balance of `userId`
        against a new READY order `orderId` for `merchant`. */
    method PreparePayment(userId: UserId, merchant: string, amount: Cents, orderId: OrderId)
      returns (r: Result<Hold>)
      requires Valid()
      modifies this
      ensures Valid()
      ensures Step(r, Snapshot()) == PrepareStep(old(Snapshot()), userId, merchant, amount, orderId)
    {
      ghost var s0 := Snapshot();
      if amount <= 0 {
        return Err(InvalidAmount);
      }
      if userId !in wallets {
        return Err(WalletNotFound);
      }
      var wallet := wallets[userId];
      if wallet.balance < amount {
        return Err(InsufficientBalance);
      }
      if orderId in orders {
        return Err(DuplicateKey);
      }
      FreezeInPlace(userId, merchant, amount, orderId);
      r := Ok(Hold(orderId, amount));
      PrepareCommits(s0, userId, merchant, amount, orderId);
      PreparePreservesInv(s0, userId, merchant, amount, orderId);
    }

    /** The writes of a prepare that passed its checks: move `amount` from
        the balance of `userId` to its frozen amount and insert the READY
        order `orderId`. */
    method FreezeInPlace(userId: UserId, merchant: string, amount: Cents, orderId: OrderId)
      requires userId in wallets
      modifies this
      ensures Snapshot() == Freeze(old(Snapshot()), userId, merchant, amount, orderId)
    {
      var wallet := wallets[userId];
      wallet := wallet.(balance := wallet.balance - amount, frozen := wallet.frozen + amount);
      wallets := wallets[userId := wallet];
      orders := orders[orderId := NewOrder(orderId, userId, merchant, amount)];
      orderLog := orderLog + [orderId];
    }

    /** POST /api/pay/confirm: settle the READY order `orderId`; `txId` is
        the id of the PAY row. */
    method ConfirmPayment(orderId: OrderId, txId: TxId) returns (r: Result<Ticket>)
      requires Valid()
      modifies this
      ensures Valid()
      ensures Step(r, Snapshot()) == ConfirmStep(old(Snapshot()), orderId, txId)
    {
      ghost var s0 := Snapshot();
      if orderId !in orders || orders[orderId].status != Ready {
        return Err(InvalidOrder);
      }
      if txId in TxIds(ledger) {
        return Err(DuplicateKey);
      }
      SettleInPlace(orderId, txId);
      r := Ok(Ticket(orderId, Completed));
      ConfirmCommits(s0, orderId, txId);
      ConfirmPreservesInv(s0, orderId, txId);
    }

    /** The writes of a confirm that passed its checks: take the order's
        amount out of its wallet's frozen amount, mark it COMPLETED and
        append the PAY row `txId`. */
    method SettleInPlace(orderId: OrderId, txId: TxId)
      requires orderId in orders && orders[orderId].userId in wallets
      modifies this
      ensures Snapshot() == Settle(old(Snapshot()), orderId, txId)
    {
      var order := orders[orderId];
      var wallet := wallets[order.userId];
      wallet := wallet.(frozen := wallet.frozen - order.amount);
      wallets := wallets[order.userId := wallet];
      orders := orders[orderId := order.(status := Completed)];
      ledger := ledger + [Entry(txId, order.userId, Pay, order.amount, Some(orderId))];
    }

    /** POST /api/pay/cancel: release the READY order `orderId`; `txId` is
        the id of the REFUND row. */
    method CancelPayment(orderId: OrderId, txId: TxId) returns (r: Result<Ticket>)
      requires Valid()
      modifies this
      ensures Valid()
      ensures Step(r, Snapshot()) == CancelStep(old(Snapshot()), orderId, txId)
    {
      ghost var s0 := Snapshot();
      if orderId !in orders || orders[orderId].status != Ready {
        return Err(InvalidOrder);
      }
      if txId in TxIds(ledger) {
        return Err(DuplicateKey);
      }
      ReleaseInPlace(orderId, txId);
      r := Ok(Ticket(orderId, Canceled));
      CancelCommits(s0, orderId, txId);
      CancelPreservesInv(s0, orderId, txId);
    }

    /** The writes of a cancel that passed its checks: move the order's
        amount from its wallet's frozen amount back to the balance, mark it
        CANCELED and append the REFUND row `txId`. */
    method ReleaseInPlace(orderId: OrderId, txId: TxId)
      requires orderId in orders && orders[orderId].userId in wallets
      modifies this
      ensures Snapshot() == Release(old(Snapshot()), orderId, txId)
    {
      var order := orders[orderId];
      var wallet := wallets[order.userId];
      wallet := wallet.(balance := wallet.balance + order.amount, frozen := wallet.frozen - order.amount);
      wallets := wallets[order.userId := wallet];
      orders := orders[orderId := order.(status := Canceled)];
      ledger := ledger + [Entry(txId, order.userId, Refund, order.amount, Some(orderId))];
    }

    /** GET /api/wallet/{user_id}: the wallet of `userId` with its ten newest
        entries. A wallet not seen before is created with zero amounts. */
    method GetWallet(userId: UserId) returns (view: WalletView)
      requires Valid()
      modifies this
      ensures Valid()
      ensures Snapshot() == OpenWallet(old(Snapshot()), userId)
      ensures view == ViewOf(Snapshot(), userId)
    {
      OpenWalletPreservesInv(Snapshot(), userId);
      if userId !in wallets {
        wallets := wallets[userId := NewWallet(userId)];
      }
      var wallet := wallets[userId];
      view := WalletView(userId, wallet.balance, wallet.frozen, RecentTransactions(ledger, userId));
    }

    /** GET /api/admin/ledger: the fifty newest ledger entries, newest first. */
    method GetAllLedger() returns (entries: seq<Entry>)
      ensures entries == RecentLedger(ledger)
      ensures |entries| <= AdminListLimit
      ensures forall i :: 0 <= i < |entries| ==> entries[i] == ledger[|ledger| - 1 - i]
    {
      entries := RecentLedger(ledger);
    }

    /** GET /api/admin/orders: the fifty newest orders, newest first. */
    method GetAllOrders() returns (list: seq<Order>)
      requires LogMatches(Snapshot())
      ensures list == RecentOrders(Snapshot())
      ensures |list| <= AdminListLimit
      ensures forall i :: 0 <= i < |list| ==> list[i] == orders[orderLog[|orderLog| - 1 - i]]
    {
      list := RecentOrders(Snapshot());
    }
  }
}
