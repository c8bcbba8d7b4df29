/** Properties of whole request histories: every store reachable from the
    empty schema is consistent, an order that has left READY never changes
    again, retries after settlement are refused, and the worked scenarios of
    the payment flow. Also the counterexample showing what the freeze step
    does with a negative amount when it is run as written. */
module Properties {
  import opened Models
  import opened Ledger
  import opened Escrow
  import opened Preservation

  /** One handled request, with the ids the handler would generate. */
  datatype Request =
    | BuyReq(userId: UserId, amount: Cents, txId: TxId)
    | PrepareReq(userId: UserId, merchant: string, amount: Cents, orderId: OrderId)
    | ConfirmReq(orderId: OrderId, txId: TxId)
    | CancelReq(orderId: OrderId, txId: TxId)
    | WalletReq(userId: UserId)

  function Apply(s: State, q: Request): State
  {
    match q
    case BuyReq(u, amount, tx) => BuyStep(s, u, amount, tx).state
    case PrepareReq(u, merchant, amount, oid) => PrepareStep(s, u, merchant, amount, oid).state
    case ConfirmReq(oid, tx) => ConfirmStep(s, oid, tx).state
    case CancelReq(oid, tx) => CancelStep(s, oid, tx).state
    case WalletReq(u) => OpenWallet(s, u)
  }

  /** The store after handling `qs` one after another, each atomically. */
  function Run(s: State, qs: seq<Request>): State
    decreases |qs|
  {
    if qs == [] then s else Run(Apply(s, qs[0]), qs[1..])
  }

  lemma ApplyPreservesInv(s: State, q: Request)
    requires Inv(s)
    ensures Inv(Apply(s, q))
  {
    match q
    case BuyReq(u, amount, tx) => BuyPreservesInv(s, u, amount, tx);
    case PrepareReq(u, merchant, amount, oid) => PreparePreservesInv(s, u, merchant, amount, oid);
    case ConfirmReq(oid, tx) => ConfirmPreservesInv(s, oid, tx);
    case CancelReq(oid, tx) => CancelPreservesInv(s, oid, tx);
    case WalletReq(u) => OpenWalletPreservesInv(s, u);
  }

  lemma EvolvesTransitive(s1: State, s2: State, s3: State)
    requires Evolves(s1, s2) && Evolves(s2, s3)
    ensures Evolves(s1, s3)
  {
  }

  /** Over any history wallets and orders are never deleted, orders only
      leave READY, and the order log and the ledger only grow. */
  lemma {:induction false} RunEvolves(s: State, qs: seq<Request>)
    ensures Evolves(s, Run(s, qs))
    decreases |qs|
  {
    if qs != [] {
      var s1 := Apply(s, qs[0]);
      assert Evolves(s, s1);
      RunEvolves(s1, qs[1..]);
      EvolvesTransitive(s, s1, Run(s1, qs[1..]));
    }
  }

  /** Over any history the store stays consistent. */
  lemma {:induction false} RunPreservesInv(s: State, qs: seq<Request>)
    requires Inv(s)
    ensures Inv(Run(s, qs))
    decreases |qs|
  {
    if qs != [] {
      ApplyPreservesInv(s, qs[0]);
      RunPreservesInv(Apply(s, qs[0]), qs[1..]);
    }
  }

  /** In every store reachable from the empty schema, no amount is negative,
      each wallet's frozen amount is what its READY orders hold, and each
      wallet holds what it bought minus what it paid. */
  lemma ReachableStoresBalance(qs: seq<Request>)
    ensures var t := Run(Empty(), qs);
      Inv(t) &&
      forall u :: u in t.wallets ==>
        t.wallets[u].balance >= 0 && t.wallets[u].frozen >= 0 &&
        t.wallets[u].frozen == ReadySum(t.orders, t.orderLog, u) &&
        t.wallets[u].balance + t.wallets[u].frozen == Total(t.ledger, u, Buy) - Total(t.ledger, u, Pay)
  {
    EmptyInv();
    RunPreservesInv(Empty(), qs);
    InvNonNegative(Run(Empty(), qs));
  }

  /** An order that has left READY stays exactly as it is, whatever follows. */
  lemma TerminalIsFinal(s: State, qs: seq<Request>, oid: OrderId)
    requires oid in s.orders && s.orders[oid].status != Ready
    ensures oid in Run(s, qs).orders && Run(s, qs).orders[oid] == s.orders[oid]
  {
    RunEvolves(s, qs);
  }

  /** Once confirm has settled an order, a second confirm and a later cancel
      are refused with InvalidOrder and change nothing. */
  lemma SettledOrderRefusesRetry(s: State, oid: OrderId, tx: TxId, tx2: TxId)
    requires ConfirmStep(s, oid, tx).result.Ok?
    ensures var t := ConfirmStep(s, oid, tx).state;
      ConfirmStep(t, oid, tx2) == Step(Err(InvalidOrder), t) &&
      CancelStep(t, oid, tx2) == Step(Err(InvalidOrder), t)
  {
  }

  /** Once cancel has released an order, a later confirm and a second cancel
      are refused with InvalidOrder and change nothing. */
  lemma CanceledOrderRefusesRetry(s: State, oid: OrderId, tx: TxId, tx2: TxId)
    requires CancelStep(s, oid, tx).result.Ok?
    ensures var t := CancelStep(s, oid, tx).state;
      ConfirmStep(t, oid, tx2) == Step(Err(InvalidOrder), t) &&
      CancelStep(t, oid, tx2) == Step(Err(InvalidOrder), t)
  {
  }

  /** A buy of zero or of a negative amount is refused and changes nothing. */
  lemma NonPositiveBuyRefused(s: State, u: UserId, amount: Cents, tx: TxId)
    requires amount <= 0
    ensures BuyStep(s, u, amount, tx) == Step(Err(InvalidAmount), s)
  {
  }

  /** The worked flow, in cents: buy 100.00, freeze 80.00, then either settle
      (20.00 left, nothing frozen, one PAY of 80.00) or release (100.00
      back, one REFUND of 80.00); a retry after either is refused. */
  lemma PaymentFlowScenario()
    ensures var b := BuyStep(Empty(), "alice", 10000, "t1");
      b.result == Ok(10000) &&
      var p := PrepareStep(b.state, "alice", "shop", 8000, "o1");
      p.result == Ok(Hold("o1", 8000)) &&
      p.state.wallets["alice"] == Wallet("alice", 2000, 8000) &&
      p.state.orders["o1"].status == Ready &&
      var c := ConfirmStep(p.state, "o1", "t2");
      c.result == Ok(Ticket("o1", Completed)) &&
      c.state.wallets["alice"] == Wallet("alice", 2000, 0) &&
      c.state.ledger == b.state.ledger + [Entry("t2", "alice", Pay, 8000, Some("o1"))] &&
      ConfirmStep(c.state, "o1", "t3").result == Err(InvalidOrder) &&
      var x := CancelStep(p.state, "o1", "t2");
      x.result == Ok(Ticket("o1", Canceled)) &&
      x.state.wallets["alice"] == Wallet("alice", 10000, 0) &&
      x.state.ledger == b.state.ledger + [Entry("t2", "alice", Refund, 8000, Some("o1"))] &&
      ConfirmStep(x.state, "o1", "t3").result == Err(InvalidOrder)
  {
    var b := BuyStep(Empty(), "alice", 10000, "t1");
    assert "t2" !in TxIds(b.state.ledger);
  }

  /** Freezing for a user who never bought anything is refused with
      WalletNotFound and creates no order. */
  lemma FreezeWithoutWalletRefused(s: State, u: UserId, merchant: string, amount: Cents, oid: OrderId)
    requires u !in s.wallets && amount > 0
    ensures PrepareStep(s, u, merchant, amount, oid) == Step(Err(WalletNotFound), s)
  {
  }

  /** prepare as written, from any consistent store, accepts every amount of
      zero or less for an existing wallet and a new order id, and the store
      it leaves is no longer consistent: the new READY order holds a
      non-positive amount. */
  lemma NonPositivePrepareAsWrittenBreaksInv(s: State, u: UserId, merchant: string,
                                             amount: Cents, oid: OrderId)
    requires Inv(s) && u in s.wallets && oid !in s.orders && amount <= 0
    ensures PrepareAsWritten(s, u, merchant, amount, oid).result == Ok(Hold(oid, amount))
    ensures !Inv(PrepareAsWritten(s, u, merchant, amount, oid).state)
  {
    var t := PrepareAsWritten(s, u, merchant, amount, oid).state;
    assert t.orders[oid].amount <= 0;
    assert !Owned(t);
  }

  /** A store holding one empty wallet and nothing else. */
  function OneEmptyWallet(): State
  {
    State(map["alice" := NewWallet("alice")], map[], [], [])
  }

  lemma OneEmptyWalletInv()
    ensures Inv(OneEmptyWallet())
  {
    var s0 := OneEmptyWallet();
    assert ReadySum(s0.orders, s0.orderLog, "alice") == 0;
  }

  /** prepare as written accepts a negative amount: from a consistent store
      it raises the balance and drives the frozen amount below zero, and
      confirming that order then leaves a wallet that never bought anything
      with 5.00 to spend. The checked prepare refuses the same request. */
  lemma NegativePrepareMints()
    ensures Inv(OneEmptyWallet())
    ensures var p := PrepareAsWritten(OneEmptyWallet(), "alice", "shop", -500, "o1");
      p.result == Ok(Hold("o1", -500)) &&
      p.state.wallets["alice"] == Wallet("alice", 500, -500) &&
      !Inv(p.state) &&
      var c := ConfirmStep(p.state, "o1", "t1");
      c.result == Ok(Ticket("o1", Completed)) &&
      c.state.wallets["alice"] == Wallet("alice", 500, 0) &&
      Total(c.state.ledger, "alice", Buy) == 0
    ensures PrepareStep(OneEmptyWallet(), "alice", "shop", -500, "o1") == Step(Err(InvalidAmount), OneEmptyWallet())
  {
    OneEmptyWalletInv();
    var p := PrepareAsWritten(OneEmptyWallet(), "alice", "shop", -500, "o1");
    assert !Owned(p.state) by {
      assert p.state.orders["o1"].amount == -500;
    }
    var c := ConfirmStep(p.state, "o1", "t1");
    assert c.state.ledger == [Entry("t1", "alice", Pay, -500, Some("o1"))];
    assert Total(c.state.ledger, "alice", Buy) == Total([], "alice", Buy) + 0;
  }
}
