/** The escrow payment state machine: charging a wallet (buy), freezing an
    amount against a new order (prepare), settling it (confirm) and releasing
    it (cancel), each as one atomic step from a store state to a result and a
    new store state. A failed step returns the state it was given: every
    handler raises before it mutates, or its transaction rolls back. */
module Escrow {
  import opened Models
  import opened Ledger

  /** Why a step was refused. */
  datatype Error =
    | InvalidAmount        // a non-positive amount
    | WalletNotFound       // no wallet row for the user
    | InsufficientBalance  // the available balance is below the amount
    | InvalidOrder         // no such order, or it has left READY
    | DuplicateKey         // a new row's primary key is taken: the commit fails

  datatype Result<T> = Ok(value: T) | Err(error: Error)

  /** The answer of prepare: the new order and the amount it froze. */
  datatype Hold = Hold(orderId: OrderId, frozenAmount: Cents)

  /** The answer of confirm and cancel: the order and its new status. */
  datatype Ticket = Ticket(orderId: OrderId, status: Status)

  /** The three tables. `orderLog` lists the order ids in creation order,
      which is the order the created_at column records. */
  datatype State = State(wallets: map<UserId, Wallet>,
                         orders: map<OrderId, Order>,
                         orderLog: seq<OrderId>,
                         ledger: seq<Entry>)

  datatype Step<T> = Step(result: Result<T>, state: State)

  function Empty(): State
  {
    State(map[], map[], [], [])
  }

  // ---------------------------------------------------------------------
  // Frozen funds: the sum of a user's READY orders

  /** What order `o` holds frozen in the wallet of `u`. */
  function Held(orders: map<OrderId, Order>, o: OrderId, u: UserId): int
  {
    if o in orders && orders[o].userId == u && orders[o].status == Ready
    then orders[o].amount else 0
  }

  /** The sum of the amounts of the READY orders of `u` listed in `log`. */
  function ReadySum(orders: map<OrderId, Order>, log: seq<OrderId>, u: UserId): int
  {
    if log == [] then 0
    else ReadySum(orders, log[..|log| - 1], u) + Held(orders, log[|log| - 1], u)
  }

  predicate Distinct<T(==)>(s: seq<T>)
  {
    forall i, j :: 0 <= i < j < |s| ==> s[i] != s[j]
  }

  lemma ReadySumAppend(orders: map<OrderId, Order>, log: seq<OrderId>, o: OrderId, u: UserId)
    ensures ReadySum(orders, log + [o], u) == ReadySum(orders, log, u) + Held(orders, o, u)
  {
    assert (log + [o])[..|log|] == log;
  }

  /** Changing an order that `log` does not list leaves the sum alone. */
  lemma {:induction false} ReadySumFrame(orders: map<OrderId, Order>, log: seq<OrderId>,
                                         o: OrderId, x: Order, u: UserId)
    requires o !in log
    ensures ReadySum(orders[o := x], log, u) == ReadySum(orders, log, u)
  {
    if log != [] {
      ReadySumFrame(orders, log[..|log| - 1], o, x, u);
    }
  }

  /** A user who owns no order has nothing frozen. */
  lemma {:induction false} ReadySumAbsent(orders: map<OrderId, Order>, log: seq<OrderId>, u: UserId)
    requires forall o :: o in orders ==> orders[o].userId != u
    ensures ReadySum(orders, log, u) == 0
  {
    if log != [] {
      ReadySumAbsent(orders, log[..|log| - 1], u);
    }
  }

  /** With positive order amounts, nothing frozen is ever negative. */
  lemma {:induction false} ReadySumNonNegative(orders: map<OrderId, Order>, log: seq<OrderId>, u: UserId)
    requires forall o :: o in orders ==> orders[o].amount > 0
    ensures ReadySum(orders, log, u) >= 0
  {
    if log != [] {
      ReadySumNonNegative(orders, log[..|log| - 1], u);
    }
  }

  /** Moving a listed READY order to a terminal status takes exactly its
      amount off its owner's sum and nothing off anyone else's. */
  lemma {:induction false} ReadySumRelease(orders: map<OrderId, Order>, log: seq<OrderId>,
                                           o: OrderId, st: Status, u: UserId)
    requires Distinct(log) && o in log
    requires o in orders && orders[o].status == Ready && st != Ready
    ensures ReadySum(orders[o := orders[o].(status := st)], log, u)
         == ReadySum(orders, log, u) - (if orders[o].userId == u then orders[o].amount else 0)
  {
    var after := orders[o := orders[o].(status := st)];
    var init, last := log[..|log| - 1], log[|log| - 1];
    if last == o {
      assert o !in init by {
        forall i | 0 <= i < |init| ensures init[i] != o {
          assert log[i] != log[|log| - 1];
        }
      }
      ReadySumFrame(orders, init, o, orders[o].(status := st), u);
    } else {
      assert o in init by {
        var k :| 0 <= k < |log| && log[k] == o;
        assert k < |log| - 1 && init[k] == o;
      }
      assert Distinct(init) by {
        forall i, j | 0 <= i < j < |init| ensures init[i] != init[j] {
          assert init[i] == log[i] && init[j] == log[j];
        }
      }
      ReadySumRelease(orders, init, o, st, u);
      assert Held(after, last, u) == Held(orders, last, u);
    }
  }

  // ---------------------------------------------------------------------
  // The consistency invariant of the three tables

  /** Each row sits under its own primary key. */
  predicate Keyed(s: State)
  {
    (forall u :: u in s.wallets ==> s.wallets[u].userId == u) &&
    (forall o :: o in s.orders ==> s.orders[o].orderId == o)
  }

  /** The creation log lists every order exactly once. */
  predicate LogMatches(s: State)
  {
    Distinct(s.orderLog) &&
    (forall i :: 0 <= i < |s.orderLog| ==> s.orderLog[i] in s.orders) &&
    (forall o :: o in s.orders ==> o in s.orderLog)
  }

  /** Every order and entry belongs to an existing wallet, every order
      amount is positive, every entry is well formed and names only
      existing orders. */
  predicate Owned(s: State)
  {
    (forall o :: o in s.orders ==> s.orders[o].userId in s.wallets && s.orders[o].amount > 0) &&
    (forall i :: 0 <= i < |s.ledger| ==>
       s.ledger[i].walletId in s.wallets && WellFormedEntry(s.ledger[i]) &&
       (s.ledger[i].relatedId.Some? ==> s.ledger[i].relatedId.value in s.orders))
  }

  /** No available balance is negative. */
  predicate Solvent(s: State)
  {
    forall u :: u in s.wallets ==> s.wallets[u].balance >= 0
  }

  /** A wallet's frozen amount is what its READY orders hold. */
  predicate FrozenHeld(s: State)
  {
    forall u :: u in s.wallets ==> s.wallets[u].frozen == ReadySum(s.orders, s.orderLog, u)
  }

  /** A wallet holds, available or frozen, what it bought minus what it paid. */
  predicate Conserved(s: State)
  {
    forall u :: u in s.wallets ==>
      s.wallets[u].balance + s.wallets[u].frozen == Total(s.ledger, u, Buy) - Total(s.ledger, u, Pay)
  }

  /** The ledger entries an order of a given status has caused. */
  function Expected(st: Status): seq<TxType>
  {
    match st
    case Ready => []
    case Completed => [Pay]
    case Canceled => [Refund]
  }

  /** A READY order has no entry; a COMPLETED one exactly one PAY; a
      CANCELED one exactly one REFUND. */
  predicate Recorded(s: State)
  {
    forall o :: o in s.orders ==> Mentions(s.ledger, o) == Expected(s.orders[o].status)
  }

  predicate Inv(s: State)
  {
    Keyed(s) && LogMatches(s) && Owned(s) && UniqueTxIds(s.ledger) &&
    Solvent(s) && FrozenHeld(s) && Conserved(s) && Recorded(s)
  }

  /** In a consistent store no wallet amount is negative. */
  lemma InvNonNegative(s: State)
    requires Inv(s)
    ensures forall u :: u in s.wallets ==> s.wallets[u].balance >= 0 && s.wallets[u].frozen >= 0
  {
    forall u | u in s.wallets ensures s.wallets[u].frozen >= 0 {
      ReadySumNonNegative(s.orders, s.orderLog, u);
    }
  }

  lemma EmptyInv()
    ensures Inv(Empty())
  {
  }

  // ---------------------------------------------------------------------
  // How a step may change the store

  /** An order's row after a step: unchanged, or moved out of READY with
      nothing else about it changed. */
  predicate Successor(a: Order, b: Order)
  {
    b == a || (CanMove(a.status, b.status) && b == a.(status := b.status))
  }

  /** Wallets are never deleted, orders never deleted and only moved out of
      READY, and the order log and the ledger only grow at their ends. */
  predicate Evolves(s: State, t: State)
  {
    (forall u :: u in s.wallets ==> u in t.wallets) &&
    (forall o :: o in s.orders ==> o in t.orders && Successor(s.orders[o], t.orders[o])) &&
    s.orderLog <= t.orderLog &&
    s.ledger <= t.ledger
  }

  /** Only the wallet of `u` may differ between the two maps. */
  ghost predicate OthersUntouched(before: map<UserId, Wallet>, after: map<UserId, Wallet>, u: UserId)
  {
    forall v :: v != u ==> (v in before <==> v in after) && (v in before ==> after[v] == before[v])
  }

  /** What the wallet of `u` holds available; 0.00 for a wallet not yet created. */
  function BalanceOf(s: State, u: UserId): Cents
  {
    if u in s.wallets then s.wallets[u].balance else 0
  }

  /** What the wallet of `u` holds frozen; 0.00 for a wallet not yet created. */
  function FrozenOf(s: State, u: UserId): Cents
  {
    if u in s.wallets then s.wallets[u].frozen else 0
  }

  // ---------------------------------------------------------------------
  // The steps

  /** Look up the wallet of `u`, inserting a zero wallet if there is none. */
  function OpenWallet(s: State, u: UserId): (t: State)
    ensures u in t.wallets && t.wallets[u].balance == BalanceOf(s, u) && t.wallets[u].frozen == FrozenOf(s, u)
    ensures u !in s.wallets ==> t.wallets[u] == NewWallet(u)
    ensures OthersUntouched(s.wallets, t.wallets, u)
    ensures t.orders == s.orders && t.orderLog == s.orderLog && t.ledger == s.ledger
    ensures Evolves(s, t)
  {
    if u in s.wallets then s else s.(wallets := s.wallets[u := NewWallet(u)])
  }

  /** The writes of a successful buy: raise the balance of `u` and record BUY. */
  function Credit(s: State, u: UserId, amount: Cents, tx: TxId): State
    requires u in s.wallets
  {
    var w := s.wallets[u];
    s.(wallets := s.wallets[u := w.(balance := w.balance + amount)],
       ledger := s.ledger + [Entry(tx, u, Buy, amount, None)])
  }

  /** The writes of a successful prepare: move `amount` from the balance of
      `u` to its frozen amount and insert the READY order `oid`. */
  function Freeze(s: State, u: UserId, merchant: string, amount: Cents, oid: OrderId): State
    requires u in s.wallets
  {
    var w := s.wallets[u];
    State(s.wallets[u := w.(balance := w.balance - amount, frozen := w.frozen + amount)],
          s.orders[oid := NewOrder(oid, u, merchant, amount)],
          s.orderLog + [oid],
          s.ledger)
  }

  /** The writes of a successful confirm: drop the order's amount from its
      wallet's frozen amount, mark it COMPLETED and record PAY. */
  function Settle(s: State, oid: OrderId, tx: TxId): State
    requires oid in s.orders && s.orders[oid].userId in s.wallets
  {
    var o := s.orders[oid];
    var w := s.wallets[o.userId];
    s.(wallets := s.wallets[o.userId := w.(frozen := w.frozen - o.amount)],
       orders := s.orders[oid := o.(status := Completed)],
       ledger := s.ledger + [Entry(tx, o.userId, Pay, o.amount, Some(oid))])
  }

  /** The writes of a successful cancel: move the order's amount from its
      wallet's frozen amount back to the balance, mark it CANCELED and record
      REFUND. */
  function Release(s: State, oid: OrderId, tx: TxId): State
    requires oid in s.orders && s.orders[oid].userId in s.wallets
  {
    var o := s.orders[oid];
    var w := s.wallets[o.userId];
    s.(wallets := s.wallets[o.userId := w.(balance := w.balance + o.amount,
                                           frozen := w.frozen - o.amount)],
       orders := s.orders[oid := o.(status := Canceled)],
       ledger := s.ledger + [Entry(tx, o.userId, Refund, o.amount, Some(oid))])
  }

  /** buy: charge `amount` to the wallet of `u`, creating it if needed. */
  function BuyStep(s: State, u: UserId, amount: Cents, tx: TxId): (r: Step<Cents>)
    ensures r.result.Err? <==> amount <= 0 || tx in TxIds(s.ledger)
    ensures amount <= 0 ==> r.result == Err(InvalidAmount)
    ensures r.result.Err? ==> r.state == s
    ensures r.result.Ok? ==>
      u in r.state.wallets &&
      r.state.wallets[u].balance == BalanceOf(s, u) + amount == r.result.value &&
      r.state.wallets[u].frozen == FrozenOf(s, u) &&
      OthersUntouched(s.wallets, r.state.wallets, u) &&
      r.state.orders == s.orders && r.state.orderLog == s.orderLog &&
      r.state.ledger == s.ledger + [Entry(tx, u, Buy, amount, None)]
    ensures Evolves(s, r.state)
  {
    if amount <= 0 then Step(Err(InvalidAmount), s)
    else if tx in TxIds(s.ledger) then Step(Err(DuplicateKey), s)
    else
      var t := Credit(OpenWallet(s, u), u, amount, tx);
      Step(Ok(t.wallets[u].balance), t)
  }

  /** prepare exactly as the handler is written: there is no check that the
      amount is positive, only that the balance covers it. */
  function PrepareAsWritten(s: State, u: UserId, merchant: string, amount: Cents, oid: OrderId): (r: Step<Hold>)
    ensures r.result.Err? <==> u !in s.wallets || s.wallets[u].balance < amount || oid in s.orders
    ensures r.result.Err? ==> r.state == s
    ensures r.result.Ok? ==>
      var w := s.wallets[u];
      r.result.value == Hold(oid, amount) &&
      r.state.wallets == s.wallets[u := w.(balance := w.balance - amount, frozen := w.frozen + amount)] &&
      r.state.orders == s.orders[oid := Order(oid, u, merchant, amount, Ready)] &&
      r.state.orderLog == s.orderLog + [oid] &&
      r.state.ledger == s.ledger
  {
    if u !in s.wallets then Step(Err(WalletNotFound), s)
    else if s.wallets[u].balance < amount then Step(Err(InsufficientBalance), s)
    else if oid in s.orders then Step(Err(DuplicateKey), s)
    else Step(Ok(Hold(oid, amount)), Freeze(s, u, merchant, amount, oid))
  }

  /** prepare as written never deletes a wallet or an order, changes no
      existing order and only grows the order log; the ledger is untouched. */
  lemma PrepareAsWrittenEvolves(s: State, u: UserId, merchant: string, amount: Cents, oid: OrderId)
    ensures Evolves(s, PrepareAsWritten(s, u, merchant, amount, oid).state)
  {
  }

  /** prepare (the freeze step), with the positivity check that buy has:
      move `amount` from the balance of `u` to its frozen amount and open a
      READY order under the new id `oid`. No ledger entry is written. */
  function PrepareStep(s: State, u: UserId, merchant: string, amount: Cents, oid: OrderId): (r: Step<Hold>)
    ensures amount > 0 ==> r == PrepareAsWritten(s, u, merchant, amount, oid)
    ensures r.result.Err? <==>
      amount <= 0 || u !in s.wallets || s.wallets[u].balance < amount || oid in s.orders
    ensures amount <= 0 ==> r.result == Err(InvalidAmount)
    ensures amount > 0 && u !in s.wallets ==> r.result == Err(WalletNotFound)
    ensures amount > 0 && u in s.wallets && s.wallets[u].balance < amount ==> r.result == Err(InsufficientBalance)
    ensures r.result.Err? ==> r.state == s
    ensures r.result.Ok? ==>
      r.result.value == Hold(oid, amount) &&
      u in r.state.wallets &&
      r.state.wallets[u].balance == s.wallets[u].balance - amount >= 0 &&
      r.state.wallets[u].frozen == s.wallets[u].frozen + amount &&
      OthersUntouched(s.wallets, r.state.wallets, u) &&
      oid !in s.orders && r.state.orders == s.orders[oid := Order(oid, u, merchant, amount, Ready)] &&
      r.state.orderLog == s.orderLog + [oid] &&
      r.state.ledger == s.ledger
    ensures Evolves(s, r.state)
  {
    if amount <= 0 then Step(Err(InvalidAmount), s)
    else PrepareAsWritten(s, u, merchant, amount, oid)
  }

  /** confirm (the settle step): take a READY order's amount out of its
      wallet's frozen amount for good, mark it COMPLETED and write PAY. */
  function ConfirmStep(s: State, oid: OrderId, tx: TxId): (r: Step<Ticket>)
    ensures r.result.Ok? <==>
      oid in s.orders && s.orders[oid].status == Ready &&
      s.orders[oid].userId in s.wallets && tx !in TxIds(s.ledger)
    ensures oid !in s.orders || s.orders[oid].status != Ready ==> r == Step(Err(InvalidOrder), s)
    ensures r.result.Err? ==> r.state == s
    ensures r.result.Ok? ==>
      var o := s.orders[oid];
      var w := s.wallets[o.userId];
      r.result.value == Ticket(oid, Completed) &&
      r.state.orders == s.orders[oid := o.(status := Completed)] &&
      r.state.wallets == s.wallets[o.userId := w.(frozen := w.frozen - o.amount)] &&
      r.state.orderLog == s.orderLog &&
      r.state.ledger == s.ledger + [Entry(tx, o.userId, Pay, o.amount, Some(oid))]
    ensures Evolves(s, r.state)
  {
    if oid !in s.orders || s.orders[oid].status != Ready then Step(Err(InvalidOrder), s)
    else
      var o := s.orders[oid];
      if o.userId !in s.wallets then Step(Err(WalletNotFound), s)
      else if tx in TxIds(s.ledger) then Step(Err(DuplicateKey), s)
      else Step(Ok(Ticket(oid, Completed)), Settle(s, oid, tx))
  }

  /** cancel (the release step): move a READY order's amount from its
      wallet's frozen amount back to the balance, mark it CANCELED and write
      REFUND. */
  function CancelStep(s: State, oid: OrderId, tx: TxId): (r: Step<Ticket>)
    ensures r.result.Ok? <==>
      oid in s.orders && s.orders[oid].status == Ready &&
      s.orders[oid].userId in s.wallets && tx !in TxIds(s.ledger)
    ensures oid !in s.orders || s.orders[oid].status != Ready ==> r == Step(Err(InvalidOrder), s)
    ensures r.result.Err? ==> r.state == s
    ensures r.result.Ok? ==>
      var o := s.orders[oid];
      var w := s.wallets[o.userId];
      r.result.value == Ticket(oid, Canceled) &&
      r.state.orders == s.orders[oid := o.(status := Canceled)] &&
      r.state.wallets == s.wallets[o.userId := w.(balance := w.balance + o.amount,
                                                  frozen := w.frozen - o.amount)] &&
      r.state.orderLog == s.orderLog &&
      r.state.ledger == s.ledger + [Entry(tx, o.userId, Refund, o.amount, Some(oid))]
    ensures Evolves(s, r.state)
  {
    if oid !in s.orders || s.orders[oid].status != Ready then Step(Err(InvalidOrder), s)
    else
      var o := s.orders[oid];
      if o.userId !in s.wallets then Step(Err(WalletNotFound), s)
      else if tx in TxIds(s.ledger) then Step(Err(DuplicateKey), s)
      else Step(Ok(Ticket(oid, Canceled)), Release(s, oid, tx))
  }
}
