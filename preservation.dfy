/** Every step of the escrow state machine keeps the store consistent: no
    negative balance, frozen amounts equal to the READY orders they back,
    holdings equal to purchases minus payments, and exactly one ledger entry
    per order that has left READY. Each write is proved conjunct by conjunct,
    then the steps are assembled from their writes. */
module Preservation {
  import opened Models
  import opened Ledger
  import opened Escrow

  // ---------------------------------------------------------------------
  // Opening a wallet

  /** Creating a zero wallet for a new user keeps the store consistent. */
  lemma OpenWalletPreservesInv(s: State, u: UserId)
    requires Inv(s)
    ensures Inv(OpenWallet(s, u))
  {
    if u !in s.wallets {
      var t := OpenWallet(s, u);
      forall o | o in s.orders ensures s.orders[o].userId != u {
        assert s.orders[o].userId in s.wallets;
      }
      ReadySumAbsent(s.orders, s.orderLog, u);
      TotalAbsent(s.ledger, u, Buy);
      TotalAbsent(s.ledger, u, Pay);
      assert FrozenHeld(t);
      assert Conserved(t);
    }
  }

  // ---------------------------------------------------------------------
  // Credit (buy)

  lemma CreditConserved(s: State, u: UserId, amount: Cents, tx: TxId)
    requires u in s.wallets && Conserved(s)
    ensures Conserved(Credit(s, u, amount, tx))
  {
    var t := Credit(s, u, amount, tx);
    var e := Entry(tx, u, Buy, amount, None);
    forall v | v in t.wallets
      ensures t.wallets[v].balance + t.wallets[v].frozen == Total(t.ledger, v, Buy) - Total(t.ledger, v, Pay)
    {
      TotalAppend(s.ledger, e, v, Buy);
      TotalAppend(s.ledger, e, v, Pay);
    }
  }

  lemma CreditRecorded(s: State, u: UserId, amount: Cents, tx: TxId)
    requires u in s.wallets && Recorded(s)
    ensures Recorded(Credit(s, u, amount, tx))
  {
    var t := Credit(s, u, amount, tx);
    forall o | o in t.orders ensures Mentions(t.ledger, o) == Expected(t.orders[o].status) {
      MentionsAppend(s.ledger, Entry(tx, u, Buy, amount, None), o);
    }
  }

  lemma CreditOwned(s: State, u: UserId, amount: Cents, tx: TxId)
    requires u in s.wallets && Owned(s) && amount > 0
    ensures Owned(Credit(s, u, amount, tx))
  {
    var t := Credit(s, u, amount, tx);
    forall i | 0 <= i < |t.ledger|
      ensures t.ledger[i].walletId in t.wallets && WellFormedEntry(t.ledger[i])
      ensures t.ledger[i].relatedId.Some? ==> t.ledger[i].relatedId.value in t.orders
    {
      if i < |s.ledger| { assert t.ledger[i] == s.ledger[i]; }
    }
  }

  lemma CreditPreservesInv(s: State, u: UserId, amount: Cents, tx: TxId)
    requires Inv(s) && u in s.wallets && amount > 0 && tx !in TxIds(s.ledger)
    ensures Inv(Credit(s, u, amount, tx))
  {
    CreditConserved(s, u, amount, tx);
    CreditRecorded(s, u, amount, tx);
    CreditOwned(s, u, amount, tx);
    AppendFreshTx(s.ledger, Entry(tx, u, Buy, amount, None));
  }

  /** buy keeps the store consistent. */
  lemma BuyPreservesInv(s: State, u: UserId, amount: Cents, tx: TxId)
    requires Inv(s)
    ensures Inv(BuyStep(s, u, amount, tx).state)
  {
    if amount > 0 && tx !in TxIds(s.ledger) {
      OpenWalletPreservesInv(s, u);
      CreditPreservesInv(OpenWallet(s, u), u, amount, tx);
    }
  }

  // ---------------------------------------------------------------------
  // Freeze (prepare)

  lemma FreezeFrozenHeld(s: State, u: UserId, merchant: string, amount: Cents, oid: OrderId)
    requires u in s.wallets && FrozenHeld(s) && oid !in s.orderLog
    ensures FrozenHeld(Freeze(s, u, merchant, amount, oid))
  {
    var t := Freeze(s, u, merchant, amount, oid);
    forall v | v in t.wallets ensures t.wallets[v].frozen == ReadySum(t.orders, t.orderLog, v) {
      ReadySumAppend(t.orders, s.orderLog, oid, v);
      ReadySumFrame(s.orders, s.orderLog, oid, NewOrder(oid, u, merchant, amount), v);
    }
  }

  lemma FreezeLogMatches(s: State, u: UserId, merchant: string, amount: Cents, oid: OrderId)
    requires u in s.wallets && LogMatches(s) && oid !in s.orders
    ensures LogMatches(Freeze(s, u, merchant, amount, oid))
  {
    var t := Freeze(s, u, merchant, amount, oid);
    forall i, j | 0 <= i < j < |t.orderLog| ensures t.orderLog[i] != t.orderLog[j] {
      if j == |s.orderLog| { assert t.orderLog[i] == s.orderLog[i]; }
    }
  }

  lemma FreezeRecorded(s: State, u: UserId, merchant: string, amount: Cents, oid: OrderId)
    requires u in s.wallets && Recorded(s) && Owned(s) && oid !in s.orders
    ensures Recorded(Freeze(s, u, merchant, amount, oid))
  {
    forall i | 0 <= i < |s.ledger| ensures s.ledger[i].relatedId != Some(oid) {
      assert s.ledger[i].relatedId.Some? ==> s.ledger[i].relatedId.value in s.orders;
    }
    MentionsAbsent(s.ledger, oid);
  }

  lemma FreezeOwned(s: State, u: UserId, merchant: string, amount: Cents, oid: OrderId)
    requires u in s.wallets && Owned(s) && amount > 0
    ensures Owned(Freeze(s, u, merchant, amount, oid))
  {
  }

  lemma FreezeBalances(s: State, u: UserId, merchant: string, amount: Cents, oid: OrderId)
    requires u in s.wallets && Conserved(s) && Solvent(s) && amount <= s.wallets[u].balance
    ensures Conserved(Freeze(s, u, merchant, amount, oid)) && Solvent(Freeze(s, u, merchant, amount, oid))
  {
  }

  lemma FreezeKeyed(s: State, u: UserId, merchant: string, amount: Cents, oid: OrderId)
    requires u in s.wallets && Keyed(s)
    ensures Keyed(Freeze(s, u, merchant, amount, oid))
  {
  }

  lemma FreezePreservesInv(s: State, u: UserId, merchant: string, amount: Cents, oid: OrderId)
    requires Inv(s) && u in s.wallets && 0 < amount <= s.wallets[u].balance && oid !in s.orders
    ensures Inv(Freeze(s, u, merchant, amount, oid))
  {
    assert oid !in s.orderLog;
    FreezeFrozenHeld(s, u, merchant, amount, oid);
    FreezeLogMatches(s, u, merchant, amount, oid);
    FreezeRecorded(s, u, merchant, amount, oid);
    FreezeOwned(s, u, merchant, amount, oid);
    FreezeBalances(s, u, merchant, amount, oid);
    FreezeKeyed(s, u, merchant, amount, oid);
  }

  /** prepare keeps the store consistent. */
  lemma PreparePreservesInv(s: State, u: UserId, merchant: string, amount: Cents, oid: OrderId)
    requires Inv(s)
    ensures Inv(PrepareStep(s, u, merchant, amount, oid).state)
  {
    if amount > 0 && u in s.wallets && s.wallets[u].balance >= amount && oid !in s.orders {
      FreezePreservesInv(s, u, merchant, amount, oid);
    }
  }

  // ---------------------------------------------------------------------
  // Settle (confirm) and Release (cancel)

  /** A prepare that passes every check answers the new order and commits
      exactly the freeze writes. */
  lemma PrepareCommits(s: State, u: UserId, merchant: string, amount: Cents, oid: OrderId)
    requires u in s.wallets && 0 < amount <= s.wallets[u].balance && oid !in s.orders
    ensures PrepareStep(s, u, merchant, amount, oid) == Step(Ok(Hold(oid, amount)), Freeze(s, u, merchant, amount, oid))
  {
  }

  /** A buy that passes its checks answers the new balance and commits
      exactly the credit writes. */
  lemma BuyCommits(s: State, u: UserId, amount: Cents, tx: TxId)
    requires amount > 0 && tx !in TxIds(s.ledger)
    ensures var t := Credit(OpenWallet(s, u), u, amount, tx);
      BuyStep(s, u, amount, tx) == Step(Ok(t.wallets[u].balance), t)
  {
  }

  /** A confirm that passes its checks answers the settled order and
      commits exactly the settle writes. */
  lemma ConfirmCommits(s: State, oid: OrderId, tx: TxId)
    requires oid in s.orders && s.orders[oid].status == Ready && s.orders[oid].userId in s.wallets
    requires tx !in TxIds(s.ledger)
    ensures ConfirmStep(s, oid, tx) == Step(Ok(Ticket(oid, Completed)), Settle(s, oid, tx))
  {
  }

  /** A cancel that passes its checks answers the released order and
      commits exactly the release writes. */
  lemma CancelCommits(s: State, oid: OrderId, tx: TxId)
    requires oid in s.orders && s.orders[oid].status == Ready && s.orders[oid].userId in s.wallets
    requires tx !in TxIds(s.ledger)
    ensures CancelStep(s, oid, tx) == Step(Ok(Ticket(oid, Canceled)), Release(s, oid, tx))
  {
  }

  lemma SettleBalances(s: State, oid: OrderId, tx: TxId)
    requires oid in s.orders && s.orders[oid].userId in s.wallets && s.orders[oid].status == Ready
    requires FrozenHeld(s) && Conserved(s) && LogMatches(s)
    ensures FrozenHeld(Settle(s, oid, tx)) && Conserved(Settle(s, oid, tx))
  {
    var t := Settle(s, oid, tx);
    var o := s.orders[oid];
    var e := Entry(tx, o.userId, Pay, o.amount, Some(oid));
    forall v | v in t.wallets
      ensures t.wallets[v].frozen == ReadySum(t.orders, t.orderLog, v)
      ensures t.wallets[v].balance + t.wallets[v].frozen == Total(t.ledger, v, Buy) - Total(t.ledger, v, Pay)
    {
      ReadySumRelease(s.orders, s.orderLog, oid, Completed, v);
      TotalAppend(s.ledger, e, v, Buy);
      TotalAppend(s.ledger, e, v, Pay);
    }
  }

  lemma SettleRecorded(s: State, oid: OrderId, tx: TxId)
    requires oid in s.orders && s.orders[oid].userId in s.wallets && s.orders[oid].status == Ready
    requires Recorded(s)
    ensures Recorded(Settle(s, oid, tx))
  {
    var t := Settle(s, oid, tx);
    var o := s.orders[oid];
    var e := Entry(tx, o.userId, Pay, o.amount, Some(oid));
    forall p | p in t.orders ensures Mentions(t.ledger, p) == Expected(t.orders[p].status) {
      MentionsAppend(s.ledger, e, p);
    }
  }

  lemma SettleOwned(s: State, oid: OrderId, tx: TxId)
    requires oid in s.orders && s.orders[oid].userId in s.wallets
    requires Owned(s)
    ensures Owned(Settle(s, oid, tx))
  {
    var t := Settle(s, oid, tx);
    forall i | 0 <= i < |t.ledger|
      ensures t.ledger[i].walletId in t.wallets && WellFormedEntry(t.ledger[i])
      ensures t.ledger[i].relatedId.Some? ==> t.ledger[i].relatedId.value in t.orders
    {
      if i < |s.ledger| { assert t.ledger[i] == s.ledger[i]; }
    }
  }

  /** confirm keeps the store consistent, and in a consistent store it never
      meets an order whose wallet is missing. */
  lemma ConfirmPreservesInv(s: State, oid: OrderId, tx: TxId)
    requires Inv(s)
    ensures Inv(ConfirmStep(s, oid, tx).state)
    ensures ConfirmStep(s, oid, tx).result != Err(WalletNotFound)
  {
    if oid in s.orders && s.orders[oid].status == Ready {
      assert s.orders[oid].userId in s.wallets;
      if tx !in TxIds(s.ledger) {
        var o := s.orders[oid];
        SettleBalances(s, oid, tx);
        SettleRecorded(s, oid, tx);
        SettleOwned(s, oid, tx);
        AppendFreshTx(s.ledger, Entry(tx, o.userId, Pay, o.amount, Some(oid)));
      }
    }
  }

  lemma ReleaseBalances(s: State, oid: OrderId, tx: TxId)
    requires oid in s.orders && s.orders[oid].userId in s.wallets && s.orders[oid].status == Ready
    requires FrozenHeld(s) && Conserved(s) && LogMatches(s)
    ensures FrozenHeld(Release(s, oid, tx)) && Conserved(Release(s, oid, tx))
  {
    var t := Release(s, oid, tx);
    var o := s.orders[oid];
    var e := Entry(tx, o.userId, Refund, o.amount, Some(oid));
    forall v | v in t.wallets
      ensures t.wallets[v].frozen == ReadySum(t.orders, t.orderLog, v)
      ensures t.wallets[v].balance + t.wallets[v].frozen == Total(t.ledger, v, Buy) - Total(t.ledger, v, Pay)
    {
      ReadySumRelease(s.orders, s.orderLog, oid, Canceled, v);
      TotalAppend(s.ledger, e, v, Buy);
      TotalAppend(s.ledger, e, v, Pay);
    }
  }

  lemma ReleaseRecorded(s: State, oid: OrderId, tx: TxId)
    requires oid in s.orders && s.orders[oid].userId in s.wallets && s.orders[oid].status == Ready
    requires Recorded(s)
    ensures Recorded(Release(s, oid, tx))
  {
    var t := Release(s, oid, tx);
    var o := s.orders[oid];
    var e := Entry(tx, o.userId, Refund, o.amount, Some(oid));
    forall p | p in t.orders ensures Mentions(t.ledger, p) == Expected(t.orders[p].status) {
      MentionsAppend(s.ledger, e, p);
    }
  }

  lemma ReleaseOwned(s: State, oid: OrderId, tx: TxId)
    requires oid in s.orders && s.orders[oid].userId in s.wallets
    requires Owned(s)
    ensures Owned(Release(s, oid, tx))
  {
    var t := Release(s, oid, tx);
    forall i | 0 <= i < |t.ledger|
      ensures t.ledger[i].walletId in t.wallets && WellFormedEntry(t.ledger[i])
      ensures t.ledger[i].relatedId.Some? ==> t.ledger[i].relatedId.value in t.orders
    {
      if i < |s.ledger| { assert t.ledger[i] == s.ledger[i]; }
    }
  }

  /** cancel keeps the store consistent, and in a consistent store it never
      meets an order whose wallet is missing. */
  lemma CancelPreservesInv(s: State, oid: OrderId, tx: TxId)
    requires Inv(s)
    ensures Inv(CancelStep(s, oid, tx).state)
    ensures CancelStep(s, oid, tx).result != Err(WalletNotFound)
  {
    if oid in s.orders && s.orders[oid].status == Ready {
      assert s.orders[oid].userId in s.wallets && s.orders[oid].amount > 0;
      if tx !in TxIds(s.ledger) {
        var o := s.orders[oid];
        ReleaseBalances(s, oid, tx);
        ReleaseRecorded(s, oid, tx);
        ReleaseOwned(s, oid, tx);
        AppendFreshTx(s.ledger, Entry(tx, o.userId, Refund, o.amount, Some(oid)));
      }
    }
  }
}
