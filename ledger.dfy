/** Folds over the append-only transaction ledger: per-wallet totals by
    entry type, the entries that name a given order, and the used ids.
    Each fold peels off the newest entry, so appending one entry adds exactly
    that entry's share. */
module Ledger {
  import opened Models

  /** The transaction ids already taken by the ledger's rows. */
  function TxIds(ledger: seq<Entry>): set<TxId>
  {
    set i | 0 <= i < |ledger| :: ledger[i].txId
  }

  /** txId is the primary key of transaction_ledger: no two rows share it. */
  predicate UniqueTxIds(ledger: seq<Entry>)
  {
    forall i, j :: 0 <= i < j < |ledger| ==> ledger[i].txId != ledger[j].txId
  }

  /** The share of one entry in the total of `kind` entries for wallet `u`. */
  function Share(e: Entry, u: UserId, kind: TxType): int
  {
    if e.walletId == u && e.kind == kind then e.amount else 0
  }

  /** The sum of the amounts of all `kind` entries written for wallet `u`. */
  function Total(ledger: seq<Entry>, u: UserId, kind: TxType): int
  {
    if ledger == [] then 0
    else Total(ledger[..|ledger| - 1], u, kind) + Share(ledger[|ledger| - 1], u, kind)
  }

  /** The types of the entries that reference order `o`, oldest first. */
  function Mentions(ledger: seq<Entry>, o: OrderId): seq<TxType>
  {
    if ledger == [] then []
    else
      var e := ledger[|ledger| - 1];
      Mentions(ledger[..|ledger| - 1], o) + (if e.relatedId == Some(o) then [e.kind] else [])
  }

  lemma TotalAppend(ledger: seq<Entry>, e: Entry, u: UserId, kind: TxType)
    ensures Total(ledger + [e], u, kind) == Total(ledger, u, kind) + Share(e, u, kind)
  {
    assert (ledger + [e])[..|ledger|] == ledger;
  }

  lemma MentionsAppend(ledger: seq<Entry>, e: Entry, o: OrderId)
    ensures Mentions(ledger + [e], o)
         == Mentions(ledger, o) + (if e.relatedId == Some(o) then [e.kind] else [])
  {
    assert (ledger + [e])[..|ledger|] == ledger;
  }

  /** A wallet with no entries has every total zero. */
  lemma {:induction false} TotalAbsent(ledger: seq<Entry>, u: UserId, kind: TxType)
    requires forall i :: 0 <= i < |ledger| ==> ledger[i].walletId != u
    ensures Total(ledger, u, kind) == 0
  {
    if ledger != [] {
      TotalAbsent(ledger[..|ledger| - 1], u, kind);
    }
  }

  /** An order that no entry references has no mentions. */
  lemma {:induction false} MentionsAbsent(ledger: seq<Entry>, o: OrderId)
    requires forall i :: 0 <= i < |ledger| ==> ledger[i].relatedId != Some(o)
    ensures Mentions(ledger, o) == []
  {
    if ledger != [] {
      MentionsAbsent(ledger[..|ledger| - 1], o);
    }
  }

  /** Appending an entry under a fresh id keeps the primary key unique. */
  lemma AppendFreshTx(ledger: seq<Entry>, e: Entry)
    requires UniqueTxIds(ledger)
    requires e.txId !in TxIds(ledger)
    ensures UniqueTxIds(ledger + [e])
    ensures TxIds(ledger + [e]) == TxIds(ledger) + {e.txId}
  {
    var l := ledger + [e];
    forall i, j | 0 <= i < j < |l| ensures l[i].txId != l[j].txId {
      if j == |ledger| {
        assert l[i].txId == ledger[i].txId;
        assert ledger[i].txId in TxIds(ledger);
      }
    }
    forall t | t in TxIds(l) ensures t in TxIds(ledger) + {e.txId} {
      var i :| 0 <= i < |l| && l[i].txId == t;
      if i < |ledger| { assert ledger[i].txId == t; }
    }
    forall t | t in TxIds(ledger) ensures t in TxIds(l) {
      var i :| 0 <= i < |ledger| && ledger[i].txId == t;
      assert l[i].txId == t;
    }
    assert l[|ledger|].txId == e.txId;
  }
}
