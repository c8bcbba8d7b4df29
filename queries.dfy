/** The read-only views: a wallet with its ten newest entries, and the
    administrator's listings of the fifty newest ledger entries and orders.
    "Newest" is append order: the ledger's and the order log's last elements
    are the most recently created rows. */
module Queries {
  import opened Models
  import opened Escrow

  /** How many entries the wallet view shows. */
  const WalletHistoryLimit: nat := 10

  /** How many rows each administrator listing shows. */
  const AdminListLimit: nat := 50

  /** The last `n` elements of `s`, the most recent one first. */
  function NewestFirst<T>(s: seq<T>, n: nat): (r: seq<T>)
    ensures |r| == if n < |s| then n else |s|
    ensures forall i :: 0 <= i < |r| ==> r[i] == s[|s| - 1 - i]
  {
    if n == 0 || s == [] then []
    else [s[|s| - 1]] + NewestFirst(s[..|s| - 1], n - 1)
  }

  /** The entries of wallet `u`, in the order they were written.
      EntriesOfPositions shows it is exactly the ledger read at the
      positions PositionsOf picks: in ledger order, one copy per entry. */
  function EntriesOf(ledger: seq<Entry>, u: UserId): (r: seq<Entry>)
    ensures |r| <= |ledger|
    ensures forall e :: e in r <==> e in ledger && e.walletId == u
  {
    if ledger == [] then []
    else
      var e := ledger[|ledger| - 1];
      EntriesOf(ledger[..|ledger| - 1], u) + (if e.walletId == u then [e] else [])
  }

  /** The ledger positions that hold an entry of wallet `u`: all of them,
      each once, in increasing order. */
  function PositionsOf(ledger: seq<Entry>, u: UserId): (p: seq<nat>)
    ensures forall i :: 0 <= i < |p| ==> p[i] < |ledger| && ledger[p[i]].walletId == u
    ensures forall i, j :: 0 <= i < j < |p| ==> p[i] < p[j]
    ensures forall k :: 0 <= k < |ledger| && ledger[k].walletId == u ==> k in p
  {
    if ledger == [] then []
    else
      var n := |ledger| - 1;
      PositionsOf(ledger[..n], u) + (if ledger[n].walletId == u then [n] else [])
  }

  /** A wallet's history is the ledger read at that wallet's positions, so
      it keeps ledger order and holds each of the wallet's rows once. */
  lemma {:induction false} EntriesOfPositions(ledger: seq<Entry>, u: UserId)
    ensures |EntriesOf(ledger, u)| == |PositionsOf(ledger, u)|
    ensures forall i :: 0 <= i < |EntriesOf(ledger, u)| ==>
      EntriesOf(ledger, u)[i] == ledger[PositionsOf(ledger, u)[i]]
  {
    if ledger != [] {
      var n := |ledger| - 1;
      var init := ledger[..n];
      EntriesOfPositions(init, u);
      EntriesOfPositionsStep(ledger, u, EntriesOf(init, u), PositionsOf(init, u));
    }
  }

  /** The inductive step: the newest entry is appended to both sides, or to
      neither. */
  lemma EntriesOfPositionsStep(ledger: seq<Entry>, u: UserId, r0: seq<Entry>, p0: seq<nat>)
    requires ledger != []
    requires r0 == EntriesOf(ledger[..|ledger| - 1], u) && p0 == PositionsOf(ledger[..|ledger| - 1], u)
    requires |r0| == |p0| && forall i :: 0 <= i < |r0| ==> r0[i] == ledger[..|ledger| - 1][p0[i]]
    ensures |EntriesOf(ledger, u)| == |PositionsOf(ledger, u)|
    ensures forall i :: 0 <= i < |EntriesOf(ledger, u)| ==>
      EntriesOf(ledger, u)[i] == ledger[PositionsOf(ledger, u)[i]]
  {
    var n := |ledger| - 1;
    var r, p := EntriesOf(ledger, u), PositionsOf(ledger, u);
    if ledger[n].walletId == u {
      assert r == r0 + [ledger[n]] && p == p0 + [n];
      forall i | 0 <= i < |r| ensures r[i] == ledger[p[i]] {
        if i < |r0| {
          assert r[i] == r0[i] && p[i] == p0[i];
        }
      }
    } else {
      assert r == r0 && p == p0;
    }
  }

  /** A new entry joins a wallet's history at its newest end exactly when
      it belongs to that wallet. */
  lemma EntriesOfAppend(ledger: seq<Entry>, e: Entry, u: UserId)
    ensures EntriesOf(ledger + [e], u) == EntriesOf(ledger, u) + (if e.walletId == u then [e] else [])
  {
    assert (ledger + [e])[..|ledger|] == ledger;
  }

  /** The transactions the wallet view of `u` shows. */
  function RecentTransactions(ledger: seq<Entry>, u: UserId): (r: seq<Entry>)
    ensures |r| <= WalletHistoryLimit
    ensures forall i :: 0 <= i < |r| ==> r[i].walletId == u && r[i] in ledger
    ensures var h := EntriesOf(ledger, u);
      |r| == (if |h| < WalletHistoryLimit then |h| else WalletHistoryLimit) &&
      forall i :: 0 <= i < |r| ==> r[i] == h[|h| - 1 - i]
  {
    NewestFirst(EntriesOf(ledger, u), WalletHistoryLimit)
  }

  /** What the wallet query answers. */
  datatype WalletView = WalletView(userId: UserId, balance: Cents, frozen: Cents,
                                   transactions: seq<Entry>)

  function ViewOf(s: State, u: UserId): WalletView
    requires u in s.wallets
  {
    WalletView(u, s.wallets[u].balance, s.wallets[u].frozen, RecentTransactions(s.ledger, u))
  }

  /** The administrator's ledger listing. */
  function RecentLedger(ledger: seq<Entry>): (r: seq<Entry>)
    ensures |r| == if |ledger| < AdminListLimit then |ledger| else AdminListLimit
    ensures forall i :: 0 <= i < |r| ==> r[i] == ledger[|ledger| - 1 - i]
  {
    NewestFirst(ledger, AdminListLimit)
  }

  /** The orders in creation order. */
  function OrderHistory(orders: map<OrderId, Order>, log: seq<OrderId>): (r: seq<Order>)
    requires forall i :: 0 <= i < |log| ==> log[i] in orders
    ensures |r| == |log|
    ensures forall i :: 0 <= i < |log| ==> r[i] == orders[log[i]]
  {
    if log == [] then []
    else OrderHistory(orders, log[..|log| - 1]) + [orders[log[|log| - 1]]]
  }

  /** The administrator's order listing. */
  function RecentOrders(s: State): (r: seq<Order>)
    requires LogMatches(s)
    ensures |r| == if |s.orderLog| < AdminListLimit then |s.orderLog| else AdminListLimit
    ensures forall i :: 0 <= i < |r| ==> r[i] == s.orders[s.orderLog[|s.orderLog| - 1 - i]]
  {
    NewestFirst(OrderHistory(s.orders, s.orderLog), AdminListLimit)
  }
}
