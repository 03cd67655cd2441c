/**
 * The wallet card (components/wallet-card.tsx): the transaction history with
 * "All", "Earned" and "Redeemed" tabs, the signed amounts, and the balance line.
 */
module WalletCard {
  import Text
  import Seqs

  datatype TransactionKind = Earned | Redeemed

  datatype Transaction = Transaction(id: string, kind: TransactionKind, amount: nat, description: string, date: string)

  /** The component's sample data, `transactions`. */
  const Transactions: seq<Transaction> := [
    Transaction("1", Earned, 50, "Plastic bottle collection", "2025-08-01"),
    Transaction("2", Earned, 120, "Plastic bag collection", "2025-07-28"),
    Transaction("3", Redeemed, 100, "Amazon voucher", "2025-07-25"),
    Transaction("4", Earned, 75, "Plastic container collection", "2025-07-20"),
    Transaction("5", Redeemed, 200, "Cash withdrawal", "2025-07-15")
  ]

  function EarnedTab(txs: seq<Transaction>): seq<Transaction> {
    Seqs.Filter(txs, (t: Transaction) => t.kind == Earned)
  }

  function RedeemedTab(txs: seq<Transaction>): seq<Transaction> {
    Seqs.Filter(txs, (t: Transaction) => t.kind == Redeemed)
  }

  /** Each tab lists exactly the transactions of its kind, in their original order. */
  lemma TabsSelectByKind(txs: seq<Transaction>)
    ensures forall i :: 0 <= i < |txs| ==> (txs[i] in EarnedTab(txs) <==> txs[i].kind == Earned)
    ensures forall i :: 0 <= i < |txs| ==> (txs[i] in RedeemedTab(txs) <==> txs[i].kind == Redeemed)
    ensures forall t :: t in EarnedTab(txs) ==> t in txs && t.kind == Earned
    ensures forall t :: t in RedeemedTab(txs) ==> t in txs && t.kind == Redeemed
    ensures Seqs.IsSubsequence(EarnedTab(txs), txs) && Seqs.IsSubsequence(RedeemedTab(txs), txs)
  {
    Seqs.FilterIsSubsequence(txs, (t: Transaction) => t.kind == Earned);
    Seqs.FilterIsSubsequence(txs, (t: Transaction) => t.kind == Redeemed);
  }

  /** The two tabs split the "All" list: together they hold every transaction exactly once. */
  lemma TabsPartitionAll(txs: seq<Transaction>)
    ensures |EarnedTab(txs)| + |RedeemedTab(txs)| == |txs|
    ensures multiset(EarnedTab(txs)) + multiset(RedeemedTab(txs)) == multiset(txs)
  {
    Seqs.FilterSplits(txs, (t: Transaction) => t.kind == Earned, (t: Transaction) => t.kind == Redeemed);
  }

  /** `TransactionList`: the rows, or "No transactions found" for an empty list. */
  datatype TransactionListView = NoTransactionsFound | Rows(transactions: seq<Transaction>)

  function TransactionList(txs: seq<Transaction>): (view: TransactionListView)
    ensures view == NoTransactionsFound <==> txs == []
    ensures view.Rows? ==> view.transactions == txs
  {
    if |txs| == 0 then NoTransactionsFound else Rows(txs)
  }

  /**
   * A tab says "No transactions found" exactly when the history holds no
   * transaction of its kind, and "All" exactly when the history is empty.
   */
  lemma EmptyTabIffNoneOfKind(txs: seq<Transaction>)
    ensures TransactionList(txs) == NoTransactionsFound <==> |txs| == 0
    ensures TransactionList(EarnedTab(txs)) == NoTransactionsFound <==> forall i :: 0 <= i < |txs| ==> txs[i].kind != Earned
    ensures TransactionList(RedeemedTab(txs)) == NoTransactionsFound <==> forall i :: 0 <= i < |txs| ==> txs[i].kind != Redeemed
  {
    if forall i :: 0 <= i < |txs| ==> txs[i].kind != Earned {
      Seqs.FilterKeepsNone(txs, (t: Transaction) => t.kind == Earned);
    }
    if forall i :: 0 <= i < |txs| ==> txs[i].kind != Redeemed {
      Seqs.FilterKeepsNone(txs, (t: Transaction) => t.kind == Redeemed);
    }
  }

  /** The sample history: three earned and two redeemed transactions, so no tab is empty. */
  lemma SampleTabs()
    ensures |EarnedTab(Transactions)| == 3 && |RedeemedTab(Transactions)| == 2
    ensures TransactionList(EarnedTab(Transactions)).Rows? && TransactionList(RedeemedTab(Transactions)).Rows?
  {
  }

  /** The amount column, e.g. "+50 pts" or "-100 pts". */
  function AmountText(t: Transaction): string {
    (if t.kind == Earned then "+" else "-") + Text.NatToString(t.amount) + " pts"
  }

  /** The sign is "+" exactly for earned points, and the digits read back as the amount. */
  lemma AmountTextReadsBack(t: Transaction)
    ensures |AmountText(t)| >= 6
    ensures AmountText(t)[0] == '+' <==> t.kind == Earned
    ensures AmountText(t)[0] == '-' <==> t.kind == Redeemed
    ensures var s := AmountText(t); Text.AllDigits(s[1..|s| - 4]) && Text.ParseDigits(s[1..|s| - 4]) == t.amount
  {
    var s := AmountText(t);
    assert s[1..|s| - 4] == Text.NatToString(t.amount);
    Text.ParseNatToString(t.amount);
  }

  /** The balance card's stated rate and figures: 1,450 points at 10 points per rupee. */
  const BalancePoints := 1450
  const PointsPerRupee := 10
  const BalanceText := "₹145.00"

  /** Points shown as rupees with two decimals at the stated rate. */
  function RupeesText(points: nat): string {
    "₹" + Text.NatToString(points / PointsPerRupee) + "." + Text.PadStartZeros(Text.NatToString(points % PointsPerRupee * 10), 2)
  }

  /** The balance shown in rupees is the point balance converted at the stated rate. */
  lemma BalanceMatchesRate()
    ensures BalancePoints % PointsPerRupee == 0
    ensures RupeesText(BalancePoints) == BalanceText
  {
    assert Text.NatToString(145) == Text.NatToString(14) + ['5'];
    assert Text.NatToString(14) == Text.NatToString(1) + ['4'];
  }
}
