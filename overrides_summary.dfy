/**
 * `OverridesSummary`: the card listing the overridden transactions, or an
 * empty-state card when there are none.
 */
module OverridesSummary {
  import opened Common
  import opened Transactions
  import DashboardStatistics

  /** The text of `deviceId.split('-')[0]`: everything before the first `-`. */
  function DeviceLabel(deviceId: string): (shown: string)
    ensures shown <= deviceId
    ensures '-' !in shown
    ensures |shown| < |deviceId| ==> deviceId[|shown|] == '-'
    ensures '-' !in deviceId ==> shown == deviceId
  {
    if deviceId == [] || deviceId[0] == '-' then []
    else [deviceId[0]] + DeviceLabel(deviceId[1..])
  }

  /** One rendered override card. */
  datatype Card = Card(
    id: string,
    merchant: string,
    category: string,
    originalStatus: Status,
    currentStatus: Status,
    reason: Option<string>,
    deviceLabel: string,
    previousUses: int)

  function CardOf(tx: Transaction): (card: Card)
  {
    Card(tx.id, tx.merchant, tx.category, tx.originalStatus, tx.currentStatus,
         tx.overrideReason, DeviceLabel(tx.deviceId), tx.previousUses)
  }

  datatype View = EmptyState | OverrideList(cards: seq<Card>)

  function Cards(txs: seq<Transaction>): (cards: seq<Card>)
    ensures |cards| == |txs|
    ensures forall i :: 0 <= i < |txs| ==> cards[i] == CardOf(txs[i])
  {
    if txs == [] then [] else [CardOf(txs[0])] + Cards(txs[1..])
  }

  /**
   * The render: the empty-state card exactly when no transaction is an
   * override; otherwise one card per override, in input order.
   */
  function Render(txs: seq<Transaction>): (v: View)
    ensures v.EmptyState? <==> DashboardStatistics.Overrides(txs) == []
    ensures v.OverrideList? ==> v.cards == Cards(DashboardStatistics.Overrides(txs))
  {
    var overrides := DashboardStatistics.Overrides(txs);
    if |overrides| == 0 then EmptyState else OverrideList(Cards(overrides))
  }

  /**
   * The list holds exactly the overrides: a transaction's card is listed
   * as often as the transaction occurs if it is an override, never
   * otherwise, and the list of a concatenation is the concatenation of the
   * lists (the input order is kept).
   */
  lemma OverrideListExact(txs: seq<Transaction>, more: seq<Transaction>, tx: Transaction)
    ensures tx in DashboardStatistics.Overrides(txs) <==> tx in txs && IsOverride(tx)
    ensures multiset(DashboardStatistics.Overrides(txs))[tx] ==
      if IsOverride(tx) then multiset(txs)[tx] else 0
    ensures DashboardStatistics.Overrides(txs + more) ==
      DashboardStatistics.Overrides(txs) + DashboardStatistics.Overrides(more)
    ensures |DashboardStatistics.Overrides(txs)| == DashboardStatistics.Compute(txs).overrides
  {
    FilterMembers(txs, IsOverride, tx);
    FilterMultiplicity(txs, IsOverride, tx);
    FilterAppend(txs, more, IsOverride);
  }
}
