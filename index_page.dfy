/**
 * The `Index` dashboard page: the same four figures as
 * `DashboardStatistics`, computed over the shipped mock transactions.
 */
module IndexPage {
  import opened Common
  import opened Transactions
  import DashboardStatistics

  /** The ten shipped mock transactions (fields used by the model only). */
  const MockTransactions: seq<Transaction> := [
    Transaction("tx-001", "Apple Store", "Electronics", "iphone-12-pro-8a72b", 12, 15, Blocked, Approved,
      Some("Dispositivo confiável usado em 12 compras anteriores")),
    Transaction("tx-002", "Steam", "Entertainment", "macbook-pro-9c24e", 8, 22, Blocked, Approved,
      Some("Localização e dispositivo reconhecidos de 8 transações anteriores")),
    Transaction("tx-003", "Dell Technologies", "Electronics", "windows-pc-3e5f1", 2, 60, Blocked, Blocked, None),
    Transaction("tx-004", "Netflix", "Entertainment", "iphone-12-pro-8a72b", 13, 12, Blocked, Approved,
      Some("Assinatura recorrente em dispositivo confiável")),
    Transaction("tx-005", "Amazon", "Retail", "unknown-device-1f3a7", 0, 85, Blocked, Blocked, None),
    Transaction("tx-006", "Uber", "Transportation", "iphone-12-pro-8a72b", 14, 10, Blocked, Approved,
      Some("Localização consistente com histórico de uso")),
    Transaction("tx-007", "Best Buy", "Electronics", "macbook-pro-9c24e", 9, 25, Blocked, Approved,
      Some("Valor consistente com histórico de compras anteriores")),
    Transaction("tx-008", "Flight Booking", "Travel", "windows-pc-3e5f1", 3, 72, Blocked, Blocked, None),
    Transaction("tx-009", "Spotify", "Entertainment", "iphone-12-pro-8a72b", 15, 8, Blocked, Approved,
      Some("Assinatura recorrente em dispositivo confiável")),
    Transaction("tx-010", "Booking.com", "Travel", "unknown-device-2d6b8", 0, 92, Blocked, Blocked, None)
  ]

  /** 10 transactions, 10 blocked, 6 overrides, 60% of blocks, 100% of total, average risk 40. */
  const ShippedFigures := DashboardStatistics.Statistics(
    10, 10, 6, DashboardStatistics.Finite(60), DashboardStatistics.Finite(100), DashboardStatistics.Finite(40))

  /** The page's figures. */
  function IndexStatistics(): (figures: DashboardStatistics.Statistics)
  {
    DashboardStatistics.Compute(MockTransactions)
  }

  lemma MockAllBlocked()
    ensures DashboardStatistics.Blocked(MockTransactions) == MockTransactions
  {
    var s := MockTransactions;
    assert IsBlocked(s[0]) && IsBlocked(s[1]) && IsBlocked(s[2]) && IsBlocked(s[3]) && IsBlocked(s[4]);
    assert IsBlocked(s[5]) && IsBlocked(s[6]) && IsBlocked(s[7]) && IsBlocked(s[8]) && IsBlocked(s[9]);
    FilterKeepsAll(s, IsBlocked);
  }

  /** The shipped list, cut after its fifth record. */
  lemma MockHalves()
    ensures MockTransactions == MockTransactions[..5] + MockTransactions[5..]
  {
  }

  lemma MockFirstHalfOverrideCount()
    ensures |DashboardStatistics.Overrides(MockTransactions[..5])| == 3
  {
    var h := MockTransactions[..5];
    assert h[4..] == [h[4]] + h[5..];
    assert |DashboardStatistics.Overrides(h[4..])| == 0;
    assert h[3..] == [h[3]] + h[4..];
    assert |DashboardStatistics.Overrides(h[3..])| == 1;
    assert h[2..] == [h[2]] + h[3..];
    assert |DashboardStatistics.Overrides(h[2..])| == 1;
    assert h[1..] == [h[1]] + h[2..];
    assert |DashboardStatistics.Overrides(h[1..])| == 2;
    assert h[0..] == [h[0]] + h[1..];
    assert |DashboardStatistics.Overrides(h[0..])| == 3;
    assert h[0..] == h;
  }

  lemma MockSecondHalfOverrideCount()
    ensures |DashboardStatistics.Overrides(MockTransactions[5..])| == 3
  {
    var h := MockTransactions[5..];
    assert h[4..] == [h[4]] + h[5..];
    assert |DashboardStatistics.Overrides(h[4..])| == 0;
    assert h[3..] == [h[3]] + h[4..];
    assert |DashboardStatistics.Overrides(h[3..])| == 1;
    assert h[2..] == [h[2]] + h[3..];
    assert |DashboardStatistics.Overrides(h[2..])| == 1;
    assert h[1..] == [h[1]] + h[2..];
    assert |DashboardStatistics.Overrides(h[1..])| == 2;
    assert h[0..] == [h[0]] + h[1..];
    assert |DashboardStatistics.Overrides(h[0..])| == 3;
    assert h[0..] == h;
  }

  lemma MockFirstHalfTotalRisk()
    ensures TotalRisk(MockTransactions[..5]) == 194
  {
    var h := MockTransactions[..5];
    assert h[4..] == [h[4]] + h[5..];
    assert TotalRisk(h[4..]) == 85;
    assert h[3..] == [h[3]] + h[4..];
    assert TotalRisk(h[3..]) == 97;
    assert h[2..] == [h[2]] + h[3..];
    assert TotalRisk(h[2..]) == 157;
    assert h[1..] == [h[1]] + h[2..];
    assert TotalRisk(h[1..]) == 179;
    assert h[0..] == [h[0]] + h[1..];
    assert TotalRisk(h[0..]) == 194;
    assert h[0..] == h;
  }

  lemma MockSecondHalfTotalRisk()
    ensures TotalRisk(MockTransactions[5..]) == 207
  {
    var h := MockTransactions[5..];
    assert h[4..] == [h[4]] + h[5..];
    assert TotalRisk(h[4..]) == 92;
    assert h[3..] == [h[3]] + h[4..];
    assert TotalRisk(h[3..]) == 100;
    assert h[2..] == [h[2]] + h[3..];
    assert TotalRisk(h[2..]) == 172;
    assert h[1..] == [h[1]] + h[2..];
    assert TotalRisk(h[1..]) == 197;
    assert h[0..] == [h[0]] + h[1..];
    assert TotalRisk(h[0..]) == 207;
    assert h[0..] == h;
  }

  lemma MockOverrideCount()
    ensures |DashboardStatistics.Overrides(MockTransactions)| == 6
  {
    MockHalves();
    FilterAppend(MockTransactions[..5], MockTransactions[5..], IsOverride);
    MockFirstHalfOverrideCount();
    MockSecondHalfOverrideCount();
  }

  lemma MockTotalRisk()
    ensures TotalRisk(MockTransactions) == 401
  {
    MockHalves();
    TotalRiskAppend(MockTransactions[..5], MockTransactions[5..]);
    MockFirstHalfTotalRisk();
    MockSecondHalfTotalRisk();
  }

  /**
   * On the shipped data: 10 transactions, all 10 blocked originally, 6
   * overrides (60% of blocks), 100% blocked, and an average risk of
   * round(401 / 10) = 40.
   */
  lemma MockFigures()
    ensures IndexStatistics() ==
      ShippedFigures
  {
    MockAllBlocked();
    MockOverrideCount();
    MockTotalRisk();
    FiguresOfCounts(MockTransactions);
  }

  /** The four figures follow from the three counts over ten transactions. */
  lemma FiguresOfCounts(txs: seq<Transaction>)
    requires |txs| == 10 && |DashboardStatistics.Blocked(txs)| == 10
    requires |DashboardStatistics.Overrides(txs)| == 6 && TotalRisk(txs) == 401
    ensures DashboardStatistics.Compute(txs) ==
      ShippedFigures
  {
    assert DashboardStatistics.RoundDiv(600, 10) == 60;
    assert DashboardStatistics.RoundDiv(1000, 10) == 100;
    assert DashboardStatistics.RoundDiv(401, 10) == 40;
  }
}
