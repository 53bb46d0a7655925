/**
 * `DashboardStatistics`: the four figures shown over a list of
 * transactions. `Math.round(x)` is `floor(x + 1/2)`; over integers,
 * `Math.round(a / b)` for b > 0 is `(2a + b) div 2b`. A zero denominator
 * gives NaN for a zero numerator and Infinity for a positive one.
 */
module DashboardStatistics {
  import opened Transactions

  /** `Math.round(a / b)` for a positive denominator. */
  function RoundDiv(a: int, b: int): (r: int)
    requires b > 0
    ensures 2 * b * r <= 2 * a + b < 2 * b * (r + 1)
  {
    (2 * a + b) / (2 * b)
  }

  /** A displayed number: an integer, or one of the two non-finite values a count over zero yields. */
  datatype Figure = Finite(value: int) | NaN | Infinity

  /** `Math.round((part / whole) * 100)` for two counts. */
  function Percent(part: nat, whole: nat): (r: Figure)
    ensures r.Finite? <==> whole > 0
    ensures r.Finite? ==> r.value == RoundDiv(100 * part, whole)
    ensures r == NaN <==> whole == 0 && part == 0
    ensures r == Infinity <==> whole == 0 && part > 0
  {
    if whole > 0 then Finite(RoundDiv(100 * part, whole))
    else if part == 0 then NaN
    else Infinity
  }

  lemma MulMonotone(b: int, x: int, y: int)
    requires b > 0 && x <= y
    ensures b * x <= b * y
  {
    assert b * y - b * x == b * (y - x);
  }

  /** Rounding a quotient that lies between two integers keeps it between them. */
  lemma RoundDivBetween(a: int, b: int, lo: int, hi: int)
    requires b > 0 && b * lo <= a <= b * hi
    ensures lo <= RoundDiv(a, b) <= hi
  {
    var r := RoundDiv(a, b);
    if r < lo {
      MulMonotone(2 * b, r + 1, lo);
    }
    if r > hi {
      MulMonotone(2 * b, hi + 1, r);
    }
  }

  /** A rounded percentage of a part of a whole lies in 0..100. */
  lemma PercentInRange(part: nat, whole: nat)
    ensures part <= whole && whole > 0 ==> 0 <= Percent(part, whole).value <= 100
  {
    if part <= whole && whole > 0 {
      MulMonotone(100, part, whole);
      RoundDivBetween(100 * part, whole, 0, 100);
    }
  }

  datatype Statistics = Statistics(
    total: nat,
    blocked: nat,
    overrides: nat,
    overridePercent: Figure,
    blockedPercent: Figure,
    averageRisk: Figure)

  function Blocked(txs: seq<Transaction>): (blocked: seq<Transaction>)
  {
    Filter(txs, IsBlocked)
  }

  function Overrides(txs: seq<Transaction>): (overrides: seq<Transaction>)
  {
    Filter(txs, IsOverride)
  }

  /** The figures of the four cards. */
  function Compute(txs: seq<Transaction>): (st: Statistics)
    ensures st.total == |txs|
    ensures st.blocked <= st.total && st.overrides <= st.total
    ensures st.blocked == |Blocked(txs)| && st.overrides == |Overrides(txs)|
    // "% of blocks": NaN without blocks and overrides, Infinity with overrides but no blocks
    ensures st.overridePercent.Finite? <==> st.blocked > 0
    ensures st.overridePercent.Finite? ==> st.overridePercent.value == RoundDiv(100 * st.overrides, st.blocked)
    ensures st.overridePercent == Infinity <==> st.blocked == 0 && st.overrides > 0
    // "% of total" and the average risk: NaN exactly for an empty list
    ensures st.blockedPercent.Finite? <==> st.total > 0
    ensures st.blockedPercent.Finite? ==>
      st.blockedPercent.value == RoundDiv(100 * st.blocked, st.total) && 0 <= st.blockedPercent.value <= 100
    ensures st.averageRisk.Finite? <==> st.total > 0
    ensures st.averageRisk.Finite? ==> st.averageRisk.value == RoundDiv(TotalRisk(txs), st.total)
    ensures st.total == 0 ==> st.blockedPercent == NaN && st.averageRisk == NaN
  {
    var total := |txs|;
    var blocked := |Blocked(txs)|;
    var overrides := |Overrides(txs)|;
    PercentInRange(blocked, total);
    Statistics(
      total, blocked, overrides,
      Percent(overrides, blocked),
      Percent(blocked, total),
      if total > 0 then Finite(RoundDiv(TotalRisk(txs), total)) else NaN)
  }

  /** With every score on the 0-100 scale, so is the rounded average. */
  lemma AverageRiskInRange(txs: seq<Transaction>)
    requires |txs| > 0 && ScoresInRange(txs)
    ensures 0 <= Compute(txs).averageRisk.value <= 100
  {
    TotalRiskBounds(txs);
    RoundDivBetween(TotalRisk(txs), |txs|, 0, 100);
  }

  /**
   * The override card reads "% of blocks"; it stays within 0..100 when
   * every override started out blocked.
   */
  lemma OverridePercentInRange(txs: seq<Transaction>)
    requires |Blocked(txs)| > 0
    requires forall i :: 0 <= i < |txs| && IsOverride(txs[i]) ==> IsBlocked(txs[i])
    ensures 0 <= Compute(txs).overridePercent.value <= 100
  {
    OverridesWithinBlocked(txs);
    PercentInRange(|Overrides(txs)|, |Blocked(txs)|);
  }

  lemma {:induction false} OverridesWithinBlocked(txs: seq<Transaction>)
    requires forall i :: 0 <= i < |txs| && IsOverride(txs[i]) ==> IsBlocked(txs[i])
    ensures |Overrides(txs)| <= |Blocked(txs)|
  {
    if txs != [] {
      assert forall i :: 0 <= i < |txs[1..]| && IsOverride(txs[1..][i]) ==> IsBlocked(txs[1..][i]) by {
        forall i | 0 <= i < |txs[1..]| ensures txs[1..][i] == txs[i + 1] { }
      }
      OverridesWithinBlocked(txs[1..]);
    }
  }
}
