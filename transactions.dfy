/**
 * The transaction record the dashboard components display, and the
 * order-preserving filter (`Array.prototype.filter`) they build on.
 */
module Transactions {
  import opened Common

  datatype Status = Approved | Blocked

  /**
   * A transaction. Amount, currency, timestamp and location are read only
   * for formatting and are not part of this model.
   */
  datatype Transaction = Transaction(
    id: string,
    merchant: string,
    category: string,
    deviceId: string,
    previousUses: int,
    riskScore: int,
    originalStatus: Status,
    currentStatus: Status,
    overrideReason: Option<string>)

  predicate IsBlocked(tx: Transaction)
  {
    tx.originalStatus == Blocked
  }

  /** An override: the current status differs from the original one. */
  predicate IsOverride(tx: Transaction)
  {
    tx.originalStatus != tx.currentStatus
  }

  /** The elements of `s` satisfying `p`, in their original order. */
  function Filter(s: seq<Transaction>, p: Transaction -> bool): (r: seq<Transaction>)
    ensures |r| <= |s|
  {
    if s == [] then []
    else (if p(s[0]) then [s[0]] else []) + Filter(s[1..], p)
  }

  /** An element is kept exactly when it occurs and satisfies `p`. */
  lemma {:induction false} FilterMembers(s: seq<Transaction>, p: Transaction -> bool, x: Transaction)
    ensures x in Filter(s, p) <==> x in s && p(x)
  {
    if s != [] {
      FilterMembers(s[1..], p, x);
      assert s == [s[0]] + s[1..];
    }
  }

  /** Filtering a concatenation filters each part, keeping the order. */
  lemma {:induction false} FilterAppend(s: seq<Transaction>, t: seq<Transaction>, p: Transaction -> bool)
    ensures Filter(s + t, p) == Filter(s, p) + Filter(t, p)
  {
    if s == [] {
      assert s + t == t;
    } else {
      var head := if p(s[0]) then [s[0]] else [];
      assert (s + t)[0] == s[0] && (s + t)[1..] == s[1..] + t;
      FilterAppend(s[1..], t, p);
      assert Filter(s + t, p) == head + (Filter(s[1..], p) + Filter(t, p));
      assert head + (Filter(s[1..], p) + Filter(t, p)) == (head + Filter(s[1..], p)) + Filter(t, p);
    }
  }

  /** A filter that every element passes keeps the whole sequence. */
  lemma {:induction false} FilterKeepsAll(s: seq<Transaction>, p: Transaction -> bool)
    requires forall i :: 0 <= i < |s| ==> p(s[i])
    ensures Filter(s, p) == s
  {
    if s != [] {
      assert p(s[0]);
      FilterKeepsAll(s[1..], p);
    }
  }

  /**
   * Each element is kept exactly as often as it occurs when it satisfies
   * `p`, and dropped otherwise.
   */
  lemma {:induction false} FilterMultiplicity(s: seq<Transaction>, p: Transaction -> bool, x: Transaction)
    ensures multiset(Filter(s, p))[x] == if p(x) then multiset(s)[x] else 0
  {
    if s != [] {
      FilterMultiplicity(s[1..], p, x);
      assert s == [s[0]] + s[1..];
    }
  }

  /** Sum of the risk scores (`reduce((acc, tx) => acc + tx.riskScore, 0)`). */
  function TotalRisk(s: seq<Transaction>): (total: int)
  {
    if s == [] then 0 else s[0].riskScore + TotalRisk(s[1..])
  }

  /** The total of a concatenation is the sum of the totals. */
  lemma {:induction false} TotalRiskAppend(s: seq<Transaction>, t: seq<Transaction>)
    ensures TotalRisk(s + t) == TotalRisk(s) + TotalRisk(t)
  {
    if s == [] {
      assert s + t == t;
    } else {
      assert (s + t)[1..] == s[1..] + t;
      TotalRiskAppend(s[1..], t);
    }
  }

  predicate ScoresInRange(s: seq<Transaction>)
  {
    forall i :: 0 <= i < |s| ==> 0 <= s[i].riskScore <= 100
  }

  lemma {:induction false} TotalRiskBounds(s: seq<Transaction>)
    requires ScoresInRange(s)
    ensures 0 <= TotalRisk(s) <= 100 * |s|
  {
    if s != [] {
      assert ScoresInRange(s[1..]) by {
        forall i | 0 <= i < |s[1..]| ensures 0 <= s[1..][i].riskScore <= 100 {
          assert s[1..][i] == s[i + 1];
        }
      }
      TotalRiskBounds(s[1..]);
    }
  }
}
