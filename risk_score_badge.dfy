/**
 * `RiskScoreBadge`: the band a risk score falls in, its colour class, and
 * the tooltip text.
 */
module RiskScoreBadge {
  import Decimal

  datatype Level = Low | Medium | High

  /** Bands in increasing order of risk. */
  function Rank(l: Level): (rank: nat)
  {
    match l
    case Low => 0
    case Medium => 1
    case High => 2
  }

  function LevelOf(score: int): (l: Level)
    ensures l == Low <==> score < 30
    ensures l == Medium <==> 30 <= score < 70
    ensures l == High <==> score >= 70
  {
    if score < 30 then Low else if score < 70 then Medium else High
  }

  /** The label and colour class shown for a level. */
  datatype Badge = Badge(levelText: string, colorClass: string)

  function BadgeFor(score: int): (b: Badge)
    ensures score < 30 ==> b == Badge("Baixo", "bg-trust text-white")
    ensures 30 <= score < 70 ==> b == Badge("Médio", "bg-caution text-white")
    ensures score >= 70 ==> b == Badge("Alto", "bg-risk text-white")
  {
    match LevelOf(score)
    case Low => Badge("Baixo", "bg-trust text-white")
    case Medium => Badge("Médio", "bg-caution text-white")
    case High => Badge("Alto", "bg-risk text-white")
  }

  /** The tooltip: `Risco <label> (<score>/100)`. */
  function Tooltip(score: int): (t: string)
    ensures |t| >= 6 + |BadgeFor(score).levelText| + 2 + 1 + 5
    ensures t[..6] == "Risco " && t[|t| - 5..] == "/100)"
    ensures t[6..6 + |BadgeFor(score).levelText|] == BadgeFor(score).levelText
    ensures t[6 + |BadgeFor(score).levelText|..8 + |BadgeFor(score).levelText|] == " ("
  {
    "Risco " + BadgeFor(score).levelText + " (" + Decimal.IntToString(score) + "/100)"
  }

  /** For a non-negative score, the number in the tooltip reads back as the score. */
  lemma TooltipShowsScore(score: int)
    requires score >= 0
    ensures var t := Tooltip(score);
      var start := 6 + |BadgeFor(score).levelText| + 2;
      && start <= |t| - 5
      && t[start..|t| - 5] == Decimal.NatToString(score)
      // no leading zero: the digits are the score's own decimal form
      && (|t| - 5 - start > 1 ==> t[start] != '0')
      && Decimal.AllDigits(t[start..|t| - 5]) && Decimal.ParseNat(t[start..|t| - 5]) == score
  {
    var t := Tooltip(score);
    var start := 6 + |BadgeFor(score).levelText| + 2;
    assert t[start..|t| - 5] == Decimal.NatToString(score);
    Decimal.ParseOfPrint(score);
  }

  /** A higher score never falls in a lower band. */
  lemma BandMonotone(s1: int, s2: int)
    requires s1 <= s2
    ensures Rank(LevelOf(s1)) <= Rank(LevelOf(s2))
  {
  }

  /** Different bands show different labels and colours. */
  lemma BadgesDistinguishLevels(s1: int, s2: int)
    ensures LevelOf(s1) != LevelOf(s2) ==>
      BadgeFor(s1).levelText != BadgeFor(s2).levelText && BadgeFor(s1).colorClass != BadgeFor(s2).colorClass
  {
  }
}
