/**
 * The loyalty-rank table and its first-match scan, shared word for word by
 * the two JavaScript backends (server.js and Node.js).
 */
module Ranks {
  import opened Wrappers

  datatype RankEntry = RankEntry(min: int, title: string)

  const EMPEROR := "إمبراطور العدم 👑"
  const KING := "ملك اللاشيء 💎"
  const PRINCE := "أمير الفراغ 🏆"
  const NOBLE := "نبيل العدم ⭐"
  const KNIGHT := "فارس اللاشيء 🌟"
  const MERCHANT := "تاجر العدم ✨"
  const BEGINNER := "مبتدئ اللاشيء 🎯"
  const NEW_VISITOR := "زائر جديد 🌱"

  /** The rank table, in the order the scan visits it. */
  const RANKS: seq<RankEntry> := [
    RankEntry(500000, EMPEROR),
    RankEntry(300000, KING),
    RankEntry(200000, PRINCE),
    RankEntry(100000, NOBLE),
    RankEntry(50000, KNIGHT),
    RankEntry(20000, MERCHANT),
    RankEntry(10000, BEGINNER),
    RankEntry(0, NEW_VISITOR)
  ]

  /** A usable table: non-empty, thresholds strictly descending, the last one 0. */
  ghost predicate WellFormed(table: seq<RankEntry>) {
    && |table| > 0
    && (forall i, j :: 0 <= i < j < |table| ==> table[i].min > table[j].min)
    && table[|table| - 1].min == 0
  }

  /** The index of the first entry whose threshold is at most `totalSpent`. */
  function FirstMatch(table: seq<RankEntry>, totalSpent: int): (r: Option<nat>)
    ensures r.Some? ==> r.value < |table| && table[r.value].min <= totalSpent
    ensures r.Some? ==> forall j :: 0 <= j < r.value ==> table[j].min > totalSpent
    ensures r.None? ==> forall j :: 0 <= j < |table| ==> table[j].min > totalSpent
  {
    if table == [] then None
    else if totalSpent >= table[0].min then Some(0)
    else match FirstMatch(table[1..], totalSpent)
      case Some(i) => Some(i + 1)
      case None => None
  }

  /** getRank over a table: the first matching title, else the last entry's title. */
  function GetRankIn(table: seq<RankEntry>, totalSpent: int): string
    requires |table| > 0
  {
    match FirstMatch(table, totalSpent)
    case Some(i) => table[i].title
    case None => table[|table| - 1].title
  }

  /** getRank itself: the scan over RANKS. */
  function GetRank(totalSpent: int): string {
    GetRankIn(RANKS, totalSpent)
  }

  /** The threshold of the entry getRank picks (the last entry's when none matches). */
  function ThresholdIn(table: seq<RankEntry>, totalSpent: int): int
    requires |table| > 0
  {
    match FirstMatch(table, totalSpent)
    case Some(i) => table[i].min
    case None => table[|table| - 1].min
  }

  lemma RanksWellFormed()
    ensures WellFormed(RANKS)
  {
  }

  /** On a well-formed table the scan matches every non-negative total, and only those. */
  lemma MatchIffNonNegative(table: seq<RankEntry>, totalSpent: int)
    requires WellFormed(table)
    ensures FirstMatch(table, totalSpent).Some? <==> totalSpent >= 0
  {
    if totalSpent >= 0 {
      assert table[|table| - 1].min <= totalSpent;
    }
  }

  /**
   * The entry picked is the one with the highest threshold not above the
   * total: it is at most the total, and every threshold at most the total is
   * at most it.
   */
  lemma PicksHighestThreshold(table: seq<RankEntry>, totalSpent: int, j: nat)
    requires WellFormed(table) && totalSpent >= 0
    requires j < |table| && table[j].min <= totalSpent
    ensures ThresholdIn(table, totalSpent) <= totalSpent
    ensures table[j].min <= ThresholdIn(table, totalSpent)
    ensures GetRankIn(table, totalSpent) == table[FirstMatch(table, totalSpent).value].title
  {
    MatchIffNonNegative(table, totalSpent);
    var i := FirstMatch(table, totalSpent).value;
    assert i <= j;
  }

  /** Rank is monotone: a larger non-negative total never picks a lower threshold. */
  lemma ThresholdMonotone(table: seq<RankEntry>, a: int, b: int)
    requires WellFormed(table) && 0 <= a <= b
    ensures ThresholdIn(table, a) <= ThresholdIn(table, b)
  {
    MatchIffNonNegative(table, a);
    var i := FirstMatch(table, a).value;
    PicksHighestThreshold(table, b, i);
  }

  /** At every threshold t the title is t's own, and at t - 1 it is the next lower one. */
  lemma Boundaries(table: seq<RankEntry>, k: nat)
    requires WellFormed(table) && k < |table|
    ensures GetRankIn(table, table[k].min) == table[k].title
    ensures k + 1 < |table| ==> GetRankIn(table, table[k].min - 1) == table[k + 1].title
  {
    MatchIffNonNegative(table, table[k].min);
    var i := FirstMatch(table, table[k].min).value;
    assert i == k;
    if k + 1 < |table| {
      var n := table[k].min - 1;
      MatchIffNonNegative(table, n);
      assert table[k + 1].min <= n;
      assert forall j :: 0 <= j <= k ==> table[j].min >= table[k].min;
      var i' := FirstMatch(table, n).value;
      assert i' == k + 1;
    }
  }

  /** A negative total falls through the scan to the last title, the rank of 0. */
  lemma NegativeFallsBack(totalSpent: int)
    requires totalSpent < 0
    ensures GetRank(totalSpent) == NEW_VISITOR == GetRank(0)
  {
    MatchIffNonNegative(RANKS, totalSpent);
  }

  /** The boundary around the first promotion: 9999 is a new visitor, 10000 a beginner. */
  lemma FirstPromotion()
    ensures GetRank(9999) == NEW_VISITOR && GetRank(10000) == BEGINNER
    ensures GetRank(0) == NEW_VISITOR && GetRank(500000) == EMPEROR
  {
    RanksWellFormed();
    Boundaries(RANKS, 6);
    Boundaries(RANKS, 7);
    Boundaries(RANKS, 0);
  }

  /** Every title getRank returns is one of the table's titles. */
  lemma TitleFromTable(totalSpent: int)
    ensures exists k :: 0 <= k < |RANKS| && GetRank(totalSpent) == RANKS[k].title
  {
    match FirstMatch(RANKS, totalSpent)
    case Some(i) =>
      assert GetRank(totalSpent) == RANKS[i].title;
    case None =>
      assert GetRank(totalSpent) == RANKS[7].title;
  }
}
