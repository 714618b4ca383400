/** The signed-in user's score history page: the fetched rows reshaped into `Score`s and
    the four summary cards computed from them. */
module ScoresPage {
  import opened Wrappers
  import opened JsNumber
  import opened Records
  import Seqs
  import Str = Text

  /** The page's `Score` shape: a scores row without `evaluator_id`. */
  datatype Score = Score(
    id: int, userId: string, scoreDate: string, totalScore: int, targetScore: int,
    comments: Option<string>, createdAt: string)

  /** `transformedScores`: one `Score` per fetched row, in order; no data gives []. */
  function TransformedScores(rows: Option<seq<ScoreRow>>): (scores: seq<Score>)
    ensures rows.None? ==> scores == []
    ensures rows.Some? ==> |scores| == |rows.value|
    ensures rows.Some? ==> forall i :: 0 <= i < |scores| ==>
      var s, r := scores[i], rows.value[i];
      && s.id == r.id && s.userId == r.userId && s.scoreDate == r.scoreDate
      && s.totalScore == r.totalScore && s.targetScore == r.targetScore
      && s.comments == r.comments && s.createdAt == r.createdAt
  {
    var rs := rows.GetOr([]);
    seq(|rs|, i requires 0 <= i < |rs| =>
      Score(rs[i].id, rs[i].userId, rs[i].scoreDate, rs[i].totalScore, rs[i].targetScore, rs[i].comments, rs[i].createdAt))
  }

  /** `calculatePercentage(score, target)`. */
  function CalculatePercentage(score: int, target: int): (pct: Num)
    ensures target > 0 ==> pct == Finite(((200 * score + target) / (2 * target)) as real)
    ensures target == 0 ==> !pct.Finite?
    ensures score == target && target != 0 ==> pct == Finite(100.0)
  {
    PercentageFacts(score, target);
    RoundedPercent(score as real, target as real)
  }

  lemma PercentageFacts(score: int, target: int)
    ensures target > 0 ==> RoundedPercent(score as real, target as real) == Finite(((200 * score + target) / (2 * target)) as real)
    ensures score == target && target != 0 ==> RoundedPercent(score as real, target as real) == Finite(100.0)
  {
    if target > 0 { RoundedPercentOfInts(score, target); }
    if score == target && target != 0 { RoundedPercentOfSelf(score as real); }
  }

  function Totals(scores: seq<Score>): seq<int>
  {
    seq(|scores|, i requires 0 <= i < |scores| => scores[i].totalScore)
  }

  /** The "Latest Achievement" card: the first (newest) entry's percentage and points. */
  datatype Latest = NoData | LatestEntry(percentage: Num, totalScore: int, targetScore: int)

  datatype Summary = Summary(
    totalScore: int, totalSubtitle: string, averageScore: int, latest: Latest, entries: int)

  /** The four summary cards. */
  function SummaryOf(scores: seq<Score>): (s: Summary)
    ensures s.totalScore == Seqs.Sum(Totals(scores))
    ensures s.entries == |scores|
    ensures scores == [] ==> s.totalSubtitle == "No entries yet" && s.averageScore == 0 && s.latest == NoData
    ensures scores != [] ==>
      && s.totalSubtitle == "+" + Str.IntToString(scores[0].totalScore) + " points"
      && s.averageScore == RoundHalfUp(Seqs.Sum(Totals(scores)) as real / |scores| as real)
      && s.latest == LatestEntry(CalculatePercentage(scores[0].totalScore, scores[0].targetScore),
                                 scores[0].totalScore, scores[0].targetScore)
  {
    var total := Seqs.Sum(Totals(scores));
    Summary(
      total,
      if |scores| > 0 then "+" + Str.IntToString(scores[0].totalScore) + " points" else "No entries yet",
      if |scores| > 0 then RoundHalfUp(total as real / |scores| as real) else 0,
      if |scores| > 0 then LatestEntry(CalculatePercentage(scores[0].totalScore, scores[0].targetScore), scores[0].totalScore, scores[0].targetScore)
      else NoData,
      |scores|)
  }

  /** The Average Score card lies between the lowest and the highest total. */
  lemma AverageCardWithinTotals(scores: seq<Score>, lo: int, hi: int)
    requires scores != []
    requires forall i :: 0 <= i < |scores| ==> lo <= scores[i].totalScore <= hi
    ensures lo <= SummaryOf(scores).averageScore <= hi
  {
    Seqs.SumBounds(Totals(scores), lo, hi);
    RoundedMeanWithin(Seqs.Sum(Totals(scores)), |scores|, lo, hi);
  }

  /** Rows come back newest first. */
  predicate NewestFirst(scores: seq<Score>)
  {
    forall i :: 0 <= i < |scores| - 1 ==> Str.LexLessEq(scores[i + 1].createdAt, scores[i].createdAt)
  }

  /** With rows newest first, the Latest card shows an entry created no earlier than any
      other. */
  lemma {:induction false} LatestIsNewest(scores: seq<Score>, j: int)
    requires NewestFirst(scores) && 0 <= j < |scores|
    ensures Str.LexLessEq(scores[j].createdAt, scores[0].createdAt)
  {
    if j == 0 {
      Str.LexLessEqReflexive(scores[0].createdAt);
    } else {
      LatestIsNewest(scores, j - 1);
      Str.LexLessEqTransitive(scores[j].createdAt, scores[j - 1].createdAt, scores[0].createdAt);
    }
  }
}
