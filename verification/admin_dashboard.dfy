/** The admin dashboard page: chart points, the target-completion figures and the list of
    recent scores, all derived from the `DashboardStats` the service returned. */
module AdminDashboard {
  import opened Wrappers
  import opened JsNumber
  import DashboardService

  /** A point of the overview chart; `date` is the score date its label is formatted from. */
  datatype OverviewPoint = OverviewPoint(date: string, actual: int, target: int)

  /** `overviewData`: one point per monthly score, in order. */
  function OverviewData(monthly: seq<DashboardService.MonthlyScore>): (points: seq<OverviewPoint>)
    ensures |points| == |monthly|
    ensures forall i :: 0 <= i < |monthly| ==>
      points[i].actual == monthly[i].totalScore && points[i].target == monthly[i].targetScore
      && points[i].date == monthly[i].scoreDate
  {
    seq(|monthly|, i requires 0 <= i < |monthly| =>
      OverviewPoint(monthly[i].scoreDate, monthly[i].totalScore, monthly[i].targetScore))
  }

  /** `targetCompletion`: the average as a rounded percentage of the top performer's
      target, or 0 without a top performer. */
  function TargetCompletion(averageScore: real, topPerformer: Option<DashboardService.TopPerformer>): (c: Num)
    ensures topPerformer.None? ==> c == Finite(0.0)
    ensures topPerformer.Some? && topPerformer.value.targetScore != 0 ==>
      c.Finite? && c.r == RoundHalfUp(averageScore / topPerformer.value.targetScore as real * 100.0) as real
    ensures topPerformer.Some? && topPerformer.value.targetScore == 0 ==> !c.Finite?
  {
    match topPerformer
    case None => Finite(0.0)
    case Some(top) => RoundedPercent(averageScore, top.targetScore as real)
  }

  /** `remainingToTarget`: 100 minus the completion, with no clamp. */
  function RemainingToTarget(completion: Num): (r: Num)
    ensures completion.Finite? ==> r.Finite? && r.r + completion.r == 100.0
    ensures !completion.Finite? ==> !r.Finite?
  {
    Minus(100.0, completion)
  }

  /** The remainder goes negative exactly when completion passes 100 percent. */
  lemma RemainingNegativeBeyondTarget(averageScore: real, top: DashboardService.TopPerformer)
    requires top.targetScore > 0
    ensures var c := TargetCompletion(averageScore, Some(top));
            RemainingToTarget(c).r < 0.0 <==> c.r > 100.0
  {
  }

  /** Completion is 100 and nothing remains when the average equals the target. */
  lemma CompletionAtTarget(top: DashboardService.TopPerformer)
    requires top.targetScore != 0
    ensures TargetCompletion(top.targetScore as real, Some(top)) == Finite(100.0)
    ensures RemainingToTarget(TargetCompletion(top.targetScore as real, Some(top))) == Finite(0.0)
  {
    RoundedPercentOfSelf(top.targetScore as real);
  }

  /** `monthlyScores.slice(-5)`: the last min(5, n) scores, in their original order. */
  function LastFive<T>(s: seq<T>): (r: seq<T>)
    ensures |r| == if |s| < 5 then |s| else 5
    ensures s[..|s| - |r|] + r == s
  {
    var start := if |s| < 5 then 0 else |s| - 5;
    assert s[..start] + s[start..] == s;
    s[start..]
  }
}
