/** The role performance bar chart's data. */
module RolePerformance {
  import opened Wrappers
  import DashboardService

  const DefaultTarget: int := 85

  datatype ChartPoint = ChartPoint(name: string, score: real, target: int, total: int)

  /** `chartData`: one point per role entry, in order, every target the constant 85. */
  function ChartData(data: seq<DashboardService.RolePerformance>): (points: seq<ChartPoint>)
    ensures |points| == |data|
    ensures forall i :: 0 <= i < |data| ==>
      && points[i].name == data[i].role
      && points[i].score == data[i].averageScore
      && points[i].total == data[i].totalScores
      && points[i].target == 85
  {
    seq(|data|, i requires 0 <= i < |data| =>
      ChartPoint(data[i].role, data[i].averageScore, DefaultTarget, data[i].totalScores))
  }

  /** The chart shows one bar per returned role, roles without scores included: composed
      with the service, every point's score is the role's mean, or 0 when it has none. */
  lemma ChartFollowsService(roles: seq<DashboardService.RoleRow>, i: int)
    requires 0 <= i < |roles|
    ensures var points := ChartData(DashboardService.RolePerformanceData(Some(roles)));
            && |points| == |roles|
            && points[i].name == roles[i].name
            && points[i].total == |DashboardService.RoleScores(roles[i])|
            && (points[i].total == 0 ==> points[i].score == 0.0)
  {
  }
}
