/** `DashboardService.getDashboardStats`: the per-role means and the defaults and
    flattening applied to the query results before they are returned. */
module DashboardService {
  import opened Wrappers
  import Seqs

  /** A user nested under a role, with the totals of that user's scores. */
  datatype RoleMember = RoleMember(scores: Option<seq<int>>)

  /** A row of the role query: the role's name and its users. */
  datatype RoleRow = RoleRow(name: string, users: Option<seq<RoleMember>>)

  /** One element of `rolePerformanceData`. */
  datatype RolePerformance = RolePerformance(role: string, averageScore: real, totalScores: int)

  /** `role.users?.flatMap(user => user.scores || []) || []`: the totals of every score of
      every user of the role, user by user. */
  function RoleScores(role: RoleRow): seq<int>
  {
    if role.users.None? then [] else Flatten(role.users.value)
  }

  function Flatten(users: seq<RoleMember>): seq<int>
  {
    if users == [] then []
    else Flatten(users[..|users| - 1]) + users[|users| - 1].scores.GetOr([])
  }

  /** The number of scores of some users, counting a missing list as empty. */
  function ScoreCount(users: seq<RoleMember>): nat
  {
    if users == [] then 0 else |users[0].scores.GetOr([])| + ScoreCount(users[1..])
  }

  /** The flattened list has as many totals as the users have scores together. */
  lemma {:induction false} FlattenLength(users: seq<RoleMember>)
    ensures |Flatten(users)| == ScoreCount(users)
  {
    if users != [] {
      var init, last := users[..|users| - 1], users[|users| - 1];
      FlattenLength(init);
      ScoreCountSnoc(init, last);
      assert init + [last] == users;
    }
  }

  lemma {:induction false} ScoreCountSnoc(users: seq<RoleMember>, u: RoleMember)
    ensures ScoreCount(users + [u]) == ScoreCount(users) + |u.scores.GetOr([])|
  {
    if users != [] {
      assert (users + [u])[1..] == users[1..] + [u];
      ScoreCountSnoc(users[1..], u);
    }
  }

  /** One role's entry: its name, the number of its scores and their unrounded mean, or
      0 when it has none. */
  function RoleEntry(role: RoleRow): (e: RolePerformance)
    ensures e.role == role.name && e.totalScores == |RoleScores(role)|
    ensures e.totalScores == 0 ==> e.averageScore == 0.0
    ensures e.totalScores > 0 ==> e.averageScore * e.totalScores as real == Seqs.Sum(RoleScores(role)) as real
  {
    var scores := RoleScores(role);
    var total := |scores|;
    var average := if total > 0 then Seqs.Sum(scores) as real / total as real else 0.0;
    RolePerformance(role.name, average, total)
  }

  /** `rolePerformanceData`: one entry per returned role, in order, roles without scores
      included; no data gives the empty list. */
  function RolePerformanceData(rolePerformance: Option<seq<RoleRow>>): (data: seq<RolePerformance>)
    ensures rolePerformance.None? ==> data == []
    ensures rolePerformance.Some? ==>
      && |data| == |rolePerformance.value|
      && forall i :: 0 <= i < |data| ==> data[i] == RoleEntry(rolePerformance.value[i])
  {
    match rolePerformance
    case None => []
    case Some(roles) => seq(|roles|, i requires 0 <= i < |roles| => RoleEntry(roles[i]))
  }

  /** A role's `total_scores` counts the scores of all of its users. */
  lemma TotalScoresCountsUsers(role: RoleRow)
    ensures RoleEntry(role).totalScores == (if role.users.None? then 0 else ScoreCount(role.users.value))
  {
    if role.users.Some? {
      FlattenLength(role.users.value);
    }
  }

  /** The first row of the statistics procedure. */
  datatype ScoreStatistics = ScoreStatistics(totalScores: Option<int>, averageScore: Option<real>)

  datatype TopPerformer = TopPerformer(totalScore: int, targetScore: int, fullName: string, roleName: string)

  /** A monthly score row with its joined user and role; the role is None for a user whose
      role id is null, where the join gives no role. */
  datatype ScoreWithUser = ScoreWithUser(
    scoreDate: string, totalScore: int, targetScore: int, fullName: string, email: string, roleName: Option<string>)

  /** A returned monthly score: the user flattened to name, email and role. */
  datatype MonthlyScore = MonthlyScore(
    scoreDate: string, totalScore: int, targetScore: int, userName: string, userEmail: string, userRole: string)

  datatype DashboardStats = DashboardStats(
    totalUsers: int, totalScores: int, averageScore: real, topPerformer: Option<TopPerformer>,
    monthlyScores: seq<MonthlyScore>, rolePerformanceData: seq<RolePerformance>)

  /** What `getDashboardStats` does: returns the statistics, or throws when a monthly
      score's user has no role (`score.user.role.name` reads a property of null). */
  datatype StatsOutcome = Returned(stats: DashboardStats) | ThrowsOnMissingRole

  function Flat(s: ScoreWithUser): MonthlyScore
    requires s.roleName.Some?
  {
    MonthlyScore(s.scoreDate, s.totalScore, s.targetScore, s.fullName, s.email, s.roleName.value)
  }

  /** Every monthly row has a joined role. */
  predicate AllHaveRoles(monthly: seq<ScoreWithUser>)
  {
    forall i :: 0 <= i < |monthly| ==> monthly[i].roleName.Some?
  }

  /** The outcome of `getDashboardStats` for the five query results. */
  function DashboardStatsOf(
    totalUsers: Option<int>, scoreStats: Option<seq<ScoreStatistics>>,
    topPerformer: Option<seq<TopPerformer>>, monthlyScores: Option<seq<ScoreWithUser>>,
    rolePerformance: Option<seq<RoleRow>>): (r: StatsOutcome)
    ensures r == ThrowsOnMissingRole <==>
      monthlyScores.Some? && exists i :: 0 <= i < |monthlyScores.value| && monthlyScores.value[i].roleName.None?
    ensures r.Returned? && totalUsers.None? ==> r.stats.totalUsers == 0
    ensures r.Returned? && totalUsers.Some? ==> r.stats.totalUsers == totalUsers.value
    ensures r.Returned? && (scoreStats.None? || scoreStats.value == []) ==>
      r.stats.totalScores == 0 && r.stats.averageScore == 0.0
    ensures r.Returned? && scoreStats.Some? && scoreStats.value != [] ==>
      && r.stats.totalScores == scoreStats.value[0].totalScores.GetOr(0)
      && r.stats.averageScore == scoreStats.value[0].averageScore.GetOr(0.0)
    ensures r.Returned? && (topPerformer.None? || topPerformer.value == []) ==> r.stats.topPerformer.None?
    ensures r.Returned? && topPerformer.Some? && topPerformer.value != [] ==>
      r.stats.topPerformer == Some(topPerformer.value[0])
    ensures r.Returned? && monthlyScores.None? ==> r.stats.monthlyScores == []
    ensures r.Returned? && monthlyScores.Some? ==>
      && |r.stats.monthlyScores| == |monthlyScores.value|
      && forall i :: 0 <= i < |monthlyScores.value| ==>
           var m, s := r.stats.monthlyScores[i], monthlyScores.value[i];
           m.scoreDate == s.scoreDate && m.totalScore == s.totalScore && m.targetScore == s.targetScore
           && m.userName == s.fullName && m.userEmail == s.email && s.roleName == Some(m.userRole)
    ensures r.Returned? ==> r.stats.rolePerformanceData == RolePerformanceData(rolePerformance)
  {
    var monthly := monthlyScores.GetOr([]);
    if !AllHaveRoles(monthly) then ThrowsOnMissingRole
    else
      var first := if scoreStats.Some? && |scoreStats.value| > 0 then Some(scoreStats.value[0]) else None;
      Returned(DashboardStats(
        totalUsers.GetOr(0),
        if first.Some? then first.value.totalScores.GetOr(0) else 0,
        if first.Some? then first.value.averageScore.GetOr(0.0) else 0.0,
        if topPerformer.Some? && |topPerformer.value| > 0 then Some(topPerformer.value[0]) else None,
        seq(|monthly|, i requires 0 <= i < |monthly| => Flat(monthly[i])),
        RolePerformanceData(rolePerformance)))
  }
}
