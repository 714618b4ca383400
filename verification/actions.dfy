/** The server actions of the admin dashboard: the arithmetic `getDashboardStats` applies to
    its query results, and the two-step write of `createScore`. Query results are inputs;
    a `None` list stands for a query that returned no data. */
module Actions {
  import opened Wrappers
  import opened JsNumber
  import opened Records
  import Seqs
  import NewScoreForm

  // ------------------------------------------------------------ averageScore

  /** `averageScore` over the `total_score` of the newest hundred rows: 0 with no rows,
      otherwise the unrounded mean. */
  function AverageScore(scoreData: Option<seq<int>>): (avg: real)
    ensures scoreData.None? || scoreData.value == [] ==> avg == 0.0
    ensures scoreData.Some? && scoreData.value != [] ==>
      avg * |scoreData.value| as real == Seqs.Sum(scoreData.value) as real
  {
    if scoreData.Some? && |scoreData.value| > 0 then
      Seqs.Sum(scoreData.value) as real / |scoreData.value| as real
    else 0.0
  }

  /** The mean lies between the smallest and the largest total. */
  lemma AverageWithinBounds(scores: seq<int>, lo: int, hi: int)
    requires scores != []
    requires forall i :: 0 <= i < |scores| ==> lo <= scores[i] <= hi
    ensures lo as real <= AverageScore(Some(scores)) <= hi as real
  {
    Seqs.SumBounds(scores, lo, hi);
    MeanWithin(Seqs.Sum(scores), |scores|, lo, hi);
  }

  /** A sum within [lo * n, hi * n] has its mean within [lo, hi]. */
  lemma MeanWithin(sum: int, n: int, lo: int, hi: int)
    requires n > 0 && lo * n <= sum <= hi * n
    ensures lo as real <= sum as real / n as real <= hi as real
  {
    var avg := sum as real / n as real;
    assert avg * n as real == sum as real;
    assert (lo * n) as real == lo as real * n as real && (hi * n) as real == hi as real * n as real;
  }

  // ------------------------------------------------------------ roleScores

  /** A nested `scores` row of the role query. */
  datatype ScoreTotals = ScoreTotals(totalScore: int, targetScore: int)

  /** The embedded `roles` of a user, which the row type allows to be a list of roles or a
      single role object; only the role names are kept. */
  datatype RolesShape = RoleList(names: seq<string>) | RoleObject(name: string)

  /** A row of the role query: a user with the roles and scores the join returned. */
  datatype RoleUser = RoleUser(roleId: Option<int>, roles: Option<RolesShape>, scores: Option<seq<ScoreTotals>>)

  /** One `roleScores` entry. */
  datatype RoleAcc = RoleAcc(totalScore: int, count: int, targetScore: int)

  /** The `roleScores` dictionary: its entries, and its keys in insertion order (the
      order `Object.keys` reports). */
  datatype Rollup = Rollup(keys: seq<string>, entries: map<string, RoleAcc>)

  /** One element of `rolePerformanceData`. */
  datatype RolePoint = RolePoint(name: string, score: int, target: int)

  /** The guard `user.roles && user.scores && user.scores.length > 0`. */
  predicate Counted(u: RoleUser)
  {
    u.roles.Some? && u.scores.Some? && |u.scores.value| > 0
  }

  /** `user.roles[0]` is a role only for a non-empty list; on an empty list or a single role
      object it is undefined. */
  predicate HasFirstRole(roles: RolesShape)
  {
    roles.RoleList? && roles.names != []
  }

  /** A counted user without a first role: `user.roles[0].name` throws. */
  predicate Throws(u: RoleUser)
  {
    Counted(u) && !HasFirstRole(u.roles.value)
  }

  /** The inner loop: each score adds its total and one to the count, and its target
      replaces the previous one. */
  function AddScores(acc: RoleAcc, scores: seq<ScoreTotals>): RoleAcc
  {
    if scores == [] then acc
    else
      var a := AddScores(acc, scores[..|scores| - 1]);
      var s := scores[|scores| - 1];
      RoleAcc(a.totalScore + s.totalScore, a.count + 1, s.targetScore)
  }

  /** One pass of the outer loop; None when `user.roles[0].name` throws. */
  function AddUser(r: Rollup, u: RoleUser): Option<Rollup>
  {
    if !Counted(u) then Some(r)
    else if !HasFirstRole(u.roles.value) then None
    else
      var name := u.roles.value.names[0];
      var keys := if name in r.entries then r.keys else r.keys + [name];
      var start := if name in r.entries then r.entries[name] else RoleAcc(0, 0, 0);
      Some(Rollup(keys, r.entries[name := AddScores(start, u.scores.value)]))
  }

  /** `roleScores` after the outer loop has seen every user. */
  function RollUp(users: seq<RoleUser>): Option<Rollup>
  {
    if users == [] then Some(Rollup([], map[]))
    else
      match RollUp(users[..|users| - 1])
      case None => None
      case Some(r) => AddUser(r, users[|users| - 1])
  }

  /** Builds `roleScores` in place with the two nested loops. */
  method RollUpRoles(rolePerformance: Option<seq<RoleUser>>) returns (roleScores: Option<Rollup>)
    ensures rolePerformance.None? ==> roleScores == Some(Rollup([], map[]))
    ensures rolePerformance.Some? ==> roleScores == RollUp(rolePerformance.value)
  {
    var keys: seq<string> := [];
    var entries: map<string, RoleAcc> := map[];
    if rolePerformance.None? {
      return Some(Rollup(keys, entries));
    }
    var users := rolePerformance.value;
    for i := 0 to |users|
      invariant RollUp(users[..i]) == Some(Rollup(keys, entries))
    {
      var user := users[i];
      assert users[..i + 1][..i] == users[..i];
      ghost var prev := Rollup(keys, entries);
      if user.roles.Some? && user.scores.Some? && |user.scores.value| > 0 {
        if user.roles.value.RoleObject? || |user.roles.value.names| == 0 {
          RollUpFailurePersists(users, i + 1);
          assert users[..|users|] == users;
          return None;
        }
        var roleName := user.roles.value.names[0];
        if roleName !in entries {
          keys := keys + [roleName];
          entries := entries[roleName := RoleAcc(0, 0, 0)];
        }
        entries := AddEachScore(entries, roleName, user.scores.value);
        assert Rollup(keys, entries) == AddUser(prev, user).value;
      }
    }
    assert users[..|users|] == users;
    return Some(Rollup(keys, entries));
  }

  /** The inner loop: each of a user's scores is added to the role's entry in turn. */
  method AddEachScore(entries: map<string, RoleAcc>, roleName: string, scores: seq<ScoreTotals>)
    returns (updated: map<string, RoleAcc>)
    requires roleName in entries
    ensures updated == entries[roleName := AddScores(entries[roleName], scores)]
  {
    updated := entries;
    for j := 0 to |scores|
      invariant updated == entries[roleName := AddScores(entries[roleName], scores[..j])]
    {
      assert scores[..j + 1][..j] == scores[..j];
      var acc := updated[roleName];
      updated := updated[roleName := RoleAcc(acc.totalScore + scores[j].totalScore, acc.count + 1, scores[j].targetScore)];
    }
    assert scores[..|scores|] == scores;
  }

  /** Once a user has made the loop throw, no later user undoes it. */
  lemma {:induction false} RollUpFailurePersists(users: seq<RoleUser>, i: int)
    requires 0 <= i <= |users| && RollUp(users[..i]) == None
    ensures RollUp(users) == None
    decreases |users| - i
  {
    if i < |users| {
      assert users[..i + 1][..i] == users[..i];
      RollUpFailurePersists(users, i + 1);
    } else {
      assert users[..i] == users;
    }
  }

  /** The rollup fails exactly when some counted user has an empty role list or a single
      role object. */
  lemma {:induction false} RollUpFails(users: seq<RoleUser>)
    ensures RollUp(users) == None <==> exists i :: 0 <= i < |users| && Throws(users[i])
  {
    if users != [] {
      var init := users[..|users| - 1];
      RollUpFails(init);
      assert forall i :: 0 <= i < |init| ==> init[i] == users[i];
      if exists i :: 0 <= i < |users| && Throws(users[i]) {
        var i :| 0 <= i < |users| && Throws(users[i]);
        if i < |init| {
          assert Throws(init[i]);
        }
      }
    }
  }

  /** When the join embeds the user's role as a single object rather than a list, the
      rollup fails as soon as one user has a score. */
  lemma RoleObjectFails(users: seq<RoleUser>, i: int)
    requires 0 <= i < |users| && Counted(users[i]) && users[i].roles.value.RoleObject?
    ensures RollUp(users) == None
  {
    RollUpFails(users);
  }

  /** The sum of `total_score` over some nested scores. */
  function TotalOf(scores: seq<ScoreTotals>): int
  {
    Seqs.Sum(seq(|scores|, i requires 0 <= i < |scores| => scores[i].totalScore))
  }

  lemma TotalOfAppend(a: seq<ScoreTotals>, b: seq<ScoreTotals>)
    ensures TotalOf(a + b) == TotalOf(a) + TotalOf(b)
  {
    var ta := seq(|a|, i requires 0 <= i < |a| => a[i].totalScore);
    var tb := seq(|b|, i requires 0 <= i < |b| => b[i].totalScore);
    var tab := seq(|a + b|, i requires 0 <= i < |a + b| => (a + b)[i].totalScore);
    assert tab == ta + tb;
    Seqs.SumAppend(ta, tb);
  }

  /** Folding scores in adds their total and their number, and keeps the last target. */
  lemma {:induction false} AddScoresSums(acc: RoleAcc, scores: seq<ScoreTotals>)
    ensures AddScores(acc, scores) == RoleAcc(
      acc.totalScore + TotalOf(scores),
      acc.count + |scores|,
      if scores == [] then acc.targetScore else scores[|scores| - 1].targetScore)
  {
    if scores != [] {
      var init := scores[..|scores| - 1];
      AddScoresSums(acc, init);
      TotalOfAppend(init, [scores[|scores| - 1]]);
      assert TotalOf([scores[|scores| - 1]]) == scores[|scores| - 1].totalScore by {
        assert Seqs.Sum([scores[|scores| - 1].totalScore]) == Seqs.Sum([]) + scores[|scores| - 1].totalScore;
      }
      assert init + [scores[|scores| - 1]] == scores;
    }
  }

  /** Reference definition: the scores the loop files under `name`, user by user. */
  function ScoresOfRole(users: seq<RoleUser>, name: string): seq<ScoreTotals>
  {
    if users == [] then []
    else
      var u := users[|users| - 1];
      ScoresOfRole(users[..|users| - 1], name)
        + (if Counted(u) && HasFirstRole(u.roles.value) && u.roles.value.names[0] == name then u.scores.value else [])
  }

  /** A role has an entry exactly when some counted user's first role carries its name; its
      total is the sum of those users' scores, its count their number and its target the
      last one seen. */
  lemma {:induction false} RollUpEntries(users: seq<RoleUser>, name: string)
    requires RollUp(users).Some?
    ensures var r := RollUp(users).value;
            var s := ScoresOfRole(users, name);
            && (name in r.entries <==> s != [])
            && (name in r.entries ==>
                  r.entries[name] == RoleAcc(TotalOf(s), |s|, s[|s| - 1].targetScore))
  {
    if users != [] {
      var init, u := users[..|users| - 1], users[|users| - 1];
      RollUpEntries(init, name);
      var prev := RollUp(init).value;
      var s0 := ScoresOfRole(init, name);
      assert RollUp(users) == AddUser(prev, u);
      assert Counted(u) ==> HasFirstRole(u.roles.value);
      if Counted(u) && u.roles.value.names[0] == name {
        var start := if name in prev.entries then prev.entries[name] else RoleAcc(0, 0, 0);
        assert start == RoleAcc(TotalOf(s0), |s0|, if s0 == [] then 0 else s0[|s0| - 1].targetScore);
        AddScoresSums(start, u.scores.value);
        TotalOfAppend(s0, u.scores.value);
      } else {
        assert ScoresOfRole(users, name) == s0 + [];
        assert s0 + [] == s0;
      }
    }
  }

  /** Keys are distinct, list exactly the entries, and every entry has counted a score. */
  ghost predicate Valid(r: Rollup)
  {
    && (forall i, j :: 0 <= i < j < |r.keys| ==> r.keys[i] != r.keys[j])
    && (forall k :: k in r.entries <==> k in r.keys)
    && (forall k :: k in r.entries ==> r.entries[k].count >= 1)
  }

  lemma {:induction false} RollUpValid(users: seq<RoleUser>)
    requires RollUp(users).Some?
    ensures Valid(RollUp(users).value)
  {
    if users != [] {
      var init, u := users[..|users| - 1], users[|users| - 1];
      RollUpValid(init);
      var prev := RollUp(init).value;
      assert RollUp(users) == AddUser(prev, u);
      if Counted(u) {
        var name := u.roles.value.names[0];
        var start := if name in prev.entries then prev.entries[name] else RoleAcc(0, 0, 0);
        AddScoresSums(start, u.scores.value);
      }
    }
  }

  /** `rolePerformanceData`: one point per key in `Object.keys` order. */
  function RolePerformanceData(r: Rollup): (data: seq<RolePoint>)
    requires forall k :: k in r.keys ==> k in r.entries
    ensures |data| == |r.keys|
    ensures forall i :: 0 <= i < |data| ==> data[i].name == r.keys[i] && data[i].target == r.entries[r.keys[i]].targetScore
  {
    seq(|r.keys|, i requires 0 <= i < |r.keys| =>
      var e := r.entries[r.keys[i]];
      RolePoint(r.keys[i], if e.count > 0 then RoundHalfUp(e.totalScore as real / e.count as real) else 0, e.targetScore))
  }

  /** End to end: each role in the chart is one that some counted user has, and its score is
      the rounded mean of the totals filed under it (the 0 branch never applies), its target
      the last target filed under it. */
  lemma RolePerformanceMeans(users: seq<RoleUser>, i: int)
    requires RollUp(users).Some?
    requires 0 <= i < |RollUp(users).value.keys|
    ensures Valid(RollUp(users).value)
    ensures var r := RollUp(users).value;
            var p := RolePerformanceData(r)[i];
            var s := ScoresOfRole(users, p.name);
            && s != []
            && p.score == RoundHalfUp(TotalOf(s) as real / |s| as real)
            && p.target == s[|s| - 1].targetScore
  {
    RollUpValid(users);
    var r := RollUp(users).value;
    RollUpEntries(users, r.keys[i]);
  }

  // ------------------------------------------------------------ createScore

  /** The `scores` row `createScore` inserts. */
  datatype ScoreInsert = ScoreInsert(
    userId: string, evaluatorId: Option<string>, scoreDate: string,
    totalScore: Option<int>, targetScore: int, comments: string)

  /** A `score_details` row `createScore` inserts. */
  datatype DetailInsert = DetailInsert(scoreId: int, fieldId: int, fieldName: string, fieldValue: string, fieldScore: Option<int>)

  /** The writes attempted, in order. */
  datatype Write = InsertScore(row: ScoreInsert) | InsertDetails(rows: seq<DetailInsert>)

  datatype CreateResult = Success(scoreId: int) | Failure(error: string)

  datatype CreateRun = CreateRun(writes: seq<Write>, result: CreateResult)

  /** The detail rows for a new score id: one per submitted field, in order. */
  function DetailRows(scoreId: int, fields: seq<NewScoreForm.PayloadField>): (rows: seq<DetailInsert>)
    ensures |rows| == |fields|
    ensures forall i :: 0 <= i < |fields| ==>
      rows[i] == DetailInsert(scoreId, fields[i].id, fields[i].name, fields[i].value, fields[i].score)
  {
    seq(|fields|, i requires 0 <= i < |fields| =>
      DetailInsert(scoreId, fields[i].id, fields[i].name, fields[i].value, fields[i].score))
  }

  /** `createScore(formData)`: inserts the score, then (only if that worked) its details.
      `scoreOutcome` is what the score insert returned (the new id or an error) and
      `detailsError` the error of the detail insert, if any. */
  function CreateScore(formData: NewScoreForm.Payload, scoreOutcome: WriteOutcome<int>, detailsError: Option<string>): (run: CreateRun)
    ensures |run.writes| >= 1 && run.writes[0] == InsertScore(ScoreInsert(
      formData.userId, formData.evaluatorId, formData.scoreDate,
      formData.totalScore, formData.targetScore, formData.comments))
    ensures scoreOutcome.Failed? ==> run == CreateRun(run.writes, Failure(scoreOutcome.message)) && |run.writes| == 1
    ensures scoreOutcome.Written? ==>
      && |run.writes| == 2
      && run.writes[1].InsertDetails?
      && run.writes[1].rows == DetailRows(scoreOutcome.value, formData.fields)
    ensures run.result.Success? <==> scoreOutcome.Written? && detailsError.None?
    ensures run.result.Success? ==> run.result.scoreId == scoreOutcome.value
    ensures scoreOutcome.Written? && detailsError.Some? ==> run.result == Failure(detailsError.value)
  {
    var scoreRow := InsertScore(ScoreInsert(
      formData.userId, formData.evaluatorId, formData.scoreDate,
      formData.totalScore, formData.targetScore, formData.comments));
    match scoreOutcome
    case Failed(message) => CreateRun([scoreRow], Failure(message))
    case Written(id) =>
      var writes := [scoreRow, InsertDetails(DetailRows(id, formData.fields))];
      match detailsError
      case Some(message) => CreateRun(writes, Failure(message))
      case None => CreateRun(writes, Success(id))
  }

  /** A form payload that reaches createScore is saved with a detail row per form field,
      each carrying that field's own rounded score. */
  lemma SubmittedDetailsCarryFieldScores(
    selectedUser: string, selectedRole: string, scoreDate: string, evaluatorId: Option<string>,
    comments: string, formFields: seq<NewScoreForm.EvaluationField>, fieldValues: NewScoreForm.FieldValues,
    payload: NewScoreForm.Payload, id: int, detailsError: Option<string>)
    requires |payload.fields| == |formFields|
    requires forall i :: 0 <= i < |formFields| ==> payload.fields[i] == NewScoreForm.PayloadFieldOf(formFields[i], fieldValues)
    ensures var rows := CreateScore(payload, Written(id), detailsError).writes[1].rows;
            && |rows| == |formFields|
            && forall i :: 0 <= i < |formFields| ==>
                 rows[i].fieldScore == NewScoreForm.FieldScore(formFields[i], NewScoreForm.Lookup(fieldValues, formFields[i].id))
  {
  }
}
