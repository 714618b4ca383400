/** `ScoreService.createScore`: totals summed from the submitted details, then a score
    insert followed by a detail insert, each of which can fail and throw. */
module ScoreService {
  import opened Wrappers
  import opened Records
  import Seqs

  /** An element of `score_details` in a create request (`field_value` is a number there). */
  datatype DetailInput = DetailInput(fieldId: int, fieldName: string, fieldValue: int, fieldScore: int)

  datatype ScoreCreateInput = ScoreCreateInput(
    userId: int, evaluatorId: int, scoreDate: string, comments: Option<string>, scoreDetails: seq<DetailInput>)

  /** The `scores` row inserted first. */
  datatype NewScore = NewScore(
    userId: int, evaluatorId: int, scoreDate: string, totalScore: int, targetScore: int, comments: Option<string>)

  /** A `score_details` row: the input detail plus the new score's id. */
  datatype DetailRow = DetailRow(scoreId: int, fieldId: int, fieldName: string, fieldValue: int, fieldScore: int)

  datatype Write = InsertScore(score: NewScore) | InsertDetails(rows: seq<DetailRow>)

  datatype Outcome = Returned(score: ScoreRow) | Thrown(message: string)

  datatype Run = Run(writes: seq<Write>, outcome: Outcome)

  /** `reduce((sum, detail) => sum + detail.field_score, 0)` */
  function TotalScore(details: seq<DetailInput>): int
  {
    Seqs.Sum(seq(|details|, i requires 0 <= i < |details| => details[i].fieldScore))
  }

  /** `reduce((sum, detail) => sum + Number(detail.field_value), 0)` */
  function TargetScore(details: seq<DetailInput>): int
  {
    Seqs.Sum(seq(|details|, i requires 0 <= i < |details| => details[i].fieldValue))
  }

  /** Both totals are additive over the details, and 0 for none: submitting details in two
      parts sums to submitting them together. */
  lemma TotalsAdditive(a: seq<DetailInput>, b: seq<DetailInput>)
    ensures TotalScore([]) == 0 && TargetScore([]) == 0
    ensures TotalScore(a + b) == TotalScore(a) + TotalScore(b)
    ensures TargetScore(a + b) == TargetScore(a) + TargetScore(b)
  {
    var sa := seq(|a|, i requires 0 <= i < |a| => a[i].fieldScore);
    var sb := seq(|b|, i requires 0 <= i < |b| => b[i].fieldScore);
    assert seq(|a + b|, i requires 0 <= i < |a + b| => (a + b)[i].fieldScore) == sa + sb;
    Seqs.SumAppend(sa, sb);
    var va := seq(|a|, i requires 0 <= i < |a| => a[i].fieldValue);
    var vb := seq(|b|, i requires 0 <= i < |b| => b[i].fieldValue);
    assert seq(|a + b|, i requires 0 <= i < |a + b| => (a + b)[i].fieldValue) == va + vb;
    Seqs.SumAppend(va, vb);
  }

  /** With every field score between 0 and its field value, the total never exceeds the
      target. */
  lemma {:induction false} TotalAtMostTarget(details: seq<DetailInput>)
    requires forall i :: 0 <= i < |details| ==> 0 <= details[i].fieldScore <= details[i].fieldValue
    ensures 0 <= TotalScore(details) <= TargetScore(details)
  {
    if details != [] {
      var init, last := details[..|details| - 1], details[|details| - 1];
      TotalAtMostTarget(init);
      TotalsAdditive(init, [last]);
      assert init + [last] == details;
      assert TotalScore([last]) == last.fieldScore by {
        assert Seqs.Sum([last.fieldScore]) == Seqs.Sum([]) + last.fieldScore;
      }
      assert TargetScore([last]) == last.fieldValue by {
        assert Seqs.Sum([last.fieldValue]) == Seqs.Sum([]) + last.fieldValue;
      }
    }
  }

  function DetailRows(scoreId: int, details: seq<DetailInput>): (rows: seq<DetailRow>)
    ensures |rows| == |details|
    ensures forall i :: 0 <= i < |details| ==>
      var d := details[i];
      rows[i] == DetailRow(scoreId, d.fieldId, d.fieldName, d.fieldValue, d.fieldScore)
  {
    seq(|details|, i requires 0 <= i < |details| =>
      DetailRow(scoreId, details[i].fieldId, details[i].fieldName, details[i].fieldValue, details[i].fieldScore))
  }

  /** `createScore(input)`. `scoreInsert` is what the score insert returned (the created row
      or an error); `detailsError` the error of the detail insert, if any. */
  function CreateScore(input: ScoreCreateInput, scoreInsert: WriteOutcome<ScoreRow>, detailsError: Option<string>): (run: Run)
    ensures |run.writes| >= 1
    ensures run.writes[0] == InsertScore(NewScore(
      input.userId, input.evaluatorId, input.scoreDate,
      TotalScore(input.scoreDetails), TargetScore(input.scoreDetails), input.comments))
    ensures scoreInsert.Failed? ==> |run.writes| == 1 && run.outcome == Thrown(scoreInsert.message)
    ensures scoreInsert.Written? ==>
      && |run.writes| == 2
      && run.writes[1] == InsertDetails(DetailRows(scoreInsert.value.id, input.scoreDetails))
      && run.outcome == (if detailsError.Some? then Thrown(detailsError.value) else Returned(scoreInsert.value))
  {
    var details := input.scoreDetails;
    var first := InsertScore(NewScore(
      input.userId, input.evaluatorId, input.scoreDate,
      TotalScore(details), TargetScore(details), input.comments));
    match scoreInsert
    case Failed(message) => Run([first], Thrown(message))
    case Written(score) =>
      var writes := [first, InsertDetails(DetailRows(score.id, details))];
      match detailsError
      case Some(message) => Run(writes, Thrown(message))
      case None => Run(writes, Returned(score))
  }
}
