/** The score entry form: per-field points, the total shown and submitted, the default
    values filled in when a role's fields load, and the submit guard and payload.
    A raw value is the string the form holds for a field; only integer numerals are read
    as numbers (see Text.ParseInt), and a field score is None when a rating or number
    field holds any other text. */
module NewScoreForm {
  import opened Wrappers
  import opened JsNumber
  import Str = Text

  datatype FieldType = Rating | Number | Text | Boolean

  datatype EvaluationField = EvaluationField(
    id: int, name: string, fieldType: FieldType, isRequired: bool, scoreWeight: int)

  /** `fieldValues`: field id to raw value. */
  type FieldValues = map<int, string>

  /** What `calculateTotalScore` returns. A None `points` is NaN in the source for
      non-numeric text, or a value the model does not read: a number `Number()` accepts
      that is not an integer numeral. */
  datatype Totals = Totals(points: Option<int>, maxPoints: int)

  const MaxRating: int := 5

  /** `fieldValues[id]`, undefined when the form holds nothing for the field. */
  function Lookup(values: FieldValues, id: int): Option<string>
  {
    if id in values then Some(values[id]) else None
  }

  /** `Number(value || 0)`: a missing or empty value reads as 0, an integer numeral as its
      value; any other text is None (NaN in the source only for non-numeric text). */
  function NumberOf(value: Option<string>): Option<int>
  {
    if value == None || value == Some("") then Some(0) else Str.ParseInt(value.value)
  }

  /** `Math.min(100, Math.max(0, v))` */
  function Clamp(v: int): (c: int)
    ensures 0 <= c <= 100
    ensures 0 <= v <= 100 ==> c == v
  {
    if v < 0 then 0 else if v > 100 then 100 else v
  }

  // ------------------------------------------------------------ calculateFieldScore

  /** `calculateFieldScore(field, value)`, rounded with Math.round. The weight is
      multiplied in before the division; `RoundRatingTerm` and `RoundNumberTerm` show
      that this rounds like the source's `value / max * weight`. */
  function FieldScore(field: EvaluationField, value: Option<string>): Option<int>
  {
    var w := field.scoreWeight;
    match field.fieldType
    case Boolean => Some(if value == Some("yes") then w else 0)
    case Rating =>
      (match NumberOf(value)
       case Some(rating) => Some(RoundHalfUp((rating * w) as real / MaxRating as real))
       case None => None)
    case Number =>
      (match NumberOf(value)
       case Some(v) => Some(RoundHalfUp((Clamp(v) * w) as real / 100.0))
       case None => None)
    case Text => Some(0)
  }

  /** The source's own rating expression, Math.round(rating / 5 * weight), is the closed
      form `RatingScore` gives for `FieldScore`. */
  lemma RoundRatingTerm(r: int, w: int)
    ensures RoundHalfUp((r as real / MaxRating as real) * w as real) == (2 * (r * w) + 5) / 10
  {
    RatingTerm(r, w);
    RoundQuotient(r * w, MaxRating);
  }

  /** The source's own number expression, Math.round(clamp(value) / 100 * weight), is the
      closed form `NumberScore` gives for `FieldScore`. */
  lemma RoundNumberTerm(c: int, w: int)
    ensures RoundHalfUp((c as real / 100.0) * w as real) == (2 * (c * w) + 100) / 200
  {
    NumberTerm(c, w);
    RoundQuotient(c * w, 100);
  }

  /** rating / 5 * weight, as the product first and in hundredths. */
  lemma RatingTerm(r: int, w: int)
    ensures (r as real / MaxRating as real) * w as real == (r * w) as real / MaxRating as real
    ensures (r as real / MaxRating as real) * w as real == (20 * (r * w)) as real / 100.0
  {
    ScaledQuotient(r, MaxRating, w);
  }

  /** value / 100 * weight, as the product first. */
  lemma NumberTerm(c: int, w: int)
    ensures (c as real / 100.0) * w as real == (c * w) as real / 100.0
  {
    ScaledQuotient(c, 100, w);
  }

  /** A boolean field scores its whole weight for "yes" and nothing for any other value. */
  lemma BooleanScore(field: EvaluationField, value: Option<string>)
    requires field.fieldType == Boolean
    ensures value == Some("yes") ==> FieldScore(field, value) == Some(field.scoreWeight)
    ensures value != Some("yes") ==> FieldScore(field, value) == Some(0)
  {
  }

  /** A rating r scores round(r/5 * weight) == (2rw + 5) / 10, with r unclamped and a
      missing or empty value read as 0. */
  lemma RatingScore(field: EvaluationField, value: Option<string>, rating: int)
    requires field.fieldType == Rating
    requires NumberOf(value) == Some(rating)
    ensures FieldScore(field, value) == Some((2 * (rating * field.scoreWeight) + 5) / 10)
  {
    RoundQuotient(rating * field.scoreWeight, MaxRating);
  }

  /** A number v scores round(clamp(v)/100 * weight) == (2cw + 100) / 200 with c = clamp(v). */
  lemma NumberScore(field: EvaluationField, value: Option<string>, v: int)
    requires field.fieldType == Number
    requires NumberOf(value) == Some(v)
    ensures FieldScore(field, value) == Some((2 * (Clamp(v) * field.scoreWeight) + 100) / 200)
  {
    RoundQuotient(Clamp(v) * field.scoreWeight, 100);
  }

  /** A number field scores between 0 and its weight whatever number is entered. */
  lemma NumberScoreBounds(field: EvaluationField, value: Option<string>, v: int)
    requires field.fieldType == Number && field.scoreWeight >= 0
    requires NumberOf(value) == Some(v)
    ensures FieldScore(field, value).Some?
    ensures 0 <= FieldScore(field, value).value <= field.scoreWeight
  {
    NumberScore(field, value, v);
    ScaledPointsBound(Clamp(v), field.scoreWeight);
  }

  lemma ScaledPointsBound(c: int, w: int)
    requires 0 <= c <= 100 && w >= 0
    ensures 0 <= (2 * (c * w) + 100) / 200 <= w
  {
    ProductWithin(c, 100, w);
    var q := (2 * (c * w) + 100) / 200;
    assert q * 200 <= 2 * (c * w) + 100 < 200 * (w + 1);
  }

  /** Scoring a number v is scoring its clamped value clamp(v). */
  lemma NumberScoreClamped(field: EvaluationField, value: Option<string>, v: int)
    requires field.fieldType == Number
    requires NumberOf(value) == Some(v)
    ensures FieldScore(field, value) == FieldScore(field, Some(Str.IntToString(Clamp(v))))
  {
    var clamped := Str.IntToString(Clamp(v));
    Str.IntToStringRoundTrip(Clamp(v));
    assert clamped != "" by {
      assert Str.ParseInt("") == None;
    }
    assert NumberOf(Some(clamped)) == Some(Clamp(v));
    NumberScore(field, value, v);
    NumberScore(field, Some(clamped), Clamp(v));
  }

  /** A text field scores 0 whatever it holds. */
  lemma TextScoresZero(field: EvaluationField, value: Option<string>)
    requires field.fieldType == Text
    ensures FieldScore(field, value) == Some(0)
  {
  }

  /** For weight 10 the five ratings score 2, 4, 6, 8 and 10. */
  lemma RatingScoresWeightTen(field: EvaluationField)
    requires field.fieldType == Rating && field.scoreWeight == 10
    ensures FieldScore(field, Some("1")) == Some(2)
    ensures FieldScore(field, Some("2")) == Some(4)
    ensures FieldScore(field, Some("3")) == Some(6)
    ensures FieldScore(field, Some("4")) == Some(8)
    ensures FieldScore(field, Some("5")) == Some(10)
  {
    WeightTenScore(field, "1", 1);
    WeightTenScore(field, "2", 2);
    WeightTenScore(field, "3", 3);
    WeightTenScore(field, "4", 4);
    WeightTenScore(field, "5", 5);
  }

  /** A rating r of a weight-10 field scores 2r. */
  lemma WeightTenScore(field: EvaluationField, digit: string, r: int)
    requires field.fieldType == Rating && field.scoreWeight == 10
    requires |digit| == 1 && Str.IsDigit(digit[0]) && Str.DigitValue(digit[0]) == r
    ensures FieldScore(field, Some(digit)) == Some(2 * r)
  {
    assert digit[..0] == [] && Str.IsNumeral(digit);
    assert Str.DigitsValue(digit) == r;
    RatingScore(field, Some(digit), r);
  }

  // ------------------------------------------------------------ calculateTotalScore

  /** The unrounded amount `calculateTotalScore` adds to totalPoints for one field, in
      hundredths of a point (boolean 100w, rating 20rw, number clamp(v)w, other 0). */
  function Contribution(field: EvaluationField, value: Option<string>): Option<int>
  {
    var w := field.scoreWeight;
    match field.fieldType
    case Boolean => Some(if value == Some("yes") then 100 * w else 0)
    case Rating =>
      (match NumberOf(value)
       case Some(rating) => Some(20 * (rating * w))
       case None => None)
    case Number =>
      (match NumberOf(value)
       case Some(v) => Some(Clamp(v) * w)
       case None => None)
    case Text => Some(0)
  }

  /** Hundredths are exact: a rating's contribution c is the source's floating sum term
      rating / 5 * weight, times 100. */
  lemma RatingContributionIsExact(field: EvaluationField, value: Option<string>, r: int)
    requires field.fieldType == Rating && NumberOf(value) == Some(r)
    ensures Contribution(field, value).Some?
    ensures Contribution(field, value).value as real / 100.0 == (r as real / MaxRating as real) * field.scoreWeight as real
  {
    RatingTerm(r, field.scoreWeight);
  }

  /** A number's contribution is the source's clamp(value) / 100 * weight, times 100. */
  lemma NumberContributionIsExact(field: EvaluationField, value: Option<string>, v: int)
    requires field.fieldType == Number && NumberOf(value) == Some(v)
    ensures Contribution(field, value).Some?
    ensures Contribution(field, value).value as real / 100.0 == (Clamp(v) as real / 100.0) * field.scoreWeight as real
  {
    NumberTerm(Clamp(v), field.scoreWeight);
  }

  /** What one field adds to maxPoints: its weight, unless it is a text field. */
  function MaxContribution(field: EvaluationField): int
  {
    if field.fieldType == Text then 0 else field.scoreWeight
  }

  /** The unrounded total in hundredths; None as soon as one value is not a numeral. */
  function Hundredths(fields: seq<EvaluationField>, values: FieldValues): Option<int>
  {
    if fields == [] then Some(0)
    else
      var last := fields[|fields| - 1];
      match (Hundredths(fields[..|fields| - 1], values), Contribution(last, Lookup(values, last.id)))
      case (Some(h), Some(c)) => Some(h + c)
      case (_, _) => None
  }

  /** maxPoints: the weights of the boolean, rating and number fields. */
  function MaxPoints(fields: seq<EvaluationField>): int
  {
    if fields == [] then 0 else MaxPoints(fields[..|fields| - 1]) + MaxContribution(fields[|fields| - 1])
  }

  /** One more field adds its contribution to the running total and its weight to the
      maximum. */
  lemma PrefixStep(fields: seq<EvaluationField>, values: FieldValues, i: int)
    requires 0 <= i < |fields|
    ensures var c := Contribution(fields[i], Lookup(values, fields[i].id));
      Hundredths(fields[..i + 1], values) ==
        if Hundredths(fields[..i], values).Some? && c.Some? then Some(Hundredths(fields[..i], values).value + c.value) else None
    ensures MaxPoints(fields[..i + 1]) == MaxPoints(fields[..i]) + MaxContribution(fields[i])
  {
    assert fields[..i + 1][..i] == fields[..i];
  }

  /** The switch on the field's type in the body of `calculateTotalScore`'s loop: the running
      total gains the field's contribution (and is lost once a value is not a numeral), and
      the maximum gains the field's weight unless it is a text field. */
  method AccumulateField(field: EvaluationField, value: Option<string>, totalPoints: Option<int>, maxPoints: int)
    returns (newTotal: Option<int>, newMax: int)
    ensures var c := Contribution(field, value);
      newTotal == if totalPoints.Some? && c.Some? then Some(totalPoints.value + c.value) else None
    ensures newMax == maxPoints + MaxContribution(field)
  {
    newTotal, newMax := totalPoints, maxPoints;
    match field.fieldType {
      case Boolean =>
        if value == Some("yes") {
          newTotal := if newTotal.Some? then Some(newTotal.value + 100 * field.scoreWeight) else None;
        } else {
          newTotal := if newTotal.Some? then Some(newTotal.value + 0) else None;
        }
        newMax := newMax + field.scoreWeight;
      case Rating =>
        var rating := NumberOf(value);
        assert Contribution(field, value) == if rating.Some? then Some(20 * (rating.value * field.scoreWeight)) else None;
        newTotal := if newTotal.Some? && rating.Some? then Some(newTotal.value + 20 * (rating.value * field.scoreWeight)) else None;
        newMax := newMax + field.scoreWeight;
      case Number =>
        var v := NumberOf(value);
        assert Contribution(field, value) == if v.Some? then Some(Clamp(v.value) * field.scoreWeight) else None;
        newTotal := if newTotal.Some? && v.Some? then Some(newTotal.value + Clamp(v.value) * field.scoreWeight) else None;
        newMax := newMax + field.scoreWeight;
      case Text =>
        newTotal := if newTotal.Some? then Some(newTotal.value + 0) else None;
    }
  }

  /** `calculateTotalScore()`: sums the unrounded contributions and rounds once. */
  method CalculateTotalScore(formFields: seq<EvaluationField>, fieldValues: FieldValues)
    returns (total: Totals)
    ensures formFields == [] ==> total == Totals(Some(0), 0)
    ensures total.points.Some? <==> Hundredths(formFields, fieldValues).Some?
    ensures total.points.Some? ==>
      total.points.value == RoundHalfUp(Hundredths(formFields, fieldValues).value as real / 100.0)
    ensures total.maxPoints == MaxPoints(formFields)
  {
    if |formFields| == 0 {
      return Totals(Some(0), 0);
    }
    var totalPoints: Option<int> := Some(0);
    var maxPoints := 0;
    for i := 0 to |formFields|
      invariant totalPoints == Hundredths(formFields[..i], fieldValues)
      invariant maxPoints == MaxPoints(formFields[..i])
    {
      var field := formFields[i];
      PrefixStep(formFields, fieldValues, i);
      totalPoints, maxPoints := AccumulateField(field, Lookup(fieldValues, field.id), totalPoints, maxPoints);
    }
    assert formFields[..|formFields|] == formFields;
    total := Totals(if totalPoints.Some? then Some(RoundHalfUp(totalPoints.value as real / 100.0)) else None, maxPoints);
  }

  /** The source's input ranges: weights are not negative and ratings lie in 1..5. */
  predicate InRange(field: EvaluationField, value: Option<string>)
  {
    && field.scoreWeight >= 0
    && (field.fieldType == Rating ==> NumberOf(value).Some? && 1 <= NumberOf(value).value <= MaxRating)
  }

  /** Within those ranges a field adds between 0 and 100 times its maxPoints share. */
  lemma ContributionBounds(field: EvaluationField, value: Option<string>)
    requires InRange(field, value) && Contribution(field, value).Some?
    ensures 0 <= Contribution(field, value).value <= 100 * MaxContribution(field)
  {
    var w := field.scoreWeight;
    match field.fieldType {
      case Rating =>
        ProductWithin(NumberOf(value).value, MaxRating, w);
      case Number =>
        ProductWithin(Clamp(NumberOf(value).value), 100, w);
      case Boolean =>
      case Text =>
    }
  }

  lemma ProductWithin(c: int, m: int, w: int)
    requires 0 <= c <= m && w >= 0
    ensures 0 <= c * w <= m * w
  {
    assert (m - c) * w >= 0;
  }

  /** With ratings in 1..5 and non-negative weights, the unrounded total lies between 0
      and 100 times maxPoints. */
  lemma {:induction false} HundredthsWithinMax(fields: seq<EvaluationField>, values: FieldValues)
    requires forall i :: 0 <= i < |fields| ==> InRange(fields[i], Lookup(values, fields[i].id))
    requires Hundredths(fields, values).Some?
    ensures 0 <= Hundredths(fields, values).value <= 100 * MaxPoints(fields)
  {
    if fields != [] {
      var last := fields[|fields| - 1];
      HundredthsWithinMax(fields[..|fields| - 1], values);
      ContributionBounds(last, Lookup(values, last.id));
    }
  }

  /** The total shown and submitted never exceeds maxPoints (ratings 1..5, weights >= 0). */
  lemma PointsWithinMax(fields: seq<EvaluationField>, values: FieldValues)
    requires forall i :: 0 <= i < |fields| ==> InRange(fields[i], Lookup(values, fields[i].id))
    requires Hundredths(fields, values).Some?
    ensures 0 <= RoundHalfUp(Hundredths(fields, values).value as real / 100.0) <= MaxPoints(fields)
  {
    HundredthsWithinMax(fields, values);
    var h := Hundredths(fields, values).value;
    RoundQuotient(h, 100);
    assert (2 * h + 100) / 200 <= (200 * MaxPoints(fields) + 100) / 200;
  }

  /** maxPoints does not depend on the entered values, and equals the weight sum of the
      scored fields. */
  lemma {:induction false} MaxPointsIsScoredWeight(fields: seq<EvaluationField>)
    ensures MaxPoints(fields) == ScoredWeight(fields)
  {
    if fields != [] {
      var init, last := fields[..|fields| - 1], fields[|fields| - 1];
      MaxPointsIsScoredWeight(init);
      ScoredWeightSnoc(init, last);
      assert init + [last] == fields;
    }
  }

  /** Reference definition: the weight sum of the non-text fields, front to back. */
  function ScoredWeight(fields: seq<EvaluationField>): int
  {
    if fields == [] then 0
    else (if fields[0].fieldType == Text then 0 else fields[0].scoreWeight) + ScoredWeight(fields[1..])
  }

  lemma {:induction false} ScoredWeightSnoc(fields: seq<EvaluationField>, f: EvaluationField)
    ensures ScoredWeight(fields + [f]) == ScoredWeight(fields) + MaxContribution(f)
  {
    if fields != [] {
      assert (fields + [f])[1..] == fields[1..] + [f];
      ScoredWeightSnoc(fields[1..], f);
    }
  }

  // ------------------------------------------------------------ per-field vs total rounding

  /** Each saved field score is its own contribution rounded on its own. */
  lemma FieldScoreRoundsContribution(field: EvaluationField, value: Option<string>)
    ensures FieldScore(field, value).Some? <==> Contribution(field, value).Some?
    ensures Contribution(field, value).Some? ==>
      FieldScore(field, value).value == RoundHalfUp(Contribution(field, value).value as real / 100.0)
  {
    match field.fieldType {
      case Boolean =>
        var c := Contribution(field, value).value;
        RoundQuotient(c, 100);
      case Rating =>
        if NumberOf(value).Some? {
          RatingRoundsContribution(field, value, NumberOf(value).value);
        }
      case Number =>
        if NumberOf(value).Some? {
          var c := Contribution(field, value).value;
          RoundQuotient(c, 100);
          NumberScore(field, value, NumberOf(value).value);
        }
      case Text =>
    }
  }

  lemma RatingRoundsContribution(field: EvaluationField, value: Option<string>, r: int)
    requires field.fieldType == Rating && NumberOf(value) == Some(r)
    ensures Contribution(field, value) == Some(20 * (r * field.scoreWeight))
    ensures FieldScore(field, value) == Some(RoundHalfUp((20 * (r * field.scoreWeight)) as real / 100.0))
  {
    var x := r * field.scoreWeight;
    RatingScore(field, value, r);
    RoundQuotient(20 * x, 100);
    TwentyfoldRound(x);
  }

  lemma TwentyfoldRound(x: int)
    ensures (2 * (20 * x) + 100) / (2 * 100) == (2 * x + 5) / 10
  {
    var q := (2 * x + 5) / 10;
    assert 10 * q <= 2 * x + 5 < 10 * q + 10;
    assert 200 * q <= 2 * (20 * x) + 100 < 200 * q + 200;
  }

  /** The sum of the saved per-field scores. */
  function DetailSum(fields: seq<EvaluationField>, values: FieldValues): Option<int>
  {
    if fields == [] then Some(0)
    else
      var last := fields[|fields| - 1];
      match (DetailSum(fields[..|fields| - 1], values), FieldScore(last, Lookup(values, last.id)))
      case (Some(d), Some(s)) => Some(d + s)
      case (_, _) => None
  }

  /** Each field score is its contribution rounded half up, which moves it by at most half a
      point up and by less than half a point down; so the sum of n field scores, in
      hundredths, lies within (-50n, 50n] of the unrounded total when n > 0. */
  lemma {:induction false} DetailSumNearTotal(fields: seq<EvaluationField>, values: FieldValues)
    ensures DetailSum(fields, values).Some? <==> Hundredths(fields, values).Some?
    ensures Hundredths(fields, values).Some? ==>
      var d, h := DetailSum(fields, values).value, Hundredths(fields, values).value;
      && -50 * |fields| <= 100 * d - h <= 50 * |fields|
      && (fields != [] ==> -50 * |fields| < 100 * d - h)
  {
    if fields != [] {
      var last := fields[|fields| - 1];
      DetailSumNearTotal(fields[..|fields| - 1], values);
      FieldScoreRoundsContribution(last, Lookup(values, last.id));
      var c := Contribution(last, Lookup(values, last.id));
      if c.Some? {
        RoundQuotient(c.value, 100);
      }
    }
  }

  /** The sum of the saved field scores and the saved total (the unrounded total rounded
      once) differ by at most half a point per field. */
  lemma DetailSumNearSavedTotal(fields: seq<EvaluationField>, values: FieldValues)
    ensures DetailSum(fields, values).Some? <==> Hundredths(fields, values).Some?
    ensures Hundredths(fields, values).Some? ==>
      var d, h := DetailSum(fields, values).value, Hundredths(fields, values).value;
      -|fields| <= 2 * (d - RoundHalfUp(h as real / 100.0)) <= |fields|
  {
    DetailSumNearTotal(fields, values);
    if Hundredths(fields, values).Some? {
      RoundedOnceNear(DetailSum(fields, values).value, Hundredths(fields, values).value, |fields|);
    }
  }

  /** A sum d of n field scores within (-50n, 50n] hundredths of h lies within n/2 points of
      h / 100 rounded half up. */
  lemma RoundedOnceNear(d: int, h: int, n: int)
    requires n >= 0 && -50 * n <= 100 * d - h <= 50 * n && (n != 0 ==> -50 * n < 100 * d - h)
    ensures -n <= 2 * (d - RoundHalfUp(h as real / 100.0)) <= n
  {
    RoundQuotient(h, 100);
    var t := (2 * h + 100) / 200;
    assert 200 * t <= 2 * h + 100 < 200 * t + 200;
    assert 100 * (d - t) == (100 * d - h) - (100 * t - h);
  }

  /** The saved total can disagree with the sum of the saved field scores: two rating
      fields of weight 1 rated 3 save field scores 1 and 1, but a total of 1. */
  lemma TotalDiffersFromDetailSum()
    ensures var f1 := EvaluationField(1, "A", Rating, true, 1);
            var f2 := EvaluationField(2, "B", Rating, true, 1);
            var values := map[1 := "3", 2 := "3"];
            && DetailSum([f1, f2], values) == Some(2)
            && Hundredths([f1, f2], values) == Some(120)
            && RoundHalfUp(120 as real / 100.0) == 1
  {
    var f1 := EvaluationField(1, "A", Rating, true, 1);
    var f2 := EvaluationField(2, "B", Rating, true, 1);
    var values := map[1 := "3", 2 := "3"];
    assert Lookup(values, 1) == Some("3") && Lookup(values, 2) == Some("3");
    assert Str.ParseInt("3") == Some(3);
    RatingScore(f1, Some("3"), 3);
    RatingScore(f2, Some("3"), 3);
    assert Contribution(f1, Some("3")) == Some(60) && Contribution(f2, Some("3")) == Some(60);
    assert f1.scoreWeight == 1 && f2.scoreWeight == 1;
    assert (2 * (3 * 1) + 5) / 10 == 1;
    assert FieldScore(f1, Some("3")) == Some(1) && FieldScore(f2, Some("3")) == Some(1);
    assert [f1, f2][..1] == [f1] && [f1][..0] == [];
    assert DetailSum([], values) == Some(0) && Hundredths([], values) == Some(0);
    assert DetailSum([f1], values) == Some(1);
    assert Hundredths([f1], values) == Some(60);
    RoundQuotient(120, 100);
  }

  // ------------------------------------------------------------ defaults and edits

  /** The value a field gets when its role's fields load. */
  function DefaultValue(t: FieldType): string
  {
    match t
    case Rating => "3"
    case Number => "0"
    case Text => ""
    case Boolean => "yes"
  }

  /** The defaults map built field by field; a later field with the same id wins. */
  function Defaults(fields: seq<EvaluationField>): FieldValues
  {
    if fields == [] then map[]
    else Defaults(fields[..|fields| - 1])[fields[|fields| - 1].id := DefaultValue(fields[|fields| - 1].fieldType)]
  }

  /** The fields effect: builds `initialValues` in a loop; the result replaces every
      earlier value. */
  method InitialValues(fields: seq<EvaluationField>) returns (initialValues: FieldValues)
    ensures initialValues == Defaults(fields)
  {
    initialValues := map[];
    for i := 0 to |fields|
      invariant initialValues == Defaults(fields[..i])
    {
      var field := fields[i];
      assert fields[..i + 1][..i] == fields[..i];
      match field.fieldType {
        case Rating => initialValues := initialValues[field.id := "3"];
        case Number => initialValues := initialValues[field.id := "0"];
        case Text => initialValues := initialValues[field.id := ""];
        case Boolean => initialValues := initialValues[field.id := "yes"];
      }
    }
    assert fields[..|fields|] == fields;
  }

  predicate DistinctIds(fields: seq<EvaluationField>)
  {
    forall i, j :: 0 <= i < j < |fields| ==> fields[i].id != fields[j].id
  }

  /** After loading, exactly the loaded fields have values, each its type's default. */
  lemma DefaultsPerField(fields: seq<EvaluationField>)
    requires DistinctIds(fields)
    ensures forall id :: id in Defaults(fields) <==> exists i :: 0 <= i < |fields| && fields[i].id == id
    ensures forall i :: 0 <= i < |fields| ==> Defaults(fields)[fields[i].id] == DefaultValue(fields[i].fieldType)
  {
    DefaultsKeys(fields);
    DefaultsValues(fields);
  }

  /** The defaults map has a key for every loaded field and for nothing else. */
  lemma {:induction false} DefaultsKeys(fields: seq<EvaluationField>)
    ensures forall id :: id in Defaults(fields) <==> exists i :: 0 <= i < |fields| && fields[i].id == id
  {
    if fields != [] {
      var n := |fields| - 1;
      var init, last := fields[..n], fields[n];
      DefaultsKeys(init);
      forall id
        ensures id in Defaults(fields) <==> exists i :: 0 <= i < |fields| && fields[i].id == id
      {
        if id != last.id && exists i :: 0 <= i < |fields| && fields[i].id == id {
          var i :| 0 <= i < |fields| && fields[i].id == id;
          assert init[i].id == id;
        }
        if id in Defaults(init) {
          var i :| 0 <= i < n && init[i].id == id;
          assert fields[i].id == id;
        }
      }
    }
  }

  /** With distinct ids, each loaded field's entry is its type's default. */
  lemma {:induction false} DefaultsValues(fields: seq<EvaluationField>)
    requires DistinctIds(fields)
    ensures forall i :: 0 <= i < |fields| ==>
      fields[i].id in Defaults(fields) && Defaults(fields)[fields[i].id] == DefaultValue(fields[i].fieldType)
  {
    if fields != [] {
      var n := |fields| - 1;
      var init, last := fields[..n], fields[n];
      DefaultsValues(init);
      forall i | 0 <= i < n
        ensures fields[i].id in Defaults(fields) && Defaults(fields)[fields[i].id] == DefaultValue(fields[i].fieldType)
      {
        assert init[i] == fields[i];
        assert fields[i].id != last.id;
      }
    }
  }

  /** A field's default value scores: a rating round(3/5 * w), a number 0, a boolean its
      weight and a text 0. */
  lemma DefaultValueScore(f: EvaluationField)
    ensures var s := FieldScore(f, Some(DefaultValue(f.fieldType)));
            && (f.fieldType == Rating ==> s == Some((6 * f.scoreWeight + 5) / 10))
            && (f.fieldType == Number ==> s == Some(0))
            && (f.fieldType == Boolean ==> s == Some(f.scoreWeight))
            && (f.fieldType == Text ==> s == Some(0))
  {
    if f.fieldType == Rating {
      assert Str.ParseInt("3") == Some(3);
      RatingScore(f, Some("3"), 3);
    } else if f.fieldType == Number {
      assert Str.ParseInt("0") == Some(0);
      NumberScore(f, Some("0"), 0);
    }
  }

  /** Right after loading, each field scores its default's score. */
  lemma DefaultScores(fields: seq<EvaluationField>, i: int)
    requires DistinctIds(fields) && 0 <= i < |fields|
    ensures FieldScore(fields[i], Lookup(Defaults(fields), fields[i].id))
         == FieldScore(fields[i], Some(DefaultValue(fields[i].fieldType)))
  {
    DefaultsPerField(fields);
  }

  /** `handleFieldChange(id, value)`: the field gets the new value, every other entry
      is kept as it was. */
  function FieldChange(values: FieldValues, fieldId: int, value: string): (r: FieldValues)
    ensures Lookup(r, fieldId) == Some(value)
    ensures forall id :: id != fieldId ==> Lookup(r, id) == Lookup(values, id)
    ensures r.Keys == values.Keys + {fieldId}
  {
    values[fieldId := value]
  }

  // ------------------------------------------------------------ handleSubmit

  datatype PayloadField = PayloadField(id: int, name: string, value: string, score: Option<int>)

  /** The form data passed to createScore. A None score is NaN in the source for
      non-numeric text, or a value the model does not read as an integer numeral. */
  datatype Payload = Payload(
    userId: string, evaluatorId: Option<string>, scoreDate: string,
    totalScore: Option<int>, targetScore: int, comments: string, fields: seq<PayloadField>)

  datatype SubmitOutcome = ValidationError | CreateScoreCalled(payload: Payload)

  /** One payload entry: the field's id and name, its value or "", its own rounded score. */
  function PayloadFieldOf(field: EvaluationField, values: FieldValues): PayloadField
  {
    PayloadField(field.id, field.name, Lookup(values, field.id).GetOr(""), FieldScore(field, Lookup(values, field.id)))
  }

  /** `handleSubmit`: refused before any call when user, role or date is empty; otherwise
      createScore receives the once-rounded total, maxPoints as target and one entry per
      form field in order, each with its separately rounded score. */
  method HandleSubmit(selectedUser: string, selectedRole: string, scoreDate: string,
                      evaluatorId: Option<string>, comments: string,
                      formFields: seq<EvaluationField>, fieldValues: FieldValues)
    returns (outcome: SubmitOutcome)
    ensures outcome == ValidationError <==> selectedUser == "" || selectedRole == "" || scoreDate == ""
    ensures outcome.CreateScoreCalled? ==>
      var p := outcome.payload;
      var h := Hundredths(formFields, fieldValues);
      && p.userId == selectedUser && p.evaluatorId == evaluatorId && p.scoreDate == scoreDate
      && p.comments == comments
      && p.totalScore == (if h.Some? then Some(RoundHalfUp(h.value as real / 100.0)) else None)
      && p.targetScore == MaxPoints(formFields)
      && |p.fields| == |formFields|
      && forall i :: 0 <= i < |formFields| ==> p.fields[i] == PayloadFieldOf(formFields[i], fieldValues)
  {
    if selectedUser == "" || selectedRole == "" || scoreDate == "" {
      return ValidationError;
    }
    var total := CalculateTotalScore(formFields, fieldValues);
    var fields := seq(|formFields|, i requires 0 <= i < |formFields| => PayloadFieldOf(formFields[i], fieldValues));
    outcome := CreateScoreCalled(Payload(selectedUser, evaluatorId, scoreDate, total.points, total.maxPoints, comments, fields));
  }
}
