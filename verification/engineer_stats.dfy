/** The month-to-date card: progress against the target and one bar per category. */
module EngineerStats {
  import opened JsNumber
  import opened EngineerProgressCard

  datatype BreakdownItem = BreakdownItem(category: string, score: real, maxScore: real)

  /** A bar of the breakdown: its category and its unrounded fill value. */
  datatype Bar = Bar(category: string, value: Num)

  /** The card's `progressPercentage` is the progress card's formula applied to the
      month-to-date score and the target; meeting a non-zero target exactly shows 100
      percent, whatever its sign. */
  lemma ProgressAtTarget(targetScore: real)
    requires targetScore != 0.0
    ensures ProgressPercentage(targetScore, targetScore) == Finite(100.0)
  {
    RoundedPercentOfSelf(targetScore);
  }

  /** The value of one bar: `score / maxScore * 100`, not rounded. */
  function BarValue(item: BreakdownItem): (v: Num)
    ensures item.maxScore != 0.0 ==> v == Finite(item.score / item.maxScore * 100.0)
    ensures item.maxScore == 0.0 ==> !v.Finite?
  {
    Scale(Div(item.score, item.maxScore), 100.0)
  }

  /** A bar is within 0..100 when its score is within 0..maxScore. */
  lemma BarWithinRange(item: BreakdownItem)
    requires 0.0 <= item.score <= item.maxScore && item.maxScore > 0.0
    ensures 0.0 <= BarValue(item).r <= 100.0
  {
    QuotientAtMostOne(item.score, item.maxScore);
  }

  /** The breakdown: one bar per item, in input order. */
  function Breakdown(items: seq<BreakdownItem>): (bars: seq<Bar>)
    ensures |bars| == |items|
    ensures forall i :: 0 <= i < |items| ==> bars[i] == Bar(items[i].category, BarValue(items[i]))
  {
    seq(|items|, i requires 0 <= i < |items| => Bar(items[i].category, BarValue(items[i])))
  }
}
