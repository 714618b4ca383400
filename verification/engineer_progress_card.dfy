/** An engineer's progress ring: the rounded percentage of the maximum score reached and
    the colour band it falls into. */
module EngineerProgressCard {
  import opened JsNumber

  datatype ProgressColor = Green | Blue | Yellow | Red

  /** `progressPercentage`. */
  function ProgressPercentage(totalScore: real, maxPossibleScore: real): (p: Num)
    ensures maxPossibleScore != 0.0 ==>
      p == Finite(RoundHalfUp(totalScore / maxPossibleScore * 100.0) as real)
    ensures maxPossibleScore == 0.0 ==> !p.Finite?
  {
    RoundedPercent(totalScore, maxPossibleScore)
  }

  /** `getProgressColor`: 90 and above green, 70 blue, 50 yellow, anything else (NaN
      included) red. */
  function GetProgressColor(percentage: Num): (c: ProgressColor)
    ensures c == Green <==> AtLeast(percentage, 90.0)
    ensures c == Blue <==> !AtLeast(percentage, 90.0) && AtLeast(percentage, 70.0)
    ensures c == Yellow <==> !AtLeast(percentage, 70.0) && AtLeast(percentage, 50.0)
    ensures c == Red <==> !AtLeast(percentage, 50.0)
  {
    if AtLeast(percentage, 90.0) then Green
    else if AtLeast(percentage, 70.0) then Blue
    else if AtLeast(percentage, 50.0) then Yellow
    else Red
  }

  /** The order of the bands, worst first. */
  function Rank(c: ProgressColor): nat
  {
    match c
    case Red => 0
    case Yellow => 1
    case Blue => 2
    case Green => 3
  }

  /** A higher percentage never gets a lower band. */
  lemma ColorMonotone(p: Num, q: Num)
    requires LessEq(p, q)
    ensures Rank(GetProgressColor(p)) <= Rank(GetProgressColor(q))
  {
    if AtLeast(p, 90.0) { AtLeastMonotone(p, q, 90.0); }
    else if AtLeast(p, 70.0) { AtLeastMonotone(p, q, 70.0); }
    else if AtLeast(p, 50.0) { AtLeastMonotone(p, q, 50.0); }
  }

  /** Reaching the maximum exactly gives 100 percent and green. */
  lemma FullScoreIsGreen(score: real)
    requires score > 0.0
    ensures ProgressPercentage(score, score) == Finite(100.0)
    ensures GetProgressColor(ProgressPercentage(score, score)) == Green
  {
    RoundedPercentOfSelf(score);
  }
}
