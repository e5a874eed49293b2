/** src/components/wizard/ScoreVisualization.tsx: the colour and label of a
    viral-potential score and the fill of its ring. */
module ScoreVisualization {

  /** `getColor()`'s three classes. */
  datatype Color = Green | Yellow | Red

  /** `getColor()`: green from 8, yellow from 6, red below. */
  function GetColor(score: real): (c: Color)
    ensures c == Green <==> score >= 8.0
    ensures c == Yellow <==> 6.0 <= score < 8.0
    ensures c == Red <==> score < 6.0
  {
    if score >= 8.0 then Green
    else if score >= 6.0 then Yellow
    else Red
  }

  /** The label under the score. */
  function Label(score: real): (l: string)
    ensures l == "Excellent" <==> score >= 8.0
    ensures l == "Good" <==> 6.0 <= score < 8.0
    ensures l == "Needs Improvement" <==> score < 6.0
  {
    if score >= 8.0 then "Excellent" else if score >= 6.0 then "Good" else "Needs Improvement"
  }

  /** The rank of a colour: red 0, yellow 1, green 2. */
  function Tier(c: Color): nat
  {
    match c
    case Red => 0
    case Yellow => 1
    case Green => 2
  }

  /** Colour and label use the same thresholds, so they always agree. */
  lemma ColorMatchesLabel(score: real)
    ensures GetColor(score) == Green <==> Label(score) == "Excellent"
    ensures GetColor(score) == Yellow <==> Label(score) == "Good"
    ensures GetColor(score) == Red <==> Label(score) == "Needs Improvement"
  {
  }

  /** A higher score never gets a lower tier. */
  lemma TierMonotone(a: real, b: real)
    requires a <= b
    ensures Tier(GetColor(a)) <= Tier(GetColor(b))
  {
  }

  /** The conic-gradient stop, `score * 10` percent. */
  function GradientPercent(score: real): (p: real)
    ensures 0.0 <= score <= 10.0 ==> 0.0 <= p <= 100.0
    ensures score < 0.0 ==> p < 0.0
    ensures score > 10.0 ==> p > 100.0
  {
    score * 10.0
  }
}
