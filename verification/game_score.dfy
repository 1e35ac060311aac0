/** The end-of-game screen: the percentage and the message chosen from it. */
module GameScore {
  /** The value `Math.round((score / total) * 100)` can take: a whole number,
      or, when `total` is 0, `Infinity` (a positive score divided by zero) or
      `NaN` (zero divided by zero). */
  datatype Percent = Whole(value: int) | Infinity | NotANumber

  /** `Math.round((score / total) * 100)`: the whole number within one half of
      100 · score / total, the upper one on a tie; with `total` 0 the quotient
      is `Infinity` for a positive score and `NaN` for a zero score. */
  function Percentage(score: nat, total: nat): (p: Percent)
    ensures total == 0 && score > 0 <==> p == Infinity
    ensures total == 0 && score == 0 <==> p == NotANumber
    ensures p.Whole? ==> 2 * total * p.value <= 200 * score + total < 2 * total * p.value + 2 * total
    ensures p.Whole? && score <= total ==> 0 <= p.value <= 100
  {
    if total == 0 then (if score > 0 then Infinity else NotANumber)
    else
      var v := (200 * score + total) / (2 * total);
      assert 2 * total * v <= 200 * score + total < 2 * total * v + 2 * total;
      ScaleCancels(2 * total, v, 101);
      Whole(v)
  }

  /** Multiplying by a positive factor keeps a strict order, in both directions. */
  lemma ScaleCancels(t: int, k: int, m: int)
    requires t > 0
    ensures t * k < t * m <==> k < m
  {
    assert t * m - t * k == t * (m - k);
    MultipleSign(t, m - k);
  }

  lemma {:induction false} MultipleSign(t: int, d: int)
    requires t > 0
    ensures d > 0 ==> t * d > 0
    ensures d <= 0 ==> t * d <= 0
    decreases if d >= 0 then d else -d
  {
    if d > 1 {
      MultipleSign(t, d - 1);
      assert t * d == t * (d - 1) + t;
    } else if d < 0 {
      MultipleSign(t, d + 1);
      assert t * d == t * (d + 1) - t;
    }
  }

  const Excellent: string := "Excellent! You're a math genius!"
  const GreatJob: string := "Great job! You've got solid math skills!"
  const GoodEffort: string := "Good effort! Keep practicing!"
  const KeepTrying: string := "Practice makes perfect! Keep trying!"

  /** `getMessage`: 90 and up, 70 and up, 50 and up, then everything else.
      `Infinity` passes the first comparison; `NaN` fails every comparison. */
  function Message(percentage: Percent): (m: string)
    ensures percentage == Infinity || (percentage.Whole? && percentage.value >= 90) ==> m == Excellent
    ensures percentage.Whole? && 70 <= percentage.value < 90 ==> m == GreatJob
    ensures percentage.Whole? && 50 <= percentage.value < 70 ==> m == GoodEffort
    ensures percentage == NotANumber || (percentage.Whole? && percentage.value < 50) ==> m == KeepTrying
  {
    match percentage
    case Infinity => Excellent
    case NotANumber => KeepTrying
    case Whole(v) =>
      if v >= 90 then Excellent
      else if v >= 70 then GreatJob
      else if v >= 50 then GoodEffort
      else KeepTrying
  }

  /** Over the game's ten questions: nine or ten right is excellent, seven or
      eight great, five or six good, fewer keep trying; and a better score
      never gets a lower message band. */
  lemma TenQuestionBands(score: nat)
    requires score <= 10
    ensures Percentage(score, 10) == Whole(10 * score)
    ensures score >= 9 ==> Message(Percentage(score, 10)) == Excellent
    ensures 7 <= score <= 8 ==> Message(Percentage(score, 10)) == GreatJob
    ensures 5 <= score <= 6 ==> Message(Percentage(score, 10)) == GoodEffort
    ensures score < 5 ==> Message(Percentage(score, 10)) == KeepTrying
  {
    var p := Percentage(score, 10);
    assert 20 * p.value <= 200 * score + 10 < 20 * p.value + 20;
  }

  /** The percentage never falls when the score rises. */
  lemma PercentageMonotone(s1: nat, s2: nat, total: nat)
    requires s1 <= s2 && total > 0
    ensures Percentage(s1, total).value <= Percentage(s2, total).value
  {
    var p1 := Percentage(s1, total).value;
    var p2 := Percentage(s2, total).value;
    ScaleCancels(2 * total, p1, p2 + 1);
  }
}
