/** The math game's question generator: the difficulty table, the operands
    and answer, the three wrong options around the answer, and the shuffle.
    Each `Math.random()` call is a draw in [0, 1) passed in by the caller. */
module QuestionGenerator {
  import opened Wrappers

  datatype Operation = Add | Sub | Mul | Div

  datatype Question = Question(num1: int, num2: int, operation: Operation, answer: int, options: seq<int>)

  /** The `switch` on difficulty: easy and anything unknown → 10 with + and −,
      medium → 20 adding ×, hard → 50 with all four. */
  function Range(difficulty: string): (range: nat)
    ensures range == (if difficulty == "medium" then 20 else if difficulty == "hard" then 50 else 10)
    ensures range >= 10
  {
    match difficulty
    case "medium" => 20
    case "hard" => 50
    case _ => 10
  }

  function Pool(difficulty: string): (pool: seq<Operation>)
    ensures difficulty == "hard" ==> pool == [Add, Sub, Mul, Div]
    ensures difficulty == "medium" ==> pool == [Add, Sub, Mul]
    ensures difficulty != "hard" && difficulty != "medium" ==> pool == [Add, Sub]
    ensures Div in pool <==> difficulty == "hard"
    ensures Mul in pool <==> difficulty == "hard" || difficulty == "medium"
  {
    match difficulty
    case "medium" => [Add, Sub, Mul]
    case "hard" => [Add, Sub, Mul, Div]
    case _ => [Add, Sub]
  }

  predicate IsDraw(r: real)
  {
    0.0 <= r < 1.0
  }

  /** `Math.floor(r * n)`: an index into a list of length n. */
  function DrawIndex(r: real, n: nat): (i: nat)
    requires IsDraw(r) && n > 0
    ensures i < n
  {
    var k := (r * n as real).Floor;
    assert 0.0 <= r * n as real < n as real;
    k
  }

  /** `num op num` on whole numbers; division is only applied where it is exact. */
  function Apply(num1: int, operation: Operation, num2: int): int
  {
    match operation
    case Add => num1 + num2
    case Sub => num1 - num2
    case Mul => num1 * num2
    case Div => if num2 == 0 then 0 else num1 / num2
  }

  /** One pass of the `do` body: two draws give operands in [1, range]; for
      division the first becomes their product, and for subtraction the
      operands are swapped when the second is larger. */
  function Attempt(operation: Operation, range: nat, draw1: real, draw2: real): (q: (int, int, int))
    requires IsDraw(draw1) && IsDraw(draw2) && range > 0
  {
    var a := DrawIndex(draw1, range) + 1;
    var b := DrawIndex(draw2, range) + 1;
    var num1 := if operation == Div then a * b else a;
    if operation == Sub && b > num1 then (b, num1, Apply(b, operation, num1))
    else (num1, b, Apply(num1, operation, b))
  }

  /** The `while (answer < 0 || !Number.isInteger(answer))` condition is false
      after the first pass, whatever the draws: subtraction is swapped into
      order and division divides an exact product. So the retry loop never
      repeats. Division's answer is the first draw's operand, in [1, range]. */
  lemma AttemptAccepted(operation: Operation, range: nat, draw1: real, draw2: real)
    requires IsDraw(draw1) && IsDraw(draw2) && range > 0
    ensures var (num1, num2, answer) := Attempt(operation, range, draw1, draw2);
            && answer >= 0 && 1 <= num2
            && answer == Apply(num1, operation, num2)
            && (operation == Sub ==> num1 >= num2)
            && (operation == Div ==> num1 % num2 == 0 && num1 == answer * num2 && 1 <= answer <= range && num2 <= range)
            && (operation != Div ==> 1 <= num1 <= range && num2 <= range)
  {
    var a := DrawIndex(draw1, range) + 1;
    var b := DrawIndex(draw2, range) + 1;
    match operation {
      case Div =>
        ExactQuotient(a, b);
      case Mul =>
        assert a * b >= 0 by { PositiveProduct(a, b); }
      case _ =>
    }
  }

  lemma PositiveProduct(a: nat, b: nat)
    ensures a * b >= 0
  {
  }

  /** A non-zero multiple of b is at least b away from zero. */
  lemma {:induction false} MultipleBounds(b: int, k: int)
    requires b > 0
    ensures k >= 1 ==> b * k >= b
    ensures k <= -1 ==> b * k <= -b
    decreases if k >= 0 then k else -k
  {
    if k > 1 {
      MultipleBounds(b, k - 1);
      assert b * k == b * (k - 1) + b;
    } else if k < -1 {
      MultipleBounds(b, k + 1);
      assert b * k == b * (k + 1) - b;
    }
  }

  /** Dividing a product by one factor gives the other, with nothing left over. */
  lemma ExactQuotient(a: int, b: int)
    requires b > 0
    ensures (a * b) / b == a && (a * b) % b == 0
  {
    var q := (a * b) / b;
    var r := (a * b) % b;
    var d := a - q;
    assert b * d == r by {
      assert a * b == b * q + r;
      assert b * d == b * a - b * q;
    }
    MultipleBounds(b, d);
  }

  /** `Math.floor(r * 10) - 5`, with 0 replaced by 1. */
  function Offset(r: real): (d: int)
    requires IsDraw(r)
    ensures -5 <= d <= 4 && d != 0
  {
    var d := DrawIndex(r, 10) - 5;
    if d == 0 then 1 else d
  }

  /** The offsets a wrong option can have. */
  predicate IsOffset(d: int)
  {
    -5 <= d <= 4 && d != 0
  }

  /** Every value occurs at most once. */
  ghost predicate Distinct(s: seq<int>)
  {
    forall x :: multiset(s)[x] <= 1
  }

  /** What the options promise: four distinct non-negative numbers, the answer
      among them, every other one the answer moved by an offset. */
  ghost predicate GoodOptions(options: seq<int>, answer: int)
  {
    && |options| == 4
    && Distinct(options)
    && answer in options
    && (forall o :: o in options ==> o >= 0)
    && (forall o :: o in options && o != answer ==> IsOffset(o - answer))
  }

  /** `options.sort(() => Math.random() - 0.5)`: the comparator ignores the
      values, so the result is some ordering of the options; here each draw
      picks which remaining option comes next. */
  function Shuffle(s: seq<int>, picks: seq<real>): (r: seq<int>)
    requires forall i :: 0 <= i < |picks| ==> IsDraw(picks[i])
    ensures multiset(r) == multiset(s)
    decreases |s|
  {
    if s == [] then []
    else
      var i := if picks == [] then 0 else DrawIndex(picks[0], |s|);
      var rest := s[..i] + s[i + 1..];
      assert s == s[..i] + [s[i]] + s[i + 1..];
      [s[i]] + Shuffle(rest, if picks == [] then [] else picks[1..])
  }

  /** A permutation keeps every property the options promise. */
  lemma ShuffleKeepsGoodOptions(options: seq<int>, answer: int, picks: seq<real>)
    requires forall i :: 0 <= i < |picks| ==> IsDraw(picks[i])
    requires GoodOptions(options, answer)
    ensures GoodOptions(Shuffle(options, picks), answer)
  {
    var r := Shuffle(options, picks);
    assert |r| == |multiset(r)| == |multiset(options)| == |options|;
    forall o | o in r ensures o in options {
      assert o in multiset(r);
    }
    assert answer in multiset(r);
  }

  /** The loop that adds wrong options: each draw gives an offset, and the
      option it lands on is kept when non-negative and new. It stops at four
      options or when the draws run out. */
  method WrongOptions(answer: int, offsetDraws: seq<real>) returns (options: seq<int>)
    requires answer >= 0
    requires forall i :: 0 <= i < |offsetDraws| ==> IsDraw(offsetDraws[i])
    ensures 1 <= |options| <= 4 && options[0] == answer
    ensures Distinct(options)
    ensures forall o :: o in options ==> o >= 0
    ensures forall o :: o in options && o != answer ==> IsOffset(o - answer)
    ensures |options| == 4 ==> GoodOptions(options, answer)
    ensures offsetDraws == [0.6, 0.7, 0.8] ==> |options| == 4
  {
    options := [answer];
    var k := 0;
    while |options| < 4 && k < |offsetDraws|
      invariant 0 <= k <= |offsetDraws|
      invariant 1 <= |options| <= 4 && options[0] == answer
      invariant Distinct(options)
      invariant forall o :: o in options ==> o >= 0
      invariant forall o :: o in options && o != answer ==> IsOffset(o - answer)
      invariant offsetDraws == [0.6, 0.7, 0.8] ==>
                  |options| == k + 1 && forall o :: o in options ==> answer <= o <= answer + k
      decreases |offsetDraws| - k
    {
      var option := answer + Offset(offsetDraws[k]);
      if option >= 0 && option !in options {
        assert multiset(options + [option]) == multiset(options) + multiset{option};
        options := options + [option];
      }
      k := k + 1;
    }
  }

  /** `generateQuestion()`. `opDraw` picks the operation, `draw1` and `draw2` the
      operands, `offsetDraws` feed the option loop and `picks` the shuffle.
      The option loop draws until it has four options; when the supplied
      draws run out first, no question is returned. */
  method GenerateQuestion(difficulty: string, opDraw: real, draw1: real, draw2: real,
                          offsetDraws: seq<real>, picks: seq<real>) returns (q: Option<Question>)
    requires IsDraw(opDraw) && IsDraw(draw1) && IsDraw(draw2)
    requires forall i :: 0 <= i < |offsetDraws| ==> IsDraw(offsetDraws[i])
    requires forall i :: 0 <= i < |picks| ==> IsDraw(picks[i])
    ensures q.Some? ==> q.value.operation in Pool(difficulty)
    ensures q.Some? ==> q.value.answer >= 0 && q.value.answer == Apply(q.value.num1, q.value.operation, q.value.num2)
    ensures q.Some? && q.value.operation == Sub ==> q.value.num1 >= q.value.num2
    ensures q.Some? && q.value.operation == Div ==>
              q.value.num1 == q.value.answer * q.value.num2 && 1 <= q.value.answer <= Range(difficulty)
    ensures q.Some? ==> 1 <= q.value.num2 <= Range(difficulty)
    ensures q.Some? && q.value.operation != Div ==> 1 <= q.value.num1 <= Range(difficulty)
    ensures q.Some? ==> GoodOptions(q.value.options, q.value.answer)
    ensures offsetDraws == [0.6, 0.7, 0.8] ==> q.Some?
  {
    var range := Range(difficulty);
    var pool := Pool(difficulty);
    var operation := pool[DrawIndex(opDraw, |pool|)];
    AttemptAccepted(operation, range, draw1, draw2);
    var (num1, num2, answer) := Attempt(operation, range, draw1, draw2);

    var options := WrongOptions(answer, offsetDraws);
    if |options| < 4 {
      return None;
    }
    ShuffleKeepsGoodOptions(options, answer, picks);
    q := Some(Question(num1, num2, operation, answer, Shuffle(options, picks)));
  }
}
