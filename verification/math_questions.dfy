/**
 * The parental-gate question generator of lib/math-questions.ts.
 *
 * Every call to Math.random() is a draw supplied by the caller: a sequence
 * of reals in [0, 1) consumed from the front. The generator's two redraw
 * loops only terminate with probability one, so when the supplied draws run
 * out before a loop is done the result is `OutOfDraws`; every other outcome
 * is exactly what the source computes from those draws.
 */
module MathQuestions {

  /** A value returned by Math.random(). */
  type Unit = r: real | 0.0 <= r < 1.0

  /** A result computed from a prefix of the draws, with the draws left over. */
  datatype Drawn<T> = Drawn(value: T, rest: seq<Unit>) | OutOfDraws

  /** The text of a question, kept as its operands. */
  datatype Prompt =
    | Sum(a: int, b: int)          // "{a} + {b} = ?"
    | Difference(a: int, b: int)   // "{a} - {b} = ?"
    | Bigger(a: int, b: int)       // "Which is bigger: {a} or {b}?"

  datatype MathQuestion = MathQuestion(question: Prompt, answer: int, options: seq<int>)

  function Max(x: int, y: int): int { if x >= y then x else y }

  /** The value a reader computes from the prompt. */
  function Evaluate(p: Prompt): int {
    match p
    case Sum(a, b) => a + b
    case Difference(a, b) => a - b
    case Bigger(a, b) => Max(a, b)
  }

  /** Which of the three branches produced the prompt (the `type` draw). */
  function KindOf(p: Prompt): nat {
    match p
    case Sum(_, _) => 0
    case Difference(_, _) => 1
    case Bigger(_, _) => 2
  }

  predicate Distinct(s: seq<int>) {
    forall i, j :: 0 <= i < j < |s| ==> s[i] != s[j]
  }

  /** `Math.floor(r * k)`: a draw scaled to an integer below k. */
  function Scaled(r: Unit, k: nat): (n: int)
    requires k > 0
    ensures 0 <= n < k
  {
    assert 0.0 <= r * k as real < k as real by {
      assert r * k as real <= r * k as real + (1.0 - r) * k as real == k as real;
      assert (1.0 - r) * k as real > 0.0;
    }
    (r * k as real).Floor
  }

  /** No integer below k is out of reach of a draw. */
  lemma ScaledReachesAll(k: nat, n: nat)
    requires n < k
    ensures Scaled(n as real / k as real, k) == n
  {
    var r := n as real / k as real;
    assert r * k as real == n as real;
  }

  /** The distractor `shuffleOptions` derives from an offset and a coin. */
  function Candidate(correct: int, offset: int, up: bool): int {
    if up then correct + offset else Max(0, correct - offset)
  }

  ghost predicate IsDistractorOf(correct: int, x: int) {
    exists offset, up :: 1 <= offset <= 5 && Candidate(correct, offset, up) == x
  }

  /** A distractor of a non-negative answer is never negative. */
  lemma DistractorNonNegative(correct: int, x: int)
    requires correct >= 0 && IsDistractorOf(correct, x)
    ensures x >= 0
  {
    var offset, up :| 1 <= offset <= 5 && Candidate(correct, offset, up) == x;
  }

  /**
   * The set-growing loop of `shuffleOptions`: two draws per round, the
   * offset then the coin, until three distinct values are held. The list
   * keeps the insertion order of the JavaScript Set.
   */
  method CollectOptions(correct: int, draws: seq<Unit>) returns (r: Drawn<seq<int>>)
    ensures r.Drawn? ==> |r.value| == 3 && r.value[0] == correct && Distinct(r.value)
    ensures r.Drawn? ==> forall k :: 1 <= k < 3 ==> IsDistractorOf(correct, r.value[k])
    ensures r.Drawn? ==> |r.rest| < |draws| && r.rest == draws[|draws| - |r.rest|..]
  {
    var options := [correct];
    var ds := draws;
    while |options| < 3
      invariant 1 <= |options| <= 3 && options[0] == correct && Distinct(options)
      invariant forall k :: 1 <= k < |options| ==> IsDistractorOf(correct, options[k])
      invariant |options| > 1 ==> |ds| < |draws|
      invariant |ds| <= |draws| && ds == draws[|draws| - |ds|..]
      decreases |ds|
    {
      if |ds| < 2 {
        return OutOfDraws;
      }
      var offset := Scaled(ds[0], 5) + 1;
      var candidate := Candidate(correct, offset, ds[1] > 0.5);
      if candidate !in options {
        options := options + [candidate];
      }
      ds := ds[2..];
    }
    r := Drawn(options, ds);
  }

  /** `s` without its element at `i`. */
  function RemoveAt(s: seq<int>, i: nat): (r: seq<int>)
    requires i < |s|
    ensures |r| == |s| - 1
    ensures multiset(s) == multiset(r) + multiset{s[i]}
    ensures Distinct(s) ==> Distinct(r) && s[i] !in r
  {
    assert s == s[..i] + [s[i]] + s[i + 1..];
    s[..i] + s[i + 1..]
  }

  /**
   * `sort(() => Math.random() - 0.5)`: the order the comparator produces is
   * modelled as a selection driven by one draw per element. The source
   * promises only that the result is an arrangement of its input.
   */
  function Shuffle(s: seq<int>, draws: seq<Unit>): (r: Drawn<seq<int>>)
    ensures r.Drawn? ==> multiset(r.value) == multiset(s) && |r.value| == |s|
    ensures r.Drawn? && Distinct(s) ==> Distinct(r.value)
    ensures |draws| >= |s| ==> r.Drawn?
    decreases |s|
  {
    if s == [] then Drawn([], draws)
    else if draws == [] then OutOfDraws
    else
      var i := Scaled(draws[0], |s|);
      match Shuffle(RemoveAt(s, i), draws[1..])
      case OutOfDraws => OutOfDraws
      case Drawn(t, rest) =>
        assert Distinct(s) ==> s[i] !in multiset(t);
        Drawn([s[i]] + t, rest)
  }

  /** `shuffleOptions(correct)`: the collected options, shuffled. */
  method ShuffleOptions(correct: int, draws: seq<Unit>) returns (r: Drawn<seq<int>>)
    ensures r.Drawn? ==> |r.value| == 3 && Distinct(r.value) && correct in r.value
    ensures r.Drawn? ==> forall x :: x in r.value && x != correct ==> IsDistractorOf(correct, x)
  {
    var collected := CollectOptions(correct, draws);
    if collected.OutOfDraws? {
      return OutOfDraws;
    }
    var options := collected.value;
    r := Shuffle(options, collected.rest);
    if r.Drawn? {
      assert correct in multiset(r.value);
      forall x | x in r.value && x != correct
        ensures IsDistractorOf(correct, x)
      {
        assert x in multiset(options);
        var k :| 0 <= k < 3 && options[k] == x;
      }
    }
  }

  /** What every generated question satisfies, branch by branch. */
  ghost predicate WellFormed(q: MathQuestion) {
    && q.answer == Evaluate(q.question)
    && q.answer in q.options
    && Distinct(q.options)
    && (forall x :: x in q.options ==> x >= 0)
    && match q.question
       case Sum(a, b) =>
         1 <= a <= 8 && 1 <= b <= 8 && |q.options| == 3
         && forall x :: x in q.options && x != q.answer ==> IsDistractorOf(q.answer, x)
       case Difference(a, b) =>
         2 <= q.answer <= 9 && 1 <= b <= q.answer - 1 && a == q.answer + b && |q.options| == 3
         && forall x :: x in q.options && x != q.answer ==> IsDistractorOf(q.answer, x)
       case Bigger(a, b) =>
         1 <= a <= 15 && 1 <= b <= 15 && a != b && multiset(q.options) == multiset{a, b}
  }

  /** The addition branch: two operands from 1 to 8, then the options. */
  method SumQuestion(draws: seq<Unit>) returns (r: Drawn<MathQuestion>)
    requires |draws| >= 2
    ensures r.Drawn? ==> WellFormed(r.value) && r.value.question.Sum?
  {
    var a := Scaled(draws[0], 8) + 1;
    var b := Scaled(draws[1], 8) + 1;
    var answer := a + b;
    var options := ShuffleOptions(answer, draws[2..]);
    if options.OutOfDraws? {
      return OutOfDraws;
    }
    r := Drawn(MathQuestion(Sum(a, b), answer, options.value), options.rest);
    NonNegativeOptions(answer, options.value);
  }

  /** The subtraction branch: the answer from 2 to 9 first, then the subtrahend below it. */
  method DifferenceQuestion(draws: seq<Unit>) returns (r: Drawn<MathQuestion>)
    requires |draws| >= 2
    ensures r.Drawn? ==> WellFormed(r.value) && r.value.question.Difference?
  {
    var answer := Scaled(draws[0], 8) + 2;
    var b := Scaled(draws[1], answer - 1) + 1;
    var a := answer + b;
    var options := ShuffleOptions(answer, draws[2..]);
    if options.OutOfDraws? {
      return OutOfDraws;
    }
    r := Drawn(MathQuestion(Difference(a, b), answer, options.value), options.rest);
    NonNegativeOptions(answer, options.value);
  }

  /** The comparison branch: two numbers from 1 to 15, the second redrawn until they differ. */
  method BiggerQuestion(draws: seq<Unit>) returns (r: Drawn<MathQuestion>)
    requires |draws| >= 2
    ensures r.Drawn? ==> WellFormed(r.value) && r.value.question.Bigger?
  {
    var a := Scaled(draws[0], 15) + 1;
    var b := Scaled(draws[1], 15) + 1;
    var ds := draws[2..];
    while b == a
      invariant 1 <= b <= 15
      decreases |ds|
    {
      if ds == [] {
        return OutOfDraws;
      }
      b := Scaled(ds[0], 15) + 1;
      ds := ds[1..];
    }
    var options := Shuffle([a, b], ds);
    if options.OutOfDraws? {
      return OutOfDraws;
    }
    var shuffled := options.value;
    var answer := Max(a, b);
    ComparisonWellFormed(a, b, shuffled);
    r := Drawn(MathQuestion(Bigger(a, b), answer, shuffled), options.rest);
  }

  /** Two distinct numbers, arranged in any order, make a well-formed comparison. */
  lemma ComparisonWellFormed(a: int, b: int, options: seq<int>)
    requires 1 <= a <= 15 && 1 <= b <= 15 && a != b
    requires multiset(options) == multiset{a, b}
    ensures WellFormed(MathQuestion(Bigger(a, b), Max(a, b), options))
  {
    assert |options| == 2;
    assert a in multiset(options) && b in multiset(options);
    assert options[0] != options[1];
    forall x | x in options ensures x >= 0 {
      assert x in multiset{a, b};
    }
  }

  /**
   * `generateMathQuestion()`: the first draw picks the branch, the next ones
   * the operands, the rest feed the redraw loop and the shuffle.
   */
  method GenerateMathQuestion(draws: seq<Unit>) returns (r: Drawn<MathQuestion>)
    ensures r.Drawn? ==> WellFormed(r.value)
    ensures r.Drawn? ==> |draws| > 0 && KindOf(r.value.question) == Scaled(draws[0], 3)
  {
    if |draws| < 3 {
      return OutOfDraws;
    }
    var kind := Scaled(draws[0], 3);
    if kind == 0 {
      r := SumQuestion(draws[1..]);
    } else if kind == 1 {
      r := DifferenceQuestion(draws[1..]);
    } else {
      r := BiggerQuestion(draws[1..]);
    }
  }

  lemma NonNegativeOptions(correct: int, options: seq<int>)
    requires correct >= 0
    requires forall x :: x in options && x != correct ==> IsDistractorOf(correct, x)
    ensures forall x :: x in options ==> x >= 0
  {
    forall x | x in options ensures x >= 0 {
      if x != correct {
        DistractorNonNegative(correct, x);
      }
    }
  }

  /** The arithmetic a parent reads off an addition question. */
  lemma SumFacts(q: MathQuestion)
    requires WellFormed(q) && q.question.Sum?
    ensures 2 <= q.answer <= 16 && q.answer == q.question.a + q.question.b
  {
  }

  /** A subtraction question never needs a negative number or a zero. */
  lemma DifferenceFacts(q: MathQuestion)
    requires WellFormed(q) && q.question.Difference?
    ensures q.question.a - q.question.b == q.answer
    ensures q.question.a > q.question.b >= 1
  {
  }

  /** The answer appears among the options exactly once. */
  lemma {:induction false} AnswerOnce(q: MathQuestion)
    requires WellFormed(q)
    ensures multiset(q.options)[q.answer] == 1
  {
    CountOfDistinctMember(q.options, q.answer);
  }

  lemma {:induction false} CountOfDistinctMember(s: seq<int>, x: int)
    requires Distinct(s) && x in s
    ensures multiset(s)[x] == 1
  {
    assert s == [s[0]] + s[1..];
    if s[0] == x {
      assert x !in s[1..];
    } else {
      CountOfDistinctMember(s[1..], x);
    }
  }
}
