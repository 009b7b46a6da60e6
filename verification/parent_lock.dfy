/**
 * The parental gate of components/ParentLockModal.tsx: the modal holds a
 * question, the option the parent tapped and a "wrong" flag, and moves
 * between them on the `visible` effect, a tap and the two timers.
 *
 * Fresh questions come from the generator, so each event that asks for
 * one receives it as a parameter that the generator's contract describes.
 * The timers are events: `setTimeout` adds to a pending count and firing
 * takes one off. Closing the modal cancels neither timer.
 */
module ParentLock {
  import opened Types
  import opened MathQuestions

  datatype Color = Card | SuccessColor | ErrorColor

  /** The background of one option button. */
  function OptionColor(selected: Option<int>, answer: int, opt: int): (c: Color)
    ensures c == SuccessColor <==> selected == Some(opt) && opt == answer
    ensures c == ErrorColor <==> selected == Some(opt) && opt != answer
  {
    var isSelected := selected == Some(opt);
    var isCorrect := opt == answer;
    if isSelected && isCorrect then SuccessColor
    else if isSelected && !isCorrect then ErrorColor
    else Card
  }

  /** With distinct options, at most one button is ever highlighted. */
  lemma AtMostOneHighlighted(q: MathQuestion, selected: Option<int>, i: nat, j: nat)
    requires Distinct(q.options) && i < |q.options| && j < |q.options| && i != j
    requires OptionColor(selected, q.answer, q.options[i]) != Card
    ensures OptionColor(selected, q.answer, q.options[j]) == Card
  {
  }

  datatype OptionButton = OptionButton(value: int, color: Color, disabled: bool)

  datatype GateView = GateView(prompt: Prompt, buttons: seq<OptionButton>, showTryAgain: bool)

  class ParentGate {
    var visible: bool
    var question: MathQuestion
    var selectedAnswer: Option<int>
    var isWrong: bool
    /** `onSuccess` callbacks scheduled and not yet run. */
    var pendingSuccess: nat
    /** Regeneration callbacks scheduled and not yet run. */
    var pendingRetries: nat
    /** How many times the gate has called `onSuccess`. */
    var successCalls: nat

    /**
     * The question is one the generator can produce, a selection is one of
     * its options, and "Try again!" shows exactly when the selection is wrong.
     */
    ghost predicate Valid()
      reads this
    {
      && WellFormed(question)
      && (selectedAnswer.Some? ==> selectedAnswer.value in question.options)
      && (isWrong <==> selectedAnswer.Some? && selectedAnswer.value != question.answer)
    }

    /** Mounting: `useState(generateMathQuestion())`, then the effect runs once. */
    constructor (initial: MathQuestion, visible0: bool, regenerated: MathQuestion)
      requires WellFormed(initial) && WellFormed(regenerated)
      ensures Valid()
      ensures visible == visible0
      ensures question == (if visible0 then regenerated else initial)
      ensures selectedAnswer == None && !isWrong
      ensures pendingSuccess == 0 && pendingRetries == 0 && successCalls == 0
    {
      visible := visible0;
      question := if visible0 then regenerated else initial;
      selectedAnswer := None;
      isWrong := false;
      pendingSuccess := 0;
      pendingRetries := 0;
      successCalls := 0;
    }

    /**
     * The parent changes `visible`; the effect resets the gate only when the
     * value changes to true.
     */
    method SetVisible(v: bool, regenerated: MathQuestion)
      requires Valid() && WellFormed(regenerated)
      modifies this
      ensures Valid() && visible == v
      ensures v && !old(visible) ==> question == regenerated && selectedAnswer == None && !isWrong
      ensures !(v && !old(visible)) ==>
        question == old(question) && selectedAnswer == old(selectedAnswer) && isWrong == old(isWrong)
      ensures pendingSuccess == old(pendingSuccess) && pendingRetries == old(pendingRetries)
      ensures successCalls == old(successCalls)
    {
      if v && !visible {
        question := regenerated;
        selectedAnswer := None;
        isWrong := false;
      }
      visible := v;
    }

    /** Whether the option buttons ignore taps. */
    function OptionsDisabled(): bool
      reads this
    {
      selectedAnswer != None
    }

    /** What the modal draws: nothing while hidden. */
    function Render(): (r: Option<GateView>)
      reads this
      ensures r.None? <==> !visible
      ensures r.Some? ==> r.value.prompt == question.question && r.value.showTryAgain == isWrong
      ensures r.Some? ==> |r.value.buttons| == |question.options|
      ensures r.Some? ==> forall i :: 0 <= i < |r.value.buttons| ==>
        r.value.buttons[i] == OptionButton(question.options[i],
          OptionColor(selectedAnswer, question.answer, question.options[i]), selectedAnswer.Some?)
    {
      if !visible then None
      else
        var buttons := seq(|question.options|, i requires 0 <= i < |question.options| reads this =>
          OptionButton(question.options[i],
            OptionColor(selectedAnswer, question.answer, question.options[i]),
            OptionsDisabled()));
        Some(GateView(question.question, buttons, isWrong))
    }

    /**
     * A tap on option `i`: `handleAnswer(opt)`, unless the modal is hidden
     * (nothing is drawn) or the options are disabled.
     */
    method PressOption(i: nat)
      requires Valid() && i < |question.options|
      modifies this
      ensures Valid()
      ensures visible == old(visible) && question == old(question)
      ensures successCalls == old(successCalls)
      ensures !old(visible) || old(selectedAnswer).Some? ==>
        selectedAnswer == old(selectedAnswer) && isWrong == old(isWrong)
        && pendingSuccess == old(pendingSuccess) && pendingRetries == old(pendingRetries)
      ensures old(visible) && old(selectedAnswer).None? ==>
        var opt := question.options[i];
        && selectedAnswer == Some(opt)
        && (opt == question.answer ==>
              pendingSuccess == old(pendingSuccess) + 1 && pendingRetries == old(pendingRetries)
              && isWrong == old(isWrong))
        && (opt != question.answer ==>
              isWrong && pendingRetries == old(pendingRetries) + 1
              && pendingSuccess == old(pendingSuccess))
    {
      if !visible || OptionsDisabled() {
        return;
      }
      var opt := question.options[i];
      selectedAnswer := Some(opt);
      if opt == question.answer {
        pendingSuccess := pendingSuccess + 1;
      } else {
        isWrong := true;
        pendingRetries := pendingRetries + 1;
      }
    }

    /** The 300 ms timer after a correct answer runs `onSuccess`. */
    method FireSuccess()
      requires Valid() && pendingSuccess > 0
      modifies this
      ensures Valid()
      ensures pendingSuccess == old(pendingSuccess) - 1 && successCalls == old(successCalls) + 1
      ensures visible == old(visible) && question == old(question)
      ensures selectedAnswer == old(selectedAnswer) && isWrong == old(isWrong)
      ensures pendingRetries == old(pendingRetries)
    {
      pendingSuccess := pendingSuccess - 1;
      successCalls := successCalls + 1;
    }

    /** The 800 ms timer after a wrong answer installs a new question. */
    method FireRetry(regenerated: MathQuestion)
      requires Valid() && pendingRetries > 0 && WellFormed(regenerated)
      modifies this
      ensures Valid()
      ensures question == regenerated && selectedAnswer == None && !isWrong
      ensures pendingRetries == old(pendingRetries) - 1
      ensures visible == old(visible) && pendingSuccess == old(pendingSuccess)
      ensures successCalls == old(successCalls)
    {
      question := regenerated;
      selectedAnswer := None;
      isWrong := false;
      pendingRetries := pendingRetries - 1;
    }

    /**
     * A tap on the backdrop or on Cancel calls `onCancel`, whose owner hides
     * the modal. Timers already scheduled stay pending.
     */
    method PressCancel()
      requires Valid()
      modifies this
      ensures Valid() && !visible
      ensures question == old(question) && selectedAnswer == old(selectedAnswer)
      ensures isWrong == old(isWrong)
      ensures pendingSuccess == old(pendingSuccess) && pendingRetries == old(pendingRetries)
      ensures successCalls == old(successCalls)
    {
      visible := false;
    }
  }

  /**
   * The gate in use: a wrong tap shows "Try again!" and, once its timer
   * fires, a new question with every option enabled again; a correct tap
   * then reaches `onSuccess`.
   */
  method WrongThenRight(q0: MathQuestion, q1: MathQuestion, q2: MathQuestion, wrong: nat, right: nat)
    returns (gate: ParentGate)
    requires WellFormed(q0) && WellFormed(q1) && WellFormed(q2)
    requires wrong < |q1.options| && q1.options[wrong] != q1.answer
    requires right < |q2.options| && q2.options[right] == q2.answer
    ensures gate.successCalls == 1 && gate.visible && gate.question == q2
    ensures gate.selectedAnswer == Some(q2.answer) && !gate.isWrong
    ensures gate.pendingSuccess == 0 && gate.pendingRetries == 0
  {
    gate := new ParentGate(q0, true, q1);
    gate.PressOption(wrong);
    assert gate.isWrong && gate.OptionsDisabled();
    gate.FireRetry(q2);
    assert !gate.isWrong && !gate.OptionsDisabled();
    gate.PressOption(right);
    assert !gate.isWrong && gate.pendingSuccess == 1;
    gate.FireSuccess();
  }
}
