/** The quiz of components/Quiz.tsx: one question whose answer can be taken once, the feedback and
    narration that depend on it, and the classification of the option buttons. */
module QuizModel {
  import opened Types

  datatype Question = Question(question: string, options: seq<string>, correctAnswer: string, feedback: string)

  /** The question list; only its first entry is ever shown. */
  const Questions: seq<Question> := [
    Question(
      "Esta 'impressão digital' de luz, rica em Metano, pertence a qual gigante gasoso?",
      ["Marte", "Netuno", "Vênus"],
      "Netuno",
      "Correto! A atmosfera azul de Netuno é rica em Metano, que absorve fortemente a luz vermelha, criando essas 'impressões' escuras no espectro.")
  ]

  /** The delay, in milliseconds, after which an answer hands control to `onComplete`. */
  const CompleteDelayMs: nat := 5000

  /** The feedback for a wrong answer, naming the correct one. */
  function WrongFeedback(correctAnswer: string): (text: string)
  {
    "Quase! A resposta correta é " + correctAnswer + ". A atmosfera de Netuno é rica em Metano."
  }

  /** `selectedAnswer` is truthy: an answer has been taken (null and the empty string are falsy). */
  predicate Answered(selected: Option<string>)
  {
    Truthy(if selected.Some? then Some(JsString(selected.value)) else None)
  }

  /** The four styles of `getButtonClass`. */
  datatype ButtonClass = Blue | Green | Red | Gray

  /** `getButtonClass(option)`: blue before an answer; afterwards the correct option green whatever
      was picked, a picked wrong option red and every other option gray. */
  function GetButtonClass(option: string, selected: Option<string>, correctAnswer: string): (c: ButtonClass)
    ensures c == Blue <==> !Answered(selected)
    ensures c == Green <==> Answered(selected) && option == correctAnswer
    ensures c == Red <==> Answered(selected) && option != correctAnswer && option == selected.value
    ensures c == Gray <==> Answered(selected) && option != correctAnswer && option != selected.value
  {
    if !Answered(selected) then Blue
    else if option == correctAnswer then Green
    else if option == selected.value then Red
    else Gray
  }

  /** The classes of the rendered option buttons, in order. */
  function ButtonClasses(options: seq<string>, selected: Option<string>, correctAnswer: string): (cs: seq<ButtonClass>)
    ensures |cs| == |options|
    ensures forall i :: 0 <= i < |cs| ==> cs[i] == GetButtonClass(options[i], selected, correctAnswer)
  {
    seq(|options|, i requires 0 <= i < |options| => GetButtonClass(options[i], selected, correctAnswer))
  }

  /** How many times `x` occurs in `s`. */
  function Count<T(==)>(s: seq<T>, x: T): (n: nat)
  {
    if s == [] then 0 else (if s[0] == x then 1 else 0) + Count(s[1..], x)
  }

  /** The option strings are pairwise distinct. */
  predicate Distinct(options: seq<string>)
  {
    forall i, j :: 0 <= i < j < |options| ==> options[i] != options[j]
  }

  /** After an answer, among distinct options containing the correct one: exactly one button is
      green, one is red exactly when the pick was a wrong option, and all the rest are gray. */
  lemma {:induction false} ClassesAfterAnswer(options: seq<string>, selected: Option<string>, correctAnswer: string)
    requires Answered(selected) && Distinct(options) && correctAnswer in options
    ensures Count(ButtonClasses(options, selected, correctAnswer), Green) == 1
    ensures Count(ButtonClasses(options, selected, correctAnswer), Red)
            == if selected.value != correctAnswer && selected.value in options then 1 else 0
    ensures Count(ButtonClasses(options, selected, correctAnswer), Blue) == 0
    ensures Count(ButtonClasses(options, selected, correctAnswer), Gray)
            == |options| - 1 - Count(ButtonClasses(options, selected, correctAnswer), Red)
  {
    CountClasses(options, selected, correctAnswer);
  }

  /** The counts of each class, by induction over the options. */
  lemma {:induction false} CountClasses(options: seq<string>, selected: Option<string>, correctAnswer: string)
    requires Answered(selected) && Distinct(options)
    ensures Count(ButtonClasses(options, selected, correctAnswer), Green) == Count(options, correctAnswer)
    ensures Count(ButtonClasses(options, selected, correctAnswer), Red)
            == if selected.value != correctAnswer then Count(options, selected.value) else 0
    ensures Count(ButtonClasses(options, selected, correctAnswer), Blue) == 0
    ensures Count(ButtonClasses(options, selected, correctAnswer), Gray)
            == |options| - Count(options, correctAnswer)
               - (if selected.value != correctAnswer then Count(options, selected.value) else 0)
    ensures Count(options, correctAnswer) <= 1 && Count(options, selected.value) <= 1
    ensures Count(options, correctAnswer) == (if correctAnswer in options then 1 else 0)
    ensures Count(options, selected.value) == (if selected.value in options then 1 else 0)
  {
    if options != [] {
      var tail := options[1..];
      assert Distinct(tail) by {
        forall i, j | 0 <= i < j < |tail| ensures tail[i] != tail[j] {
          assert tail[i] == options[i + 1] && tail[j] == options[j + 1];
        }
      }
      CountClasses(tail, selected, correctAnswer);
      assert ButtonClasses(options, selected, correctAnswer)[1..] == ButtonClasses(tail, selected, correctAnswer);
      assert options[0] !in tail by {
        forall j | 0 <= j < |tail| ensures tail[j] != options[0] {
          assert tail[j] == options[j + 1];
        }
      }
      assert forall x :: x in options <==> x == options[0] || x in tail;
    }
  }

  /** The quiz component's state. The question index is set once and never changed. */
  class QuizState {
    const questionIndex: nat              // currentQuestionIndex
    var selectedAnswer: Option<string>    // selectedAnswer
    var feedback: Option<string>          // feedback
    ghost var requested: seq<AudioKey>    // narrations asked of `speak`, in order
    ghost var scheduled: seq<nat>         // delays of the `onComplete` timers set

    ghost predicate Valid()
      reads this
    {
      questionIndex == 0
    }

    /** The question shown: always the first. */
    function CurrentQuestion(): (q: Question)
      reads this
      requires Valid()
      ensures q == Questions[0]
    {
      Questions[questionIndex]
    }

    /** Mounting: nothing selected, no feedback, and the question narration requested. */
    constructor ()
      ensures Valid()
      ensures selectedAnswer == None && feedback == None
      ensures requested == [QuizQuestion] && scheduled == []
    {
      questionIndex := 0;
      selectedAnswer := None;
      feedback := None;
      requested := [QuizQuestion];
      scheduled := [];
    }

    /** `handleAnswer`: once an answer is held nothing changes. Otherwise the answer is taken, the
        feedback and the narration follow from whether it is correct, and completion is scheduled. */
    method HandleAnswer(answer: string)
      requires Valid()
      modifies this`selectedAnswer, this`feedback, this`requested, this`scheduled
      ensures Valid()
      ensures Answered(old(selectedAnswer)) ==>
                selectedAnswer == old(selectedAnswer) && feedback == old(feedback)
                && requested == old(requested) && scheduled == old(scheduled)
      ensures !Answered(old(selectedAnswer)) ==>
                && selectedAnswer == Some(answer)
                && scheduled == old(scheduled) + [CompleteDelayMs]
                && (answer == Questions[0].correctAnswer ==>
                      feedback == Some(Questions[0].feedback) && requested == old(requested) + [QuizCorrect])
                && (answer != Questions[0].correctAnswer ==>
                      feedback == Some(WrongFeedback(Questions[0].correctAnswer)) && requested == old(requested) + [QuizWrong])
    {
      if Answered(selectedAnswer) {
        return;
      }
      selectedAnswer := Some(answer);
      var q := CurrentQuestion();
      if answer == q.correctAnswer {
        feedback := Some(q.feedback);
        requested := requested + [QuizCorrect];
      } else {
        feedback := Some(WrongFeedback(q.correctAnswer));
        requested := requested + [QuizWrong];
      }
      scheduled := scheduled + [CompleteDelayMs];
    }

    /** The classes of the shown question's buttons in the current state. */
    function Classes(): (cs: seq<ButtonClass>)
      reads this
      requires Valid()
      ensures |cs| == |Questions[0].options|
      ensures !Answered(selectedAnswer) ==> forall i :: 0 <= i < |cs| ==> cs[i] == Blue
    {
      ButtonClasses(CurrentQuestion().options, selectedAnswer, CurrentQuestion().correctAnswer)
    }
  }

  /** Clicking an option locks the quiz: a second click on any option changes nothing, and the
      buttons then show one green and, for a wrong pick, one red. */
  method AnswerLocks(first: nat, second: nat) returns (quiz: QuizState)
    requires first < 3 && second < 3
    ensures quiz.Valid() && quiz.selectedAnswer == Some(Questions[0].options[first])
    ensures quiz.requested == [QuizQuestion, if first == 1 then QuizCorrect else QuizWrong]
    ensures Count(quiz.Classes(), Green) == 1
    ensures Count(quiz.Classes(), Red) == if first == 1 then 0 else 1
  {
    quiz := new QuizState();
    var options := Questions[0].options;
    quiz.HandleAnswer(options[first]);
    quiz.HandleAnswer(options[second]);
    ClassesAfterAnswer(options, quiz.selectedAnswer, Questions[0].correctAnswer);
  }
}
