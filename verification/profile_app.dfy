/**
  The quiz component of src/App.jsx: its state variables as fields, and its
  event handlers as methods that update them as the `Session` transitions say.
  `StartQuiz` follows the corrected `Start`: on import it also stores the
  imported answers, which the program's `startQuiz` does not (see
  `StartAsWritten`).
 */
module ProfileApp {
  import opened Survey
  import opened ProfileScoring
  import opened ProfileCatalog
  import opened ProfileSession

  /** The quiz component's state, updated in place by its event handlers. */
  class App {
    var currentQuestion: int
    var answers: seq<Answer>
    var profile: Option<seq<AxisValue>>

    function State(): Session
      reads this
    {
      Session(currentQuestion, answers, profile)
    }

    constructor ()
      ensures State() == Initial
    {
      currentQuestion, answers, profile := -1, [], None;
    }

    /** Begin / Load: imports a decoded list, or starts the questions; reports a fault instead of a new state. */
    method StartQuiz(decoded: Decoded) returns (faulted: bool)
      requires Consistent(State()) && OnStartScreen(State())
      modifies this
      ensures faulted <==> Start(old(State()), decoded).Faulted?
      ensures faulted ==> State() == old(State())
      ensures !faulted ==> State() == Start(old(State()), decoded).session
    {
      faulted := false;
      match decoded {
        case List(items) =>
          if forall k :: 0 <= k < |items| ==> items[k].axis in Axes {
            var p := AnalyzeResults(items);
            answers := items;
            profile := Some(p);
          } else {
            faulted := true;
          }
        case _ =>
          currentQuestion := 0;
      }
    }

    /** An option button: `index` is the option's 0-based position. */
    method HandleAnswer(index: int)
      requires Consistent(State()) && Asking(State())
      requires 0 <= index < |Questions()[currentQuestion].options|
      modifies this
      ensures State() == Answered(old(State()), index)
    {
      ghost var next := Answered(State(), index);
      var questions := Questions();
      var question := questions[currentQuestion];
      var entry := Answer(question.axis, index + 1);
      var newAnswers := if currentQuestion < |answers| then answers[currentQuestion := entry] else answers + [entry];
      assert newAnswers == next.answers;
      answers := newAnswers;
      if currentQuestion + 1 < |questions| {
        currentQuestion := currentQuestion + 1;
      } else {
        var p := AnalyzeResults(newAnswers);
        profile := Some(p);
      }
    }

    /** The Back button. */
    method GoBack()
      requires Consistent(State()) && BackOffered(State())
      modifies this
      ensures State() == Back(old(State()))
    {
      currentQuestion := currentQuestion - 1;
    }
  }
}
