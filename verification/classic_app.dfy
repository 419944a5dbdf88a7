/**
  The quiz component of ttrpg-quiz/src/App.jsx: its state variables as
  fields, and its one event handler as a method that updates them as the
  `Session` transition says.
 */
module ClassicApp {
  import opened Survey
  import opened ClassicScoring
  import opened ClassicCatalog
  import opened ClassicSession

  /** The quiz component's state, updated in place by its event handler. */
  class App {
    var currentQuestion: int
    var answers: seq<Answer>
    var profile: Option<seq<AxisValue>>

    function State(): Session
      reads this
    {
      Session(currentQuestion, answers, profile)
    }

    constructor ()
      ensures State() == Initial
    {
      currentQuestion, answers, profile := 0, [], None;
    }

    /** An option button, shown while no profile is: `score` is the option's 0-based position. */
    method HandleAnswer(score: int)
      requires Consistent(State()) && profile.None?
      requires 0 <= score < |Questions()[currentQuestion].options|
      modifies this
      ensures State() == Answered(old(State()), score)
    {
      ghost var next := Answered(State(), score);
      var questions := Questions();
      var question := questions[currentQuestion];
      var newAnswers := answers + [Answer(question.axis, score + 1)];
      assert newAnswers == next.answers;
      answers := newAnswers;
      if currentQuestion + 1 < |questions| {
        currentQuestion := currentQuestion + 1;
      } else {
        var p := AnalyzeResults(newAnswers);
        profile := Some(p);
      }
    }
  }
}
