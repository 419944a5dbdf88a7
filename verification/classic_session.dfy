/**
  The question flow of the 11-axis quiz (ttrpg-quiz/src/App.jsx): the quiz
  opens on question 0, every answer is appended, and the profile is computed
  after the last question. There is no start screen, no import and no way
  back. The transitions are stated as functions on `Session` values.
 */
module ClassicSession {
  import opened Survey
  import opened ClassicScoring

  /** The component state: the current question, the answers so far, and the profile once computed. */
  datatype Session = Session(current: int, answers: seq<Answer>, profile: Option<seq<AxisValue>>)

  const Initial: Session := Session(0, [], None)

  /**
    What every reachable state satisfies: while asking, one answer per question
    before the current one, in catalogue order; once the profile is shown, all
    33 answers and the profile is their analysis.
   */
  predicate Consistent(s: Session)
  {
    && 0 <= s.current < QuestionCount
    && FollowsCatalog(s.answers)
    && (s.profile.None? ==> |s.answers| == s.current)
    && (s.profile.Some? ==>
          s.current == QuestionCount - 1 && |s.answers| == QuestionCount && s.profile.value == Profile(s.answers))
  }

  lemma InitialConsistent()
    ensures Consistent(Initial) && Initial.profile.None?
  {
  }

  /**
    `handleAnswer(score)`: appends `score + 1` for the current question's axis,
    then moves to the next question or, on the last one, computes the profile.
    The answers only grow, by exactly one, and what was recorded stays.
   */
  function Answered(s: Session, index: int): (r: Session)
    requires Consistent(s) && s.profile.None?
    requires 0 <= index < 5
    ensures Consistent(r)
    ensures |r.answers| == |s.answers| + 1
    ensures r.answers[..|s.answers|] == s.answers
    ensures r.answers[|s.answers|] == Answer(Axes[s.current / 3], index + 1)
    ensures s.current + 1 < QuestionCount ==> r.current == s.current + 1 && r.profile.None?
    ensures s.current + 1 == QuestionCount ==> r.current == s.current && r.profile == Some(Profile(r.answers))
  {
    var answers := s.answers + [Answer(Axes[s.current / 3], index + 1)];
    assert answers[..|s.answers|] == s.answers;
    if s.current + 1 < QuestionCount then Session(s.current + 1, answers, None)
    else Session(s.current, answers, Some(Profile(answers)))
  }

  /** The state after choosing `choices[k]` for question k. */
  function AnswerInOrder(choices: seq<int>): (s: Session)
    requires |choices| <= QuestionCount
    requires forall k :: 0 <= k < |choices| ==> 0 <= choices[k] < 5
    ensures Consistent(s)
    ensures |choices| < QuestionCount ==> s.current == |choices| && s.profile.None?
    ensures |choices| == QuestionCount ==> s.current == QuestionCount - 1 && s.profile.Some?
    decreases |choices|
  {
    if choices == [] then Initial
    else Answered(AnswerInOrder(choices[..|choices| - 1]), choices[|choices| - 1])
  }

  /** Answering in order records choice `k` as option `choices[k] + 1` of question k's axis, in slot k. */
  lemma {:induction false} AnswersInOrderRecorded(choices: seq<int>)
    requires |choices| <= QuestionCount
    requires forall k :: 0 <= k < |choices| ==> 0 <= choices[k] < 5
    ensures RecordsChoices(AnswerInOrder(choices).answers, Axes, choices)
    decreases |choices|
  {
    if choices != [] {
      var n := |choices| - 1;
      var prev := AnswerInOrder(choices[..n]);
      AnswersInOrderRecorded(choices[..n]);
      var s := Answered(prev, choices[n]);
      assert prev.current == n == |prev.answers|;
      assert s.answers[n] == Answer(Axes[n / 3], choices[n] + 1);
      RecordsOneMore(prev.answers, s.answers, Axes, choices);
    }
  }

  /**
    Answering all 33 questions produces the profile exactly once, at the last
    answer, with every axis in 1..5.
   */
  lemma CompletingTheQuiz(choices: seq<int>)
    requires |choices| == QuestionCount
    requires forall k :: 0 <= k < |choices| ==> 0 <= choices[k] < 5
    ensures forall n :: 0 <= n < |choices| ==> AnswerInOrder(choices[..n]).profile.None?
    ensures var p := AnswerInOrder(choices).profile;
            && p.Some?
            && forall i :: 0 <= i < |Axes| ==> 1 <= p.value[i].value <= 5
  {
    forall n | 0 <= n < |choices| ensures AnswerInOrder(choices[..n]).profile.None? {
      assert forall k :: 0 <= k < n ==> choices[..n][k] == choices[k];
    }
    CompletedProfileInRange(AnswerInOrder(choices).answers);
  }
}
