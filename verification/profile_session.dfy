/**
  The question flow of the 13-axis quiz (src/App.jsx): the start screen with
  its import gate, answering one question at a time into the slot of the
  current question, the Back step, and the profile computed after the last
  question. The transitions are stated as functions on `Session` values.
 */
module ProfileSession {
  import opened Survey
  import opened ProfileScoring

  /**
    What decoding a pasted profile string produced: `Unreadable` when decoding
    threw (and `null` was returned), `NotAList` for any decoded value that is
    not an array, `List` for an array of answers.
   */
  datatype Decoded = Unreadable | NotAList | List(items: seq<Answer>)

  /**
    The component state: `current` is -1 before the quiz starts; `profile` is
    set once the results are computed.
   */
  datatype Session = Session(current: int, answers: seq<Answer>, profile: Option<seq<AxisValue>>)

  /** The result of `startQuiz`: a new state, or a fault raised inside `analyzeResults`. */
  datatype Outcome = Done(session: Session) | Faulted

  const Initial: Session := Session(-1, [], None)

  /** The start screen (name, Begin / Load, import field) is shown. */
  predicate OnStartScreen(s: Session)
  {
    s.current == -1 && s.profile.None?
  }

  /** A question and its option buttons are shown. */
  predicate Asking(s: Session)
  {
    s.current != -1 && s.profile.None?
  }

  /** The Back button is rendered. */
  predicate BackOffered(s: Session)
  {
    Asking(s) && s.current > 0
  }

  /**
    What every reachable state satisfies: the current question exists; while
    asking, the answers so far follow the catalogue and reach up to the
    current question; before starting there are no answers; and a shown
    profile is the analysis of the stored answers.
   */
  predicate Consistent(s: Session)
  {
    && -1 <= s.current < QuestionCount
    && (OnStartScreen(s) ==> s.answers == [])
    && (s.current >= 0 ==> s.current <= |s.answers| && FollowsCatalog(s.answers))
    && (s.current >= 0 && s.profile.Some? ==> |s.answers| == QuestionCount)
    && (s.profile.Some? ==> KnownAxes(s.answers) && s.profile.value == Profile(s.answers))
  }

  /** The initial state, question -1 with no answers and no profile, is the start screen and is consistent. */
  lemma InitialConsistent()
    ensures Consistent(Initial) && OnStartScreen(Initial)
  {
  }

  /** `newAnswers[k] = a` on a copy of `answers`: overwrites slot `k`, or extends the list by it. */
  function Write(answers: seq<Answer>, k: nat, a: Answer): (r: seq<Answer>)
    requires k <= |answers|
    ensures |r| == if k < |answers| then |answers| else k + 1
    ensures r[k] == a
    ensures forall m :: 0 <= m < |answers| && m != k ==> r[m] == answers[m]
  {
    if k < |answers| then answers[k := a] else answers + [a]
  }

  /**
    `handleAnswer(index)`: records `index + 1` for the current question's axis
    in the current slot, then moves to the next question or, on the last one,
    computes the profile.
   */
  function Answered(s: Session, index: int): (r: Session)
    requires Consistent(s) && Asking(s)
    requires 0 <= index < 5
    ensures Consistent(r)
    ensures r.answers == Write(s.answers, s.current, Answer(Axes[s.current / 3], index + 1))
    ensures s.current + 1 < QuestionCount ==> r.current == s.current + 1 && Asking(r)
    ensures s.current + 1 == QuestionCount ==> r.current == s.current && r.profile == Some(Profile(r.answers))
  {
    var answers := Write(s.answers, s.current, Answer(Axes[s.current / 3], index + 1));
    assert FollowsCatalog(answers);
    if s.current + 1 < QuestionCount then
      Session(s.current + 1, answers, None)
    else
      CatalogAxesKnown(answers);
      Session(s.current, answers, Some(Profile(answers)))
  }

  /** The Back button: one question back, answers untouched. */
  function Back(s: Session): (r: Session)
    requires Consistent(s) && BackOffered(s)
    ensures Consistent(r) && Asking(r)
    ensures r.current == s.current - 1 && r.answers == s.answers
  {
    Session(s.current - 1, s.answers, None)
  }

  /**
    `startQuiz` with the imported answers stored: a decoded list goes straight
    to the profile (and faults if an answer names an unknown axis); anything
    else starts the questions at 0.
   */
  function Start(s: Session, decoded: Decoded): (o: Outcome)
    requires Consistent(s) && OnStartScreen(s)
    ensures o.Faulted? <==> decoded.List? && !KnownAxes(decoded.items)
    ensures o.Done? ==> Consistent(o.session)
    ensures o.Done? && decoded.List? ==>
      o.session.current == -1 && o.session.profile == Some(Profile(decoded.items))
    ensures o.Done? && decoded.List? ==> o.session.answers == decoded.items
    ensures !decoded.List? ==> o == Done(Session(0, [], None))
  {
    match decoded
    case List(items) =>
      if KnownAxes(items) then Done(Session(-1, items, Some(Profile(items)))) else Faulted
    case _ => Done(Session(0, s.answers, None))
  }

  /** `startQuiz` as written: the imported profile is shown but the answers stay empty. */
  function StartAsWritten(s: Session, decoded: Decoded): (o: Outcome)
    requires Consistent(s) && OnStartScreen(s)
    ensures o.Done? ==> o.session.answers == []
  {
    match decoded
    case List(items) =>
      if KnownAxes(items) then Done(Session(-1, s.answers, Some(Profile(items)))) else Faulted
    case _ => Done(Session(0, s.answers, None))
  }

  /** A single answer analyses to its own score on its axis. */
  lemma SingleAnswer(score: int)
    ensures KnownAxes([Answer(Axes[0], score)])
    ensures Profile([Answer(Axes[0], score)])[0].value == score
  {
    var items := [Answer(Axes[0], score)];
    assert Scores(items, Axes[0]) == [score] by { assert items[..0] == []; }
    ProfileMean(items, 0);
    assert Sum([score]) == score by { assert [score][..0] == []; }
  }

  /** No answers analyse to a Storytelling value of 0. */
  lemma NoAnswers()
    ensures KnownAxes([]) && Profile([])[0].value == 0
  {
    ProfileMean([], 0);
  }

  /**
    As written, importing one Storytelling answer of score 1..5 shows that
    score as the Storytelling value, while the stored answers (which the result
    code encodes and the debug table lists) are empty and analyse to 0.
   */
  lemma ImportAsWrittenLosesAnswers(score: int)
    requires 1 <= score <= 5
    ensures var o := StartAsWritten(Initial, List([Answer("Storytelling", score)]));
            && o.Done? && o.session.answers == [] && o.session.profile.Some?
            && o.session.profile.value[0].value == score
            && Profile(o.session.answers)[0].value == 0
            && !Consistent(o.session)
  {
    SingleAnswer(score);
    NoAnswers();
  }

  /** Going back and answering again overwrites that slot: no answer is added. */
  lemma BackThenAnswerOverwrites(s: Session, index: int)
    requires Consistent(s) && BackOffered(s)
    requires 0 <= index < 5
    ensures var k := s.current - 1;
            var r := Answered(Back(s), index);
            && r.current == s.current && r.profile.None?
            && |r.answers| == |s.answers|
            && r.answers == s.answers[k := Answer(Axes[k / 3], index + 1)]
  {
  }

  /** The state after starting normally and choosing `choices[k]` for question k, without going back. */
  function AnswerInOrder(choices: seq<int>): (s: Session)
    requires |choices| <= QuestionCount
    requires forall k :: 0 <= k < |choices| ==> 0 <= choices[k] < 5
    ensures Consistent(s)
    ensures |choices| < QuestionCount ==> s.current == |choices| && Asking(s)
    ensures |choices| == QuestionCount ==> s.current == QuestionCount - 1 && s.profile.Some?
    decreases |choices|
  {
    if choices == [] then Session(0, [], None)
    else Answered(AnswerInOrder(choices[..|choices| - 1]), choices[|choices| - 1])
  }

  /** Answering in order records choice `k` as option `choices[k] + 1` of question k's axis, in slot k. */
  lemma {:induction false} AnswersInOrderRecorded(choices: seq<int>)
    requires |choices| <= QuestionCount
    requires forall k :: 0 <= k < |choices| ==> 0 <= choices[k] < 5
    ensures RecordsChoices(AnswerInOrder(choices).answers, Axes, choices)
    decreases |choices|
  {
    if choices != [] {
      var n := |choices| - 1;
      var prev := AnswerInOrder(choices[..n]);
      AnswersInOrderRecorded(choices[..n]);
      var s := Answered(prev, choices[n]);
      assert prev.current == n == |prev.answers|;
      assert s.answers[n] == Answer(Axes[n / 3], choices[n] + 1);
      RecordsOneMore(prev.answers, s.answers, Axes, choices);
    }
  }

  /**
    Answering all 39 questions in order produces the profile exactly once, at
    the last answer, with every mean axis in 1..5 and Play Potential in {1, 2, 5}.
   */
  lemma CompletingTheQuiz(choices: seq<int>)
    requires |choices| == QuestionCount
    requires forall k :: 0 <= k < |choices| ==> 0 <= choices[k] < 5
    ensures forall n :: 0 <= n < |choices| ==> AnswerInOrder(choices[..n]).profile.None?
    ensures var p := AnswerInOrder(choices).profile;
            && p.Some?
            && (forall i :: 0 <= i < 12 ==> 1 <= p.value[i].value <= 5)
            && p.value[12].value in {1, 2, 5}
  {
    forall n | 0 <= n < |choices| ensures AnswerInOrder(choices[..n]).profile.None? {
      assert forall k :: 0 <= k < n ==> choices[..n][k] == choices[k];
    }
    CompletedProfileInRange(AnswerInOrder(choices).answers);
  }
}
