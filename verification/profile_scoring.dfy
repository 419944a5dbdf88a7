/**
  Scoring of the 13-axis quiz (src/App.jsx): every axis is scored by the
  rounded mean of its answers except "Play Potential", which is scored by a
  decision table over its second and third answers.
 */
module ProfileScoring {
  import opened Survey

  const PlayPotential: Axis := "Play Potential"

  /** The axes in the order the profile reports them. */
  const Axes: seq<Axis> := [
    "Storytelling", "Roleplay Immersion", "Combat Enthusiasm", "Combat Complexity",
    "Combat Frequency", "Puzzle Solving", "Character Morality", "Player Character Decohesion",
    "Collaborative Play", "Improvisation", "World Interaction", "Game Mechanics Focus", PlayPotential
  ]

  lemma AxesDistinct()
    ensures Distinct(Axes)
  {
  }

  /** `questions.length`. */
  const QuestionCount: nat := 39

  // ---------------------------------------------------------------------------
  // analyzeResults
  // ---------------------------------------------------------------------------

  /** Every answer names an axis of `Axes`; otherwise `grouped[axis].push` faults. */
  predicate KnownAxes(answers: seq<Answer>)
  {
    forall k :: 0 <= k < |answers| ==> answers[k].axis in Axes
  }

  /** Position `k` of a JavaScript array: `undefined` (None) past its end. */
  function At(group: seq<int>, k: nat): Option<int>
  {
    if k < |group| then Some(group[k]) else None
  }

  /** `x > n`; false when `x` is undefined. */
  predicate Above(x: Option<int>, n: int)
  {
    x.Some? && x.value > n
  }

  /** `x <= n`; also false when `x` is undefined. */
  predicate AtMost(x: Option<int>, n: int)
  {
    x.Some? && x.value <= n
  }

  /**
    The Play Potential rule: of `[actual, desired, available]` only `desired`
    and `available` matter. Both above 2 give 5, only `desired` above 2 gives
    2, `desired` at most 2 gives 1; a missing `desired`, or a missing
    `available` with `desired` above 2, leaves the initial 0.
   */
  function PlayPotentialValue(group: seq<int>): (v: int)
    ensures v == 0 || v == 1 || v == 2 || v == 5
    ensures |group| >= 3 ==> v == (if group[1] > 2 then (if group[2] > 2 then 5 else 2) else 1)
    ensures |group| == 2 ==> v == (if group[1] <= 2 then 1 else 0)
    ensures |group| < 2 ==> v == 0
  {
    var desired, available := At(group, 1), At(group, 2);
    if Above(desired, 2) && Above(available, 2) then 5
    else if Above(desired, 2) && AtMost(available, 2) then 2
    else if AtMost(desired, 2) then 1
    else 0
  }

  /** The value of one axis from its group of scores. */
  function AxisScore(axis: Axis, group: seq<int>): int
  {
    if axis == PlayPotential then PlayPotentialValue(group) else MeanValue(group)
  }

  /**
    The profile: one entry per axis, in the order of `Axes` whatever the order
    of the answers; Play Potential, the last, carries the decision table
    applied to its scores in the order they were recorded.
   */
  function Profile(answers: seq<Answer>): (r: seq<AxisValue>)
    requires KnownAxes(answers)
    ensures |r| == |Axes|
    ensures forall i :: 0 <= i < |Axes| ==> r[i].axis == Axes[i]
    ensures r[12].value == PlayPotentialValue(Scores(answers, PlayPotential))
  {
    seq(|Axes|, i requires 0 <= i < |Axes| => AxisValue(Axes[i], AxisScore(Axes[i], Scores(answers, Axes[i]))))
  }

  /** Every axis but Play Potential carries the rounded mean of its scores (0 when it has none). */
  lemma ProfileMean(answers: seq<Answer>, i: nat)
    requires KnownAxes(answers)
    requires i < |Axes| && Axes[i] != PlayPotential
    ensures IsRoundedMean(Profile(answers)[i].value, Scores(answers, Axes[i]))
  {
    assert Profile(answers)[i].value == MeanValue(Scores(answers, Axes[i]));
  }

  /** With every score in 1..5, a mean axis that has at least one answer gets a value in 1..5. */
  lemma AnsweredAxisInRange(answers: seq<Answer>, i: nat)
    requires KnownAxes(answers)
    requires forall k :: 0 <= k < |answers| ==> 1 <= answers[k].score <= 5
    requires i < |Axes| && Axes[i] != PlayPotential && |Scores(answers, Axes[i])| > 0
    ensures 1 <= Profile(answers)[i].value <= 5
  {
    ScoresWithin(answers, Axes[i], 1, 5);
    ProfileMean(answers, i);
    RoundedMeanInRange(Profile(answers)[i].value, Scores(answers, Axes[i]), 1, 5);
  }

  /** `grouped` holds, for every axis and no other key, the scores of that axis among `answers`. */
  ghost predicate Grouped(grouped: map<Axis, seq<int>>, answers: seq<Answer>)
  {
    && (forall x :: x in grouped <==> x in Axes)
    && forall x :: x in grouped ==> grouped[x] == Scores(answers, x)
  }

  /** One iteration of the grouping loop, on answer `j`, keeps the groups exact. */
  lemma GroupedStep(grouped: map<Axis, seq<int>>, answers: seq<Answer>, j: nat)
    requires j < |answers| && answers[j].axis in Axes
    requires Grouped(grouped, answers[..j])
    ensures Grouped(grouped[answers[j].axis := grouped[answers[j].axis] + [answers[j].score]], answers[..j + 1])
  {
    var a := answers[j];
    assert answers[..j + 1] == answers[..j] + [a];
    var grouped' := grouped[a.axis := grouped[a.axis] + [a.score]];
    forall x | x in grouped' ensures grouped'[x] == Scores(answers[..j + 1], x) {
      GroupStep(answers[..j], a, x);
    }
  }

  /**
    `analyzeResults`: fills `grouped` with an empty list per axis, pushes every
    score onto the list of its axis, then maps the axes to their values.
   */
  method AnalyzeResults(answers: seq<Answer>) returns (profile: seq<AxisValue>)
    requires KnownAxes(answers)
    ensures profile == Profile(answers)
  {
    var grouped: map<Axis, seq<int>> := map[];
    for i := 0 to |Axes|
      invariant forall x :: x in grouped <==> x in Axes[..i]
      invariant forall x :: x in grouped ==> grouped[x] == []
    {
      grouped := grouped[Axes[i] := []];
    }
    assert Axes[..|Axes|] == Axes;
    for j := 0 to |answers|
      invariant Grouped(grouped, answers[..j])
    {
      var a := answers[j];
      GroupedStep(grouped, answers, j);
      grouped := grouped[a.axis := grouped[a.axis] + [a.score]];
    }
    assert answers[..|answers|] == answers;
    profile := seq(|Axes|, i requires 0 <= i < |Axes| => AxisValue(Axes[i], AxisScore(Axes[i], grouped[Axes[i]])));
  }

  // ---------------------------------------------------------------------------
  // Properties of the profile
  // ---------------------------------------------------------------------------

  /**
    Reordering the answers changes nothing as long as the Play Potential
    answers keep their relative order: the mean axes see only multisets.
   */
  lemma ProfileReorder(a: seq<Answer>, b: seq<Answer>)
    requires KnownAxes(a) && KnownAxes(b)
    requires multiset(a) == multiset(b)
    requires Scores(a, PlayPotential) == Scores(b, PlayPotential)
    ensures Profile(a) == Profile(b)
  {
    forall i | 0 <= i < |Axes| ensures Profile(a)[i] == Profile(b)[i] {
      ScoresPermutation(a, b, Axes[i]);
      MeanPermutation(Scores(a, Axes[i]), Scores(b, Axes[i]));
    }
  }

  /** The Play Potential answers are positional: swapping the first two changes the value from 5 to 1. */
  lemma PlayPotentialIsPositional()
    ensures var a := [Answer(PlayPotential, 1), Answer(PlayPotential, 5), Answer(PlayPotential, 5)];
            var b := [Answer(PlayPotential, 5), Answer(PlayPotential, 1), Answer(PlayPotential, 5)];
            && KnownAxes(a) && KnownAxes(b) && multiset(a) == multiset(b)
            && Profile(a)[12].value == 5 && Profile(b)[12].value == 1
  {
    var a := [Answer(PlayPotential, 1), Answer(PlayPotential, 5), Answer(PlayPotential, 5)];
    var b := [Answer(PlayPotential, 5), Answer(PlayPotential, 1), Answer(PlayPotential, 5)];
    ScoresOfBlock(a, PlayPotential);
    ScoresOfBlock(b, PlayPotential);
  }

  /**
    Answers that score the catalogue's questions in order: answer `k` carries
    the axis of question `k`, `Axes[k / 3]`, and an option position 1..5 (see
    `Questions`).
   */
  predicate FollowsCatalog(answers: seq<Answer>)
  {
    && |answers| <= QuestionCount
    && forall k :: 0 <= k < |answers| ==> answers[k].axis == Axes[k / 3] && 1 <= answers[k].score <= 5
  }

  /** Answers taken from the catalogue never make `analyzeResults` fault. */
  lemma CatalogAxesKnown(answers: seq<Answer>)
    requires FollowsCatalog(answers)
    ensures KnownAxes(answers)
  {
    forall k | 0 <= k < |answers| ensures answers[k].axis in Axes {
      assert answers[k].axis == Axes[k / 3];
    }
  }

  /** In a completed questionnaire axis `i` is scored by answers 3i, 3i+1 and 3i+2. */
  lemma CompletedGroup(answers: seq<Answer>, i: nat)
    requires FollowsCatalog(answers) && |answers| == QuestionCount
    requires i < |Axes|
    ensures KnownAxes(answers)
    ensures |Scores(answers, Axes[i])| == 3
    ensures forall k :: 0 <= k < 3 ==> 1 <= Scores(answers, Axes[i])[k] <= 5
  {
    CatalogAxesKnown(answers);
    AxesDistinct();
    ScoresOfTriples(answers, Axes, i);
  }

  /**
    A completed questionnaire gives every axis exactly its three scores: each
    mean axis ends in 1..5 and Play Potential in {1, 2, 5}, never 0.
   */
  lemma CompletedProfileInRange(answers: seq<Answer>)
    requires FollowsCatalog(answers) && |answers| == QuestionCount
    ensures KnownAxes(answers)
    ensures forall i :: 0 <= i < 12 ==> 1 <= Profile(answers)[i].value <= 5
    ensures Profile(answers)[12].value in {1, 2, 5}
  {
    CatalogAxesKnown(answers);
    forall i | 0 <= i < 12 ensures 1 <= Profile(answers)[i].value <= 5 {
      CompletedGroup(answers, i);
      ProfileMean(answers, i);
      RoundedMeanInRange(Profile(answers)[i].value, Scores(answers, Axes[i]), 1, 5);
    }
    CompletedGroup(answers, 12);
  }
}
