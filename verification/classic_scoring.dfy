/**
  Scoring of the 11-axis quiz (ttrpg-quiz/src/App.jsx): per-axis running
  totals and counts, then the rounded mean of every axis, with no special case.
 */
module ClassicScoring {
  import opened Survey

  /** The axes in the order the profile reports them. */
  const Axes: seq<Axis> := [
    "Storytelling", "Roleplay Immersion", "Tactical Combat", "Puzzle Solving", "Character Morality",
    "Player vs Character Separation", "Collaborative Play", "Improvisation", "World Interaction",
    "Game Mechanics Focus", "Play Frequency"
  ]

  lemma AxesDistinct()
    ensures Distinct(Axes)
  {
  }

  /** `questions.length`. */
  const QuestionCount: nat := 33

  // ---------------------------------------------------------------------------
  // analyzeResults
  // ---------------------------------------------------------------------------

  /**
    `m[key] += d` on a JavaScript object of numbers, with `None` standing for
    NaN: a key that is not an own or inherited property reads as `undefined`,
    and `undefined + d` and `NaN + d` are both NaN. (`counts[axis]++` is the
    case `d == 1`.) Inherited keys such as "toString" are not modelled.
   */
  function AddTo(m: map<Axis, Option<int>>, key: Axis, d: int): (r: map<Axis, Option<int>>)
    ensures key in r && r[key] == (if key in m && m[key].Some? then Some(m[key].value + d) else None)
    ensures forall x :: x != key ==> (x in r <==> x in m) && (x in m ==> r[x] == m[x])
  {
    m[key := if key in m && m[key].Some? then Some(m[key].value + d) else None]
  }

  /** The profile: one entry per axis, in the order of `Axes` whatever the order of the answers. */
  function Profile(answers: seq<Answer>): (r: seq<AxisValue>)
    ensures |r| == |Axes|
    ensures forall i :: 0 <= i < |Axes| ==> r[i].axis == Axes[i]
  {
    seq(|Axes|, i requires 0 <= i < |Axes| => AxisValue(Axes[i], MeanValue(Scores(answers, Axes[i]))))
  }

  /**
    Every entry of the profile, Play Frequency included, is the rounded mean
    of that axis's scores (0 when it has none).
   */
  lemma ProfileMean(answers: seq<Answer>, i: nat)
    requires i < |Axes|
    ensures IsRoundedMean(Profile(answers)[i].value, Scores(answers, Axes[i]))
  {
    assert Profile(answers)[i].value == MeanValue(Scores(answers, Axes[i]));
  }

  /** `totals` and `counts` hold, for every axis, the sum and the number of its scores among `answers`. */
  predicate Tallied(totals: map<Axis, Option<int>>, counts: map<Axis, Option<int>>, answers: seq<Answer>)
  {
    forall x :: x in Axes ==>
      && x in totals && totals[x] == Some(Sum(Scores(answers, x)))
      && x in counts && counts[x] == Some(|Scores(answers, x)|)
  }

  /** One iteration of the tallying loop, on answer `j`, keeps the tallies exact. */
  lemma TallyStep(totals: map<Axis, Option<int>>, counts: map<Axis, Option<int>>, answers: seq<Answer>, j: nat)
    requires j < |answers|
    requires Tallied(totals, counts, answers[..j])
    ensures Tallied(AddTo(totals, answers[j].axis, answers[j].score), AddTo(counts, answers[j].axis, 1), answers[..j + 1])
  {
    var a := answers[j];
    assert answers[..j + 1] == answers[..j] + [a];
    var totals', counts' := AddTo(totals, a.axis, a.score), AddTo(counts, a.axis, 1);
    forall x | x in Axes
      ensures x in totals' && totals'[x] == Some(Sum(Scores(answers[..j + 1], x)))
      ensures x in counts' && counts'[x] == Some(|Scores(answers[..j + 1], x)|)
    {
      GroupStep(answers[..j], a, x);
    }
  }

  /**
    `analyzeResults`: sets `totals` and `counts` to 0 for every axis, adds each
    answer's score to its axis's total and counts it, then maps the axes to
    `Math.round(total / (count || 1))`.
   */
  method AnalyzeResults(answers: seq<Answer>) returns (profile: seq<AxisValue>)
    ensures profile == Profile(answers)
  {
    var totals: map<Axis, Option<int>> := map[];
    var counts: map<Axis, Option<int>> := map[];
    for i := 0 to |Axes|
      invariant forall x :: x in Axes[..i] ==> x in totals && totals[x] == Some(0) && x in counts && counts[x] == Some(0)
    {
      totals := totals[Axes[i] := Some(0)];
      counts := counts[Axes[i] := Some(0)];
    }
    assert Axes[..|Axes|] == Axes;
    for j := 0 to |answers|
      invariant Tallied(totals, counts, answers[..j])
    {
      var a := answers[j];
      TallyStep(totals, counts, answers, j);
      totals := AddTo(totals, a.axis, a.score);
      counts := AddTo(counts, a.axis, 1);
    }
    assert answers[..|answers|] == answers;
    profile := seq(|Axes|, i requires 0 <= i < |Axes| =>
      var count := counts[Axes[i]].value;
      AxisValue(Axes[i], RoundedQuotient(totals[Axes[i]].value, if count == 0 then 1 else count)));
  }

  // ---------------------------------------------------------------------------
  // Properties of the profile
  // ---------------------------------------------------------------------------

  /** Only per-axis sums and counts are used, so any reordering of the answers gives the same profile. */
  lemma ProfileOrderIndependent(a: seq<Answer>, b: seq<Answer>)
    requires multiset(a) == multiset(b)
    ensures Profile(a) == Profile(b)
  {
    forall i | 0 <= i < |Axes| ensures Profile(a)[i] == Profile(b)[i] {
      ScoresPermutation(a, b, Axes[i]);
      MeanPermutation(Scores(a, Axes[i]), Scores(b, Axes[i]));
    }
  }

  /** The answers whose axis is one of `Axes`, in their order. */
  function KnownOnly(answers: seq<Answer>): (r: seq<Answer>)
    ensures |r| <= |answers|
    ensures forall k :: 0 <= k < |r| ==> r[k].axis in Axes
  {
    if answers == [] then []
    else
      var n := |answers| - 1;
      KnownOnly(answers[..n]) + (if answers[n].axis in Axes then [answers[n]] else [])
  }

  /** Dropping the answers on unknown axes leaves every axis's group as it was. */
  lemma {:induction false} ScoresKnownOnly(answers: seq<Answer>, axis: Axis)
    requires axis in Axes
    ensures Scores(KnownOnly(answers), axis) == Scores(answers, axis)
    decreases |answers|
  {
    if answers != [] {
      var n := |answers| - 1;
      ScoresKnownOnly(answers[..n], axis);
      var tail := if answers[n].axis in Axes then [answers[n]] else [];
      ScoresConcat(KnownOnly(answers[..n]), tail, axis);
      assert tail[..|tail|] == tail;
      if tail != [] {
        assert tail[..0] == [];
      }
    }
  }

  /**
    Answers naming an axis outside `Axes` never change the profile: they only
    touch keys of `totals` and `counts` that the final map never reads.
   */
  lemma ProfileIgnoresUnknownAxes(answers: seq<Answer>)
    ensures Profile(KnownOnly(answers)) == Profile(answers)
  {
    forall i | 0 <= i < |Axes| ensures Profile(KnownOnly(answers))[i] == Profile(answers)[i] {
      ScoresKnownOnly(answers, Axes[i]);
    }
  }

  /** With every score in 1..5, an axis that has at least one answer gets a value in 1..5. */
  lemma AnsweredAxisInRange(answers: seq<Answer>, i: nat)
    requires forall k :: 0 <= k < |answers| ==> 1 <= answers[k].score <= 5
    requires i < |Axes| && |Scores(answers, Axes[i])| > 0
    ensures 1 <= Profile(answers)[i].value <= 5
  {
    ScoresWithin(answers, Axes[i], 1, 5);
    ProfileMean(answers, i);
    RoundedMeanInRange(Profile(answers)[i].value, Scores(answers, Axes[i]), 1, 5);
  }

  /**
    Answers that score the catalogue's questions in order: answer `k` carries
    the axis of question `k`, `Axes[k / 3]`, and an option position 1..5 (see
    `Questions`).
   */
  predicate FollowsCatalog(answers: seq<Answer>)
  {
    && |answers| <= QuestionCount
    && forall k :: 0 <= k < |answers| ==> answers[k].axis == Axes[k / 3] && 1 <= answers[k].score <= 5
  }

  /** A completed questionnaire gives every axis, Play Frequency included, a value in 1..5. */
  lemma CompletedProfileInRange(answers: seq<Answer>)
    requires FollowsCatalog(answers) && |answers| == QuestionCount
    ensures forall i :: 0 <= i < |Axes| ==> 1 <= Profile(answers)[i].value <= 5
  {
    AxesDistinct();
    forall i | 0 <= i < |Axes| ensures 1 <= Profile(answers)[i].value <= 5 {
      ScoresOfTriples(answers, Axes, i);
      AnsweredAxisInRange(answers, i);
    }
  }
}
