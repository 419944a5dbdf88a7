/**
  Vocabulary shared by both variants of the quiz: the recorded answers, the
  question catalogue flattened from per-axis templates, the grouping of scores
  by axis, and JavaScript's `Math.round` applied to a mean.
 */
module Survey {

  /** Axis names are plain strings, exactly as the source compares them. */
  type Axis = string

  datatype Option<+T> = None | Some(value: T)

  /** One recorded response: the axis of its question and the 1-based position of the chosen option. */
  datatype Answer = Answer(axis: Axis, score: int)

  /** One entry of the aggregated profile. */
  datatype AxisValue = AxisValue(axis: Axis, value: int)

  /** A question as written in the per-axis template table. */
  datatype Template = Template(text: string, options: seq<string>)

  /** The templates of one axis, in the order the table lists them. */
  datatype Section = Section(axis: Axis, items: seq<Template>)

  /** A question of the flattened catalogue. */
  datatype Question = Question(id: int, text: string, axis: Axis, options: seq<string>)

  // ---------------------------------------------------------------------------
  // Catalogue flattening: `Object.entries(templates).flatMap(([axis, items], i) =>
  // items.map((q, j) => ({ id: i * stride + j + 1, ... })))`
  // ---------------------------------------------------------------------------

  /** The questions produced from the section at position `i`. */
  function SectionQuestions(sec: Section, i: nat, stride: nat): seq<Question>
  {
    seq(|sec.items|, j requires 0 <= j < |sec.items| =>
      Question(i * stride + j + 1, sec.items[j].text, sec.axis, sec.items[j].options))
  }

  /** The whole catalogue, section after section. */
  function Flatten(sections: seq<Section>, stride: nat): seq<Question>
  {
    if sections == [] then []
    else
      var n := |sections| - 1;
      Flatten(sections[..n], stride) + SectionQuestions(sections[n], n, stride)
  }

  /** Every axis has exactly three templates, as in both template tables. */
  predicate Triples(sections: seq<Section>)
  {
    forall i :: 0 <= i < |sections| ==> |sections[i].items| == 3
  }

  /** Question `k` of a flattened table of triples is item `k % 3` of section `k / 3`. */
  lemma {:induction false} FlattenTriples(sections: seq<Section>, stride: nat)
    requires Triples(sections)
    ensures |Flatten(sections, stride)| == 3 * |sections|
    ensures forall k :: 0 <= k < |Flatten(sections, stride)| ==>
      var sec := sections[k / 3];
      Flatten(sections, stride)[k] ==
        Question((k / 3) * stride + k % 3 + 1, sec.items[k % 3].text, sec.axis, sec.items[k % 3].options)
  {
    if sections != [] {
      var n := |sections| - 1;
      FlattenTriples(sections[..n], stride);
      var f := Flatten(sections, stride);
      forall k | 0 <= k < |f|
        ensures f[k] == Question((k / 3) * stride + k % 3 + 1, sections[k / 3].items[k % 3].text,
                                 sections[k / 3].axis, sections[k / 3].items[k % 3].options)
      {
        if k < 3 * n {
          assert f[k] == Flatten(sections[..n], stride)[k];
        } else {
          assert k / 3 == n && k % 3 == k - 3 * n;
        }
      }
    }
  }

  /**
    `answers` is what choosing `choices[k]` for question k of a catalogue of
    triples over `axes` records: option `choices[k] + 1` of axis `axes[k / 3]`.
   */
  predicate RecordsChoices(answers: seq<Answer>, axes: seq<Axis>, choices: seq<int>)
  {
    && |answers| == |choices| <= 3 * |axes|
    && forall k :: 0 <= k < |choices| ==> answers[k] == Answer(axes[k / 3], choices[k] + 1)
  }

  /** Recording one more choice after the recorded ones records them all. */
  lemma RecordsOneMore(prev: seq<Answer>, next: seq<Answer>, axes: seq<Axis>, choices: seq<int>)
    requires 0 < |choices| <= 3 * |axes|
    requires RecordsChoices(prev, axes, choices[..|choices| - 1])
    requires |next| == |choices| && next[..|prev|] == prev
    requires next[|prev|] == Answer(axes[|prev| / 3], choices[|prev|] + 1)
    ensures RecordsChoices(next, axes, choices)
  {
    var n := |prev|;
    forall k | 0 <= k < n ensures next[k] == Answer(axes[k / 3], choices[k] + 1) {
      assert next[k] == next[..n][k];
      assert choices[..n][k] == choices[k];
    }
  }

  // ---------------------------------------------------------------------------
  // Grouping and sums
  // ---------------------------------------------------------------------------

  /** The scores recorded for `axis`, in the order the answers list them. */
  function Scores(answers: seq<Answer>, axis: Axis): seq<int>
  {
    if answers == [] then []
    else
      var n := |answers| - 1;
      Scores(answers[..n], axis) + (if answers[n].axis == axis then [answers[n].score] else [])
  }

  function Sum(s: seq<int>): int
  {
    if s == [] then 0 else Sum(s[..|s| - 1]) + s[|s| - 1]
  }

  /** One more answer extends its own axis's group by its score, and no other group. */
  lemma GroupStep(answers: seq<Answer>, a: Answer, axis: Axis)
    ensures Scores(answers + [a], axis) == Scores(answers, axis) + (if a.axis == axis then [a.score] else [])
    ensures Sum(Scores(answers + [a], axis)) == Sum(Scores(answers, axis)) + (if a.axis == axis then a.score else 0)
  {
    assert (answers + [a])[..|answers|] == answers;
    var g := Scores(answers, axis);
    if a.axis == axis {
      assert (g + [a.score])[..|g|] == g;
    } else {
      assert g + [] == g;
    }
  }

  lemma {:induction false} ScoresConcat(a: seq<Answer>, b: seq<Answer>, axis: Axis)
    ensures Scores(a + b, axis) == Scores(a, axis) + Scores(b, axis)
    decreases |b|
  {
    if b == [] {
      assert a + b == a;
    } else {
      var n := |b| - 1;
      assert (a + b)[..|a + b| - 1] == a + b[..n];
      ScoresConcat(a, b[..n], axis);
    }
  }

  /** An axis that no answer names gets an empty group. */
  lemma {:induction false} ScoresAbsent(answers: seq<Answer>, axis: Axis)
    requires forall k :: 0 <= k < |answers| ==> answers[k].axis != axis
    ensures Scores(answers, axis) == []
  {
    if answers != [] {
      ScoresAbsent(answers[..|answers| - 1], axis);
    }
  }

  /** Scores of the answers within [lo, hi] give a group within [lo, hi]. */
  lemma {:induction false} ScoresWithin(answers: seq<Answer>, axis: Axis, lo: int, hi: int)
    requires forall k :: 0 <= k < |answers| ==> lo <= answers[k].score <= hi
    ensures forall k :: 0 <= k < |Scores(answers, axis)| ==> lo <= Scores(answers, axis)[k] <= hi
  {
    if answers != [] {
      ScoresWithin(answers[..|answers| - 1], axis, lo, hi);
    }
  }

  /** The group of `axis` holds `v` as often as the answers hold `Answer(axis, v)`. */
  lemma {:induction false} ScoresCount(answers: seq<Answer>, axis: Axis, v: int)
    ensures multiset(Scores(answers, axis))[v] == multiset(answers)[Answer(axis, v)]
  {
    if answers != [] {
      var n := |answers| - 1;
      ScoresCount(answers[..n], axis, v);
      assert answers == answers[..n] + [answers[n]];
    }
  }

  /** Reordering the answers reorders each group and nothing more. */
  lemma ScoresPermutation(a: seq<Answer>, b: seq<Answer>, axis: Axis)
    requires multiset(a) == multiset(b)
    ensures multiset(Scores(a, axis)) == multiset(Scores(b, axis))
  {
    forall v ensures multiset(Scores(a, axis))[v] == multiset(Scores(b, axis))[v] {
      ScoresCount(a, axis, v);
      ScoresCount(b, axis, v);
    }
  }

  lemma {:induction false} SumConcat(a: seq<int>, b: seq<int>)
    ensures Sum(a + b) == Sum(a) + Sum(b)
    decreases |b|
  {
    if b == [] {
      assert a + b == a;
    } else {
      var n := |b| - 1;
      assert (a + b)[..|a + b| - 1] == a + b[..n];
      SumConcat(a, b[..n]);
    }
  }

  /** A sum does not depend on the order of its terms. */
  lemma {:induction false} SumPermutation(s: seq<int>, t: seq<int>)
    requires multiset(s) == multiset(t)
    ensures Sum(s) == Sum(t)
    decreases |s|
  {
    if s == [] {
      assert |t| == |multiset(t)| == 0;
    } else {
      var n := |s| - 1;
      var x := s[n];
      assert s == s[..n] + [x];
      assert x in multiset(t);
      var k :| 0 <= k < |t| && t[k] == x;
      var rest := t[..k] + t[k + 1..];
      assert t == t[..k] + [x] + t[k + 1..];
      SumConcat(t[..k] + [x], t[k + 1..]);
      SumConcat(t[..k], [x]);
      SumConcat(t[..k], t[k + 1..]);
      assert Sum([x]) == x by { assert [x][..0] == []; }
      assert multiset(t) == multiset(t[..k]) + multiset{x} + multiset(t[k + 1..]);
      assert multiset(s) == multiset(s[..n]) + multiset{x};
      assert multiset(rest) == multiset(t[..k]) + multiset(t[k + 1..]);
      assert multiset(s[..n]) == multiset(s) - multiset{x};
      assert multiset(rest) == multiset(t) - multiset{x};
      SumPermutation(s[..n], rest);
    }
  }

  lemma {:induction false} SumBounds(s: seq<int>, lo: int, hi: int)
    requires forall k :: 0 <= k < |s| ==> lo <= s[k] <= hi
    ensures |s| * lo <= Sum(s) <= |s| * hi
  {
    if s != [] {
      var n := |s| - 1;
      SumBounds(s[..n], lo, hi);
      assert |s| * lo == n * lo + lo && |s| * hi == n * hi + hi;
    }
  }

  // ---------------------------------------------------------------------------
  // Rounding
  // ---------------------------------------------------------------------------

  /**
    `Math.round(total / count)` for a positive count: the integer nearest to the
    quotient, with an exact half going up (toward +infinity, also for negative
    quotients). Dafny's `/` floors for a positive divisor, so
    floor(total / count + 1/2) is (2 * total + count) / (2 * count).
   */
  function RoundedQuotient(total: int, count: int): (r: int)
    requires count > 0
    ensures 2 * count * r <= 2 * total + count < 2 * count * (r + 1)
  {
    var d := 2 * count;
    var n := 2 * total + count;
    assert d * (n / d) + n % d == n;
    n / d
  }

  /** Multiplying by a non-negative factor keeps an inequality. */
  lemma {:induction false} MulMonotone(d: nat, x: int, y: int)
    requires x <= y
    ensures d * x <= d * y
    decreases y - x
  {
    if x < y {
      MulMonotone(d, x, y - 1);
      assert d * y == d * (y - 1) + d;
    }
  }

  lemma MulCancel(d: nat, x: int, y: int)
    requires d * x < d * y
    ensures x < y
  {
    if x >= y {
      MulMonotone(d, y, x);
    }
  }

  /** The nearest-integer-halves-up condition determines the rounded value. */
  lemma RoundedQuotientUnique(total: int, count: int, r: int)
    requires count > 0
    requires 2 * count * r <= 2 * total + count < 2 * count * (r + 1)
    ensures r == RoundedQuotient(total, count)
  {
    var q := RoundedQuotient(total, count);
    if r < q {
      MulMonotone(2 * count, r + 1, q);
    } else if r > q {
      MulMonotone(2 * count, q + 1, r);
    }
  }

  /** `value` is the rounded mean of `scores`, an empty group counting as 0. */
  predicate IsRoundedMean(value: int, scores: seq<int>)
  {
    if |scores| == 0 then value == 0
    else 2 * |scores| * value <= 2 * Sum(scores) + |scores| < 2 * |scores| * (value + 1)
  }

  /**
    `Math.round(sum / (length || 1))`: the rounded mean of a group, where the
    `|| 1` turns the empty group's 0 / 0 into 0 / 1.
   */
  function MeanValue(scores: seq<int>): (v: int)
    ensures IsRoundedMean(v, scores)
  {
    RoundedQuotient(Sum(scores), if |scores| == 0 then 1 else |scores|)
  }

  /** Scores within [lo, hi] have a rounded mean within [lo, hi]. */
  lemma RoundedMeanInRange(v: int, scores: seq<int>, lo: int, hi: int)
    requires IsRoundedMean(v, scores)
    requires |scores| > 0
    requires forall k :: 0 <= k < |scores| ==> lo <= scores[k] <= hi
    ensures lo <= v <= hi
  {
    var c, total := |scores|, Sum(scores);
    var d := 2 * c;
    SumBounds(scores, lo, hi);
    assert d * v <= 2 * total + c < d * (v + 1);
    assert d * hi == 2 * (c * hi) && d * lo == 2 * (c * lo);
    assert d * (hi + 1) == d * hi + d;
    MulCancel(d, v, hi + 1);
    assert d * (v + 1) == d * v + d;
    MulCancel(d, lo, v + 1);
  }

  /** The rounded mean depends only on the multiset of scores. */
  lemma MeanPermutation(s: seq<int>, t: seq<int>)
    requires multiset(s) == multiset(t)
    ensures MeanValue(s) == MeanValue(t)
  {
    SumPermutation(s, t);
    assert |s| == |multiset(s)| == |multiset(t)| == |t|;
  }

  // ---------------------------------------------------------------------------
  // Answers that follow a catalogue of triples
  // ---------------------------------------------------------------------------

  /** No axis is listed twice. */
  predicate Distinct(axes: seq<Axis>)
  {
    forall p, q :: 0 <= p < q < |axes| ==> axes[p] != axes[q]
  }

  /** Three answers of one axis form a group of their three scores, in order. */
  lemma ScoresOfBlock(block: seq<Answer>, axis: Axis)
    requires |block| == 3
    requires block[0].axis == axis && block[1].axis == axis && block[2].axis == axis
    ensures Scores(block, axis) == [block[0].score, block[1].score, block[2].score]
  {
    assert block[..2][..1] == block[..1];
    assert block[..1][..0] == [];
    assert Scores(block[..1], axis) == [block[0].score];
    assert Scores(block[..2], axis) == [block[0].score, block[1].score];
  }

  /** The answers before the last block of three follow the same layout over the axes before the last. */
  lemma PrefixTriples(answers: seq<Answer>, axes: seq<Axis>)
    requires |answers| == 3 * |axes| && |axes| > 0
    requires forall k :: 0 <= k < |answers| ==> answers[k].axis == axes[k / 3]
    requires Distinct(axes)
    ensures var n := |axes| - 1;
            && |answers[..3 * n]| == 3 * |axes[..n]|
            && (forall k :: 0 <= k < 3 * n ==> answers[..3 * n][k].axis == axes[..n][k / 3])
            && Distinct(axes[..n])
  {
    var n := |axes| - 1;
    forall k | 0 <= k < 3 * n ensures answers[..3 * n][k].axis == axes[..n][k / 3] {
      assert answers[..3 * n][k] == answers[k];
    }
  }

  /** Splitting triple-structured answers before their last block of three. */
  lemma SplitLastBlock(answers: seq<Answer>, axes: seq<Axis>, axis: Axis)
    requires |answers| == 3 * |axes| && |axes| > 0
    ensures var n := |axes| - 1;
            Scores(answers, axis) == Scores(answers[..3 * n], axis) + Scores(answers[3 * n..], axis)
  {
    var n := |axes| - 1;
    assert answers == answers[..3 * n] + answers[3 * n..];
    ScoresConcat(answers[..3 * n], answers[3 * n..], axis);
  }

  /** The group of the last axis is the last block's three scores. */
  lemma LastBlockScores(answers: seq<Answer>, axes: seq<Axis>)
    requires |answers| == 3 * |axes| && |axes| > 0
    requires forall k :: 0 <= k < |answers| ==> answers[k].axis == axes[k / 3]
    requires Distinct(axes)
    ensures var n := |axes| - 1;
            Scores(answers, axes[n]) == [answers[3 * n].score, answers[3 * n + 1].score, answers[3 * n + 2].score]
  {
    var n := |axes| - 1;
    var prefix, block := answers[..3 * n], answers[3 * n..];
    SplitLastBlock(answers, axes, axes[n]);
    forall k | 0 <= k < |prefix| ensures prefix[k].axis != axes[n] {
      assert prefix[k] == answers[k] && k / 3 < n;
    }
    ScoresAbsent(prefix, axes[n]);
    forall j | 0 <= j < 3 ensures block[j] == answers[3 * n + j] && block[j].axis == axes[n] {
      assert (3 * n + j) / 3 == n;
    }
    ScoresOfBlock(block, axes[n]);
  }

  /** An axis that no answer from position `m` on carries keeps the group of the first `m` answers. */
  lemma AbsentFrom(answers: seq<Answer>, m: nat, axis: Axis)
    requires m <= |answers|
    requires forall j :: m <= j < |answers| ==> answers[j].axis != axis
    ensures Scores(answers, axis) == Scores(answers[..m], axis)
  {
    var block := answers[m..];
    assert answers == answers[..m] + block;
    ScoresConcat(answers[..m], block, axis);
    forall j | 0 <= j < |block| ensures block[j].axis != axis {
      assert block[j] == answers[m + j];
    }
    ScoresAbsent(block, axis);
    assert Scores(answers[..m], axis) + [] == Scores(answers[..m], axis);
  }

  /**
    When answer `k` belongs to axis `axes[k / 3]` (three consecutive questions
    per axis), the group of `axes[i]` is exactly the three scores of block `i`.
   */
  lemma {:induction false} ScoresOfTriples(answers: seq<Answer>, axes: seq<Axis>, i: nat)
    requires |answers| == 3 * |axes|
    requires forall k :: 0 <= k < |answers| ==> answers[k].axis == axes[k / 3]
    requires Distinct(axes)
    requires i < |axes|
    ensures Scores(answers, axes[i]) ==
      [answers[3 * i].score, answers[3 * i + 1].score, answers[3 * i + 2].score]
  {
    var n := |axes| - 1;
    if i < n {
      var prefix := answers[..3 * n];
      PrefixTriples(answers, axes);
      ScoresOfTriples(prefix, axes[..n], i);
      forall j | 3 * n <= j < |answers| ensures answers[j].axis != axes[i] {
        assert j / 3 == n;
      }
      AbsentFrom(answers, 3 * n, axes[i]);
      assert prefix[3 * i] == answers[3 * i] && prefix[3 * i + 1] == answers[3 * i + 1]
        && prefix[3 * i + 2] == answers[3 * i + 2];
    } else {
      LastBlockScores(answers, axes);
    }
  }
}
