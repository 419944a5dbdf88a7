/**
  The question catalogue of the 11-axis quiz (ttrpg-quiz/src/App.jsx): three
  question texts per axis, every question with the same five options,
  flattened with ids `i * 3 + j + 1`.
 */
module ClassicCatalog {
  import opened Survey
  import opened ClassicScoring

  /** The options of every question. */
  const Options: seq<string> := ["Not at all", "Rarely", "Sometimes", "Often", "Always"]

  /** The three questions of one axis. */
  function Triple(axis: Axis, t0: string, t1: string, t2: string): Section
  {
    Section(axis, [Template(t0, Options), Template(t1, Options), Template(t2, Options)])
  }

  /** The template table, in insertion order (which is also the order of `Axes`). */
  const Templates: seq<Section> := [
    Triple("Storytelling",
      "How important is character-driven storytelling to you?",
      "Do you prefer long narrative arcs?",
      "Do you enjoy character backstories influencing present events?"),
    Triple("Roleplay Immersion",
      "Do you fully immerse yourself in your character?",
      "Do you write journals or backgrounds for your character?",
      "Do you stay in character while speaking and acting?"),
    Triple("Tactical Combat",
      "How much do you enjoy tactical combat?",
      "Do you track bonuses and rules closely?",
      "Do you prefer complex battle maps over theatre of the mind?"),
    Triple("Puzzle Solving",
      "Do you enjoy riddles and puzzles in your sessions?",
      "Do you look for hidden clues or coded messages?",
      "Do you like solving mysteries as part of the narrative?"),
    Triple("Character Morality",
      "Do you play morally consistent characters?",
      "Would you refuse actions against your real-life ethics?",
      "Do you play characters with a personal code of honor?"),
    Triple("Player vs Character Separation",
      "Do you act differently than your character would?",
      "Do you roleplay worldviews unlike your own?",
      "Do you experiment with different personalities?"),
    Triple("Collaborative Play",
      "Do you build stories with other players?",
      "Do you initiate roleplay with party members?",
      "Do you care about party dynamics and cohesion?"),
    Triple("Improvisation",
      "Do you improvise in-character during sessions?",
      "Do you enjoy reacting to unexpected story events?",
      "Do you create spontaneous scenes or dialogue?"),
    Triple("World Interaction",
      "Do you explore the lore of the setting deeply?",
      "Do you ask questions about worldbuilding details?",
      "Do you contribute to the world as a player?"),
    Triple("Game Mechanics Focus",
      "Do you optimize builds for effectiveness?",
      "Do you learn the rules in detail for every system?",
      "Do you enjoy breaking down mechanics or min-maxing?"),
    Triple("Play Frequency",
      "How often do you currently play TTRPGs?",
      "How often would you ideally want to play?",
      "How available are you for long-term campaigns?")
  ]

  lemma TemplatesShape()
    ensures |Templates| == |Axes| && Triples(Templates)
    ensures forall i :: 0 <= i < |Templates| ==> Templates[i].axis == Axes[i]
    ensures forall i, j :: 0 <= i < |Templates| && 0 <= j < 3 ==> Templates[i].items[j].options == Options
  {
  }

  /**
    The flattened catalogue: 33 questions, question `k` on axis `Axes[k / 3]`
    with id `k + 1` and the common options.
   */
  function Questions(): (qs: seq<Question>)
    ensures |qs| == 3 * |Axes| == QuestionCount
    ensures forall k :: 0 <= k < |qs| ==>
      && qs[k].axis == Axes[k / 3]
      && qs[k].id == k + 1
      && qs[k].options == Options
  {
    TemplatesShape();
    FlattenTriples(Templates, 3);
    Flatten(Templates, 3)
  }

  /** The ids a list of questions carries. */
  function Ids(qs: seq<Question>): set<int>
  {
    set k | 0 <= k < |qs| :: qs[k].id
  }

  /** The ids are exactly 1..33, each carried by one question: no gaps and no repeats. */
  lemma QuestionIdsExact()
    ensures forall n :: n in Ids(Questions()) <==> 1 <= n <= QuestionCount
    ensures forall k, m :: 0 <= k < m < |Questions()| ==> Questions()[k].id != Questions()[m].id
  {
    var qs := Questions();
    forall n | 1 <= n <= QuestionCount ensures n in Ids(qs) {
      assert qs[n - 1].id == n;
    }
  }
}
