/**
  The question catalogue of the 13-axis quiz (src/App.jsx): a template table
  of three questions per axis, flattened with ids `i * 10 + j + 1`.
 */
module ProfileCatalog {
  import opened Survey
  import opened ProfileScoring

  const DefaultOptions: seq<string> := ["Very rarely", "Rarely", "Sometimes", "Often", "Very often"]
  const PercentageOptions: seq<string> := ["0%", "1-24%", "25-49%", "50-74%", "75-100%"]
  const FrequencyOptions: seq<string> := ["Never", "1/30 days", "1/14 days", "1/7 days", "More"]
  const Frequency2Options: seq<string> :=
    ["Never", "0-2 pr Campaign", "A quarter of sessions have one", "Every other session has one", "Every Session!"]

  /** The three templates of one axis. */
  function Triple(axis: Axis, t0: string, o0: seq<string>, t1: string, o1: seq<string>,
                  t2: string, o2: seq<string>): Section
  {
    Section(axis, [Template(t0, o0), Template(t1, o1), Template(t2, o2)])
  }

  /** The template table, in insertion order (which is also the order of `Axes`). */
  const Templates: seq<Section> := [
    Triple("Storytelling",
      "Is the story something that should primarily be driving the campaign?", DefaultOptions,
      "Do you prefer longer narrative arcs?", DefaultOptions,
      "How often do you want character backstories influencing present events?", DefaultOptions),
    Triple("Roleplay Immersion",
      "How much do you want to immerse yourself in your character?", DefaultOptions,
      "How often do you want to interact with other PCs in character?", DefaultOptions,
      "How often do you want others to interact with you in character?", DefaultOptions),
    Triple("Combat Enthusiasm",
      "How much do you prefer for a session to focus on combat encounters during a session?", PercentageOptions,
      "How much do you think others in a pod should focus on optimizing for efficient combat?", PercentageOptions,
      "If you could pick how often combats occur in sessions, what would you pick?", DefaultOptions),
    Triple("Combat Complexity",
      "How much do you enjoy combat that requires strategic positioning, resource tracking, and tactical choices?", DefaultOptions,
      "Do you enjoy learning and applying intricate game mechanics (e.g., conditions, flanking, cover)?", DefaultOptions,
      "How important is turn-by-turn planning and synergy with teammates during combat?", DefaultOptions),
    Triple("Combat Frequency",
      "What percentage of a session would you ideally want to be combat-focused?", PercentageOptions,
      "How often would you like sessions to include at least one combat encounter?", Frequency2Options,
      "Do you feel disappointed when a session goes by without combat?", DefaultOptions),
    Triple("Puzzle Solving",
      "Do you enjoy riddles and puzzles in your sessions? NOT COMBAT", DefaultOptions,
      "How often do you want puzzles incorporated into a session for story or otherwise?", Frequency2Options,
      "Do you like solving mysteries as part of the narrative? Not skill roll/random chance", DefaultOptions),
    Triple("Character Morality",
      "How often do you play morally consistent characters?", PercentageOptions,
      "How often would you accept actions against your real-life ethics?", PercentageOptions,
      "How often do you play characters with a personal code of honor?", DefaultOptions),
    Triple("Player Character Decohesion",
      "How comfortable are you playing characters whose actions or personalities differ significantly from your own in real life?", PercentageOptions,
      "Do you enjoy roleplaying worldviews unlike your own?", PercentageOptions,
      "Do you experiment with different personalities?", PercentageOptions),
    Triple("Collaborative Play",
      "Do you want to build stories with other players?", DefaultOptions,
      "How often do you find your characters set aside greed in favour of the greater good?", DefaultOptions,
      "Are party dynamics and cohesion important to the characters you make??", DefaultOptions),
    Triple("Improvisation",
      "Do you improvise in-character during sessions?", DefaultOptions,
      "Do you enjoy reacting to unexpected story events?", DefaultOptions,
      "Do you create spontaneous scenes or dialogue?", DefaultOptions),
    Triple("World Interaction",
      "How often do you find yourself drawn into the lore/world if its decently written?", DefaultOptions,
      "Do you want to be able to be sidetracked by unrelated or non essential situations, places /people?", DefaultOptions,
      "How often do you find yourself wanting to interact with the world/NPCs outside of main objectives?", DefaultOptions),
    Triple("Game Mechanics Focus",
      "Do you optimize builds for effectiveness more or equally to your peers?", DefaultOptions,
      "How important is it to you to learn and use every mechanic/rule?", PercentageOptions,
      "What percentage of the time do you enjoy breaking down mechanics or min-maxing?", PercentageOptions),
    Triple(PlayPotential,
      "How often do you currently play TTRPGs?", FrequencyOptions,
      "How often would you ideally want to play?", FrequencyOptions,
      "How available are you for long-term campaigns?", FrequencyOptions)
  ]

  /** The template table lists the axes of `Axes`, in that order, three questions of five options each. */
  lemma TemplatesShape()
    ensures |Templates| == |Axes| && Triples(Templates)
    ensures forall i :: 0 <= i < |Templates| ==> Templates[i].axis == Axes[i]
    ensures forall i, j :: 0 <= i < |Templates| && 0 <= j < 3 ==> |Templates[i].items[j].options| == 5
  {
  }

  /**
    The flattened catalogue: 39 questions, question `k` on axis `Axes[k / 3]`
    with id `(k / 3) * 10 + k % 3 + 1` and five options.
   */
  function Questions(): (qs: seq<Question>)
    ensures |qs| == 3 * |Axes| == QuestionCount
    ensures forall k :: 0 <= k < |qs| ==>
      && qs[k].axis == Axes[k / 3] && qs[k].axis in Axes
      && qs[k].id == (k / 3) * 10 + k % 3 + 1
      && |qs[k].options| == 5
  {
    TemplatesShape();
    FlattenTriples(Templates, 10);
    Flatten(Templates, 10)
  }

  /** Ids grow strictly along the catalogue, so no two questions share one. */
  lemma QuestionIdsIncreasing()
    ensures forall k, m :: 0 <= k < m < |Questions()| ==> Questions()[k].id < Questions()[m].id
  {
    var qs := Questions();
    forall k, m | 0 <= k < m < |qs| ensures qs[k].id < qs[m].id {
      assert k / 3 < m / 3 || (k / 3 == m / 3 && k % 3 < m % 3);
    }
  }

}
