/** The one-sentence explanation shown under a suggestion (Elaro/ExplainWhyBuilder.swift). */
module ExplainWhyBuilder {
  import opened Text

  /** The part of the day an hour falls in: 5-11 mornings, 12-16 afternoons, any other
      hour (also one outside 0..23) evenings. */
  function TimeOfDay(hour: int): (when: string)
    ensures when == "mornings" <==> 5 <= hour < 12
    ensures when == "afternoons" <==> 12 <= hour < 17
    ensures when == "evenings" <==> !(5 <= hour < 17)
  {
    if 5 <= hour < 12 then "mornings" else if 12 <= hour < 17 then "afternoons" else "evenings"
  }

  /** Gentle options once more than 0.4 friction points per action were logged. */
  function FrictionPhrase(frictionIndex: real): (phrase: string)
    ensures phrase == "gentle options" <==> frictionIndex > 0.4
    ensures phrase == "a small stretch" <==> frictionIndex <= 0.4
  {
    if frictionIndex > 0.4 then "gentle options" else "a small stretch"
  }

  /** The display word of the two built-in focus areas; any other id reads "your focus". */
  function FocusWord(focusId: string): (word: string)
    ensures word == "Emotion Skills" <==> focusId == "emotion_skills"
    ensures word == "Independence" <==> focusId == "independence"
    ensures word == "your focus" <==> focusId != "emotion_skills" && focusId != "independence"
  {
    if focusId == "emotion_skills" then "Emotion Skills"
    else if focusId == "independence" then "Independence"
    else "your focus"
  }

  /** The sentence's pieces, in order. */
  function Pieces(focusId: string, preferredDuration: int, hour: int, frictionIndex: real): seq<string> {
    ["Because ", TimeOfDay(hour), " and ", IntToString(preferredDuration),
     "-minute actions work for you, we're offering ", FrictionPhrase(frictionIndex),
     " for ", FocusWord(focusId), " today."]
  }

  /** `build(focusId:preferredDuration:hour:frictionIndex:)`: the sentence names the time of
      day, the duration, the friction phrase and the focus. */
  function Build(focusId: string, preferredDuration: int, hour: int, frictionIndex: real): (s: string)
    ensures Contains(s, TimeOfDay(hour)) && Contains(s, IntToString(preferredDuration))
    ensures Contains(s, FrictionPhrase(frictionIndex)) && Contains(s, FocusWord(focusId))
  {
    var ps := Pieces(focusId, preferredDuration, hour, frictionIndex);
    JoinContains(ps, 1);
    JoinContains(ps, 3);
    JoinContains(ps, 5);
    JoinContains(ps, 7);
    Join(ps)
  }

  lemma OpeningWord(focusId: string, d: int, hour: int, fi: real)
    ensures |Build(focusId, d, hour, fi)| > 8 && Build(focusId, d, hour, fi)[8] == TimeOfDay(hour)[0]
  {
    var ps := Pieces(focusId, d, hour, fi);
    JoinSplit(ps, 1);
    assert ps[..1] == ["Because "];
    assert Join(ps[..1]) == "Because ";
  }

  /** Hours in different parts of the day give different sentences. */
  lemma BuildSeparatesTimesOfDay(focusId: string, d: int, fi: real, h1: int, h2: int)
    requires TimeOfDay(h1) != TimeOfDay(h2)
    ensures Build(focusId, d, h1, fi) != Build(focusId, d, h2, fi)
  {
    // the character after "Because " tells the three phrases apart
    assert Build(focusId, d, h1, fi)[8] == TimeOfDay(h1)[0] by { OpeningWord(focusId, d, h1, fi); }
    assert Build(focusId, d, h2, fi)[8] == TimeOfDay(h2)[0] by { OpeningWord(focusId, d, h2, fi); }
  }
}
