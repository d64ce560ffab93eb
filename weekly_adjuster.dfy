/** The weekly review of one focus area: what went well, what was hard, and whether to
    scale the activities up, down or keep them (Elaro/WeeklyAdjuster.swift). */
module WeeklyAdjuster {
  import opened Wrappers
  import opened Text
  import opened Models
  import opened Store
  import opened Counting
  import opened SignalsEngine

  datatype TweakDecision = Keep | ScaleDown | ScaleUp {
    /** The enum's raw value, the form stored in a weekly summary. */
    function RawValue(): (r: string)
      ensures |r| > 0 && forall i :: 0 <= i < |r| ==> 'a' <= r[i] <= 'z' || r[i] == '_'
    {
      match this
      case Keep => "keep"
      case ScaleDown => "scale_down"
      case ScaleUp => "scale_up"
    }

    /** The name shown to the user: the raw value with its first letter capitalised and
        its underscores spoken as spaces. */
    function DisplayName(): (r: string)
      ensures |r| == |RawValue()| && r[0] == UpperChar(RawValue()[0])
      ensures forall i :: 0 < i < |r| ==> r[i] == (if RawValue()[i] == '_' then ' ' else RawValue()[i])
    {
      match this
      case Keep => "Keep"
      case ScaleDown => "Scale down"
      case ScaleUp => "Scale up"
    }

    /** Scale-down below keep below scale-up. */
    function Level(): int {
      match this
      case ScaleDown => 0
      case Keep => 1
      case ScaleUp => 2
    }
  }

  /** `TweakDecision(rawValue:)` */
  function TweakFromRawValue(raw: string): (t: Option<TweakDecision>)
    ensures t.Some? ==> t.value.RawValue() == raw
    ensures t.None? ==> forall d: TweakDecision :: d.RawValue() != raw
  {
    if raw == "keep" then Some(Keep)
    else if raw == "scale_down" then Some(ScaleDown)
    else if raw == "scale_up" then Some(ScaleUp)
    else None
  }

  /** Different decisions are shown under different names. */
  lemma DisplayNamesDistinct(a: TweakDecision, b: TweakDecision)
    ensures a.DisplayName() == b.DisplayName() ==> a == b
  {
  }

  /** A stored raw value reads back as the decision that wrote it. */
  lemma RawValueRoundTrip(t: TweakDecision)
    ensures TweakFromRawValue(t.RawValue()) == Some(t)
  {
  }

  /** `determineSuggestedTweak(completionRate:frictionIndex:)`: scale up on at least 70%
      completion with friction at most 0.3; otherwise scale down on at most 30% completion
      or friction above 0.4; otherwise keep. */
  function DetermineSuggestedTweak(completionRate: real, frictionIndex: real): (t: TweakDecision)
    ensures t == ScaleUp <==> completionRate >= 0.7 && frictionIndex <= 0.3
    ensures t == ScaleDown <==> (completionRate < 0.7 || frictionIndex > 0.3) && (completionRate <= 0.3 || frictionIndex > 0.4)
  {
    if completionRate >= 0.7 && frictionIndex <= 0.3 then ScaleUp
    else if completionRate <= 0.3 || frictionIndex > 0.4 then ScaleDown
    else Keep
  }

  /** More completion never leads to a smaller tweak. */
  lemma TweakMonotoneInCompletion(r1: real, r2: real, fi: real)
    requires r1 <= r2
    ensures DetermineSuggestedTweak(r1, fi).Level() <= DetermineSuggestedTweak(r2, fi).Level()
  {
  }

  /** More friction never leads to a larger tweak. */
  lemma TweakAntitoneInFriction(rate: real, f1: real, f2: real)
    requires f1 <= f2
    ensures DetermineSuggestedTweak(rate, f2).Level() <= DetermineSuggestedTweak(rate, f1).Level()
  {
  }

  // ---------------------------------------------------------------------------
  // Text generation

  /** `completedInstances.map { $0.templateId }` */
  function TemplateIds(xs: seq<ActionInstance>): (r: seq<string>)
    ensures |r| == |xs| && forall k :: 0 <= k < |xs| ==> r[k] == xs[k].templateId
  {
    seq(|xs|, k requires 0 <= k < |xs| => xs[k].templateId)
  }

  /** The win text once the most completed template id `tid` is known: its title and count
      when some template has that id (searched among all templates), otherwise the number
      of completions. */
  function WinTextFor(completed: seq<ActionInstance>, allActions: seq<ActionTemplate>, tid: string): string {
    var count := Occurrences(TemplateIds(completed), tid);
    match FindTemplate(allActions, tid)
    case Some(t) =>
      if count > 1 then "Completed '" + t.title + "' " + IntToString(count) + " times"
      else "Successfully completed '" + t.title + "'"
    case None =>
      "Completed " + IntToString(|completed|) + " action" + (if |completed| == 1 then "" else "s")
  }

  /** What `generateWinText(instances:)` may return for the completed instances. */
  ghost predicate IsWinText(completed: seq<ActionInstance>, allActions: seq<ActionTemplate>, text: string) {
    if |completed| == 0 then text == "No completed actions this week"
    else exists tid :: IsMode(TemplateIds(completed), tid) && text == WinTextFor(completed, allActions, tid)
  }

  /** `generateWinText(instances:)` */
  method GenerateWinText(completed: seq<ActionInstance>, allActions: seq<ActionTemplate>) returns (text: string)
    ensures IsWinText(completed, allActions, text)
  {
    if |completed| == 0 {
      return "No completed actions this week";
    }
    // Count successful completions by template, then take the most successful one
    var tid := MostCommon(TemplateIds(completed), "");
    text := WinTextFor(completed, allActions, tid);
  }

  /** A week spent on one known template reports its title and count. */
  lemma WinTextOfOneTemplate(completed: seq<ActionInstance>, allActions: seq<ActionTemplate>, t: ActionTemplate, text: string)
    requires |completed| > 1
    requires forall k :: 0 <= k < |completed| ==> completed[k].templateId == t.id
    requires FindTemplate(allActions, t.id) == Some(t)
    requires IsWinText(completed, allActions, text)
    ensures text == "Completed '" + t.title + "' " + IntToString(|completed|) + " times"
  {
    var ids := TemplateIds(completed);
    var tid :| IsMode(ids, tid) && text == WinTextFor(completed, allActions, tid);
    ModeOfUniform(ids, t.id, tid);
    OccurrencesOfUniform(ids, t.id);
  }

  lemma {:induction false} OccurrencesOfUniform(s: seq<string>, v: string)
    requires forall k :: 0 <= k < |s| ==> s[k] == v
    ensures Occurrences(s, v) == |s|
    decreases |s|
  {
    if s != [] {
      OccurrencesOfUniform(s[..|s| - 1], v);
    }
  }

  /** Some instance was felt "hard". */
  predicate AnyHard(xs: seq<ActionInstance>) {
    exists k :: 0 <= k < |xs| && IsHard(xs[k])
  }

  /** Some instance's note holds a stress keyword. */
  predicate AnyStressNote(xs: seq<ActionInstance>) {
    exists k :: 0 <= k < |xs| && HasStressNote(xs[k])
  }

  /** `generateHardText(instances:frictionIndex:)`: the first that applies of high friction,
      a "hard" feeling, a stress note, or none of these. */
  function HardText(xs: seq<ActionInstance>, frictionIndex: real): (text: string)
    ensures text == "Several activities felt challenging this week" <==> frictionIndex > 0.4
    ensures text == "Some activities felt difficult" <==> frictionIndex <= 0.4 && AnyHard(xs)
    ensures text == "Noticed some stress during activities" <==> frictionIndex <= 0.4 && !AnyHard(xs) && AnyStressNote(xs)
    ensures text == "Activities felt manageable overall" <==> frictionIndex <= 0.4 && !AnyHard(xs) && !AnyStressNote(xs)
  {
    if frictionIndex > 0.4 then "Several activities felt challenging this week"
    else if AnyHard(xs) then "Some activities felt difficult"
    else if AnyStressNote(xs) then "Noticed some stress during activities"
    else "Activities felt manageable overall"
  }

  /** A week without friction points reads "manageable" whenever friction is not high. */
  lemma NoFrictionIsManageable(xs: seq<ActionInstance>, frictionIndex: real)
    requires frictionIndex <= 0.4
    requires FrictionCount(xs) == 0
    ensures HardText(xs, frictionIndex) == "Activities felt manageable overall"
  {
    forall k | 0 <= k < |xs| ensures !IsHard(xs[k]) && !HasStressNote(xs[k]) {
      FrictionPointsBounded(xs, k);
    }
  }

  /** Each instance's points are part of the count. */
  lemma {:induction false} FrictionPointsBounded(xs: seq<ActionInstance>, k: nat)
    requires k < |xs|
    ensures FrictionPoints(xs[k]) <= FrictionCount(xs)
    decreases |xs|
  {
    if k < |xs| - 1 {
      assert xs[..|xs| - 1][k] == xs[k];
      FrictionPointsBounded(xs[..|xs| - 1], k);
    }
  }

  /** Swift's `Int(x)`: truncation toward zero. */
  function Truncate(x: real): (i: int)
    ensures 0.0 <= x ==> 0 <= i && i as real <= x < i as real + 1.0
    ensures x < 0.0 ==> i <= 0 && i as real - 1.0 < x <= i as real
  {
    if x >= 0.0 then x.Floor else -((-x).Floor)
  }

  /** `Int(completionRate * 100)` */
  function Percent(completionRate: real): (p: int)
    ensures 0.0 <= completionRate <= 1.0 ==> 0 <= p <= 100
  {
    Truncate(completionRate * 100.0)
  }

  const ScaleUpLead: string := "You're doing great! With "
  const ScaleUpTail: string := "% completion and low friction, you're ready for slightly more challenging activities."
  const ScaleDownLead: string := "With "
  const ScaleDownTail: string := "% completion, let's make activities smaller and more manageable."
  const HighFrictionRationale: string := "The high friction suggests we should simplify activities to reduce stress."
  const KeepLead: string := "Your current pace seems right - "
  const KeepTail: string := "% completion with manageable difficulty."

  /** The pieces of the rationale around the quoted percentage `pct`. */
  function RationalePieces(pct: string, completionRate: real, tweak: TweakDecision): seq<string> {
    match tweak
    case ScaleUp => [ScaleUpLead, pct, ScaleUpTail]
    case ScaleDown =>
      if completionRate <= 0.3 then [ScaleDownLead, pct, ScaleDownTail]
      else [HighFrictionRationale]
    case Keep => [KeepLead, pct, KeepTail]
  }

  /** `generateRationale(completionRate:frictionIndex:suggestedTweak:)`: every rationale
      quotes the completion percentage, except the one for scaling down because of friction
      alone. The friction index only matters through the tweak. */
  function Rationale(completionRate: real, frictionIndex: real, tweak: TweakDecision): (r: string)
    ensures !(tweak == ScaleDown && completionRate > 0.3) ==> Contains(r, IntToString(Percent(completionRate)))
    ensures tweak == ScaleDown && completionRate > 0.3 ==> r == HighFrictionRationale
  {
    var pct := IntToString(Percent(completionRate));
    if tweak == ScaleDown && completionRate > 0.3 then
      JoinOne(HighFrictionRationale);
      Join(RationalePieces(pct, completionRate, tweak))
    else
      PiecesQuote(pct, completionRate, tweak);
      Join(RationalePieces(pct, completionRate, tweak))
  }

  lemma PiecesQuote(pct: string, completionRate: real, tweak: TweakDecision)
    requires !(tweak == ScaleDown && completionRate > 0.3)
    ensures Contains(Join(RationalePieces(pct, completionRate, tweak)), pct)
  {
    var pieces := RationalePieces(pct, completionRate, tweak);
    assert |pieces| == 3 && pieces[1] == pct;
    JoinContains(pieces, 1);
  }

  // ---------------------------------------------------------------------------
  // Analysis

  datatype WeeklyAnalysis = WeeklyAnalysis(
    focusId: string,
    weekStart: Timestamp,
    completionRate: real,
    frictionIndex: real,
    winText: string,
    hardText: string,
    suggestedTweak: TweakDecision,
    rationale: string)

  /** The instances of the week starting at `weekStart`: both ends of the seven days count. */
  function WeekInstances(h: History, focusId: string, weekStart: Timestamp): seq<ActionInstance> {
    InstancesIn(h.instances, weekStart, weekStart + 7 * SecondsPerDay, Some(focusId))
  }

  /** What `analyzeWeek(for:weekStart:)` returns. The friction index is the signals engine's
      over the last seven days before `now`, not over the analysed week. */
  ghost predicate IsWeeklyAnalysis(a: WeeklyAnalysis, h: History, focusId: string, weekStart: Timestamp, now: Timestamp) {
    var xs := WeekInstances(h, focusId, weekStart);
    var rate := CompletionRate(xs);
    var fi := FrictionIndex(Window(h, Some(focusId), now, 7));
    && a.focusId == focusId
    && a.weekStart == weekStart
    && a.completionRate == rate
    && a.frictionIndex == fi
    && IsWinText(Completed(xs), h.templates, a.winText)
    && a.hardText == HardText(xs, fi)
    && a.suggestedTweak == DetermineSuggestedTweak(rate, fi)
    && a.rationale == Rationale(rate, fi, a.suggestedTweak)
  }

  /** `analyzeWeek(for:weekStart:)` */
  method AnalyzeWeek(h: History, focusId: string, weekStart: Timestamp, now: Timestamp) returns (a: WeeklyAnalysis)
    ensures IsWeeklyAnalysis(a, h, focusId, weekStart, now)
  {
    var instances := WeekInstances(h, focusId, weekStart);
    var completedInstances := Completed(instances);
    var completionRate := if |instances| > 0 then |completedInstances| as real / |instances| as real else 0.0;
    var frictionIndex := ComputeFrictionIndex(h, focusId, now, 7);
    var winText := GenerateWinText(completedInstances, h.templates);
    var hardText := HardText(instances, frictionIndex);
    var suggestedTweak := DetermineSuggestedTweak(completionRate, frictionIndex);
    var rationale := Rationale(completionRate, frictionIndex, suggestedTweak);
    a := WeeklyAnalysis(focusId, weekStart, completionRate, frictionIndex, winText, hardText, suggestedTweak, rationale);
  }

  /** The pieces of one analysis agree: high friction both scales down and says so, and a
      scale-up never comes with the "challenging" text. */
  lemma AnalysisIsConsistent(a: WeeklyAnalysis, h: History, focusId: string, weekStart: Timestamp, now: Timestamp)
    requires IsWeeklyAnalysis(a, h, focusId, weekStart, now)
    ensures a.frictionIndex > 0.4 ==> a.suggestedTweak == ScaleDown && a.hardText == "Several activities felt challenging this week"
    ensures a.suggestedTweak == ScaleUp ==> a.hardText != "Several activities felt challenging this week"
    ensures 0.0 <= a.completionRate <= 1.0 && 0.0 <= a.frictionIndex <= 2.0
  {
  }

  /** `applyTweak(_:for:)`: analyses the current week and saves its summary, keyed
      "<focusId>-<week start in whole seconds>", with the tweak's raw value. `weekStartOf`
      stands for the calendar's start of the week containing a moment. */
  method ApplyTweak(store: FocusStore, tweak: TweakDecision, focusId: string, now: Timestamp, weekStartOf: Timestamp -> Timestamp)
    returns (summary: WeeklySummary)
    requires store.Valid()
    modifies store
    ensures store.Valid()
    ensures summary.id == focusId + "-" + IntToString(weekStartOf(now))
    ensures summary.weekStart == weekStartOf(now) && summary.focusId == focusId
    ensures summary.suggestedTweak == tweak.RawValue()
    ensures exists a :: IsWeeklyAnalysis(a, old(store.Snapshot()), focusId, weekStartOf(now), now)
                        && summary.winText == a.winText && summary.hardText == a.hardText
    ensures store.summaries == old(store.summaries)[summary.id := summary]
    ensures store.templates == old(store.templates) && store.instances == old(store.instances)
    ensures store.focuses == old(store.focuses)
  {
    var weekStart := weekStartOf(now);
    var analysis := AnalyzeWeek(store.Snapshot(), focusId, weekStart, now);
    summary := WeeklySummary(focusId + "-" + IntToString(weekStart), weekStart, focusId,
                             analysis.winText, analysis.hardText, tweak.RawValue());
    store.SaveSummary(summary);
  }
}
