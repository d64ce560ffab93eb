/** Ranks a focus area's action templates against the behavioural signals and packages the
    best ones as one suggestion (Elaro/RecommenderEngine.swift). */
module RecommenderEngine {
  import opened Wrappers
  import opened Text
  import opened Models
  import opened Store
  import opened Sorting
  import opened Counting
  import opened SignalsEngine
  import opened ExplainWhyBuilder

  /** A suggestion: 1-3 templates, the duration picked for each (by position), and the
      explanation sentence. Swift's random `id` is not modelled. */
  datatype RankedSuggestion = RankedSuggestion(
    headline: string,
    actions: seq<ActionTemplate>,
    chosenVariants: map<int, int>,
    whySummary: string)

  /** The signal values `rank` works with, after its defaults and clamps. */
  datatype Signals = Signals(
    successRates: map<string, real>,
    preferredDuration: int,
    heat: real,
    noveltyOK: bool,
    friction: real,
    pins: seq<string>)

  const SupportedDurations: seq<int> := [5, 10, 20]

  /** `[5,10,20].contains(first) ? second : 5`: the source calls the bandwidth computation
      once for the test and, when the test passes, once more for the value it keeps. The two
      calls agree unless the most common duration is tied. */
  function CheckedPreference(first: int, second: int): (d: int)
    ensures first in SupportedDurations ==> d == second
    ensures first !in SupportedDurations ==> d == 5
    ensures first == second ==> d in SupportedDurations && (first in SupportedDurations ==> d == first)
    ensures d in SupportedDurations <==> first !in SupportedDurations || second in SupportedDurations
  {
    if first in SupportedDurations then second else 5
  }

  /** `max(0, min(1, x))` */
  function Clamp01(x: real): (r: real)
    ensures 0.0 <= r <= 1.0
    ensures 0.0 <= x <= 1.0 ==> r == x
    ensures x < 0.0 ==> r == 0.0
    ensures x > 1.0 ==> r == 1.0
  {
    if x < 0.0 then 0.0 else if x > 1.0 then 1.0 else x
  }

  /** `heatmap[hour] ?? 0.5` */
  function HeatAt(heatmap: map<int, real>, hour: int): real {
    if hour in heatmap then heatmap[hour] else 0.5
  }

  /** `store.focus(by: focusId)?.pinnedMicroSkillTitles ?? []` */
  function PinsOf(focuses: map<string, FocusArea>, focusId: string): seq<string> {
    match FocusById(focuses, focusId)
    case None => []
    case Some(f) => f.pinnedMicroSkillTitles
  }

  /** What `rank` reads from the signals engine and the store, at clock time `now`, for the
      hour of the day being ranked. Each of the two bandwidth calls may return any most
      common duration (ties are left to the order of a fresh dictionary), so they are two
      values that need not agree. */
  ghost predicate IsSignalsFor(sig: Signals, h: History, focusId: string, now: Timestamp, hour: int, hourOf: Timestamp -> Hour) {
    && sig.successRates == SuccessRateByTag(Window(h, Some(focusId), now, SuccessRateDays), ActionsFor(h.templates, focusId))
    && IsPreferenceFor(sig.preferredDuration, Window(h, Some(focusId), now, BandwidthDays))
    && sig.heat == HeatAt(TimeOfDayHeatmap(Window(h, None, now, HeatmapDays), hourOf), hour)
    && sig.noveltyOK == (NoveltyTolerance(h, focusId, now, NoveltyDays).Name() in ["med", "high"])
    && sig.friction == Clamp01(FrictionIndex(Window(h, Some(focusId), now, FrictionDays)))
    && sig.pins == PinsOf(h.focuses, focusId)
  }

  /** The preference `rank` computes from two bandwidth calls over the window `xs`. */
  ghost predicate IsPreferenceFor(pref: int, xs: seq<ActionInstance>) {
    exists first, second :: IsBandwidthPreference(xs, first) && IsBandwidthPreference(xs, second)
                            && pref == CheckedPreference(first, second)
  }

  /** Two values the bandwidth computation may return give a preference of the window. */
  lemma PreferenceOfCalls(xs: seq<ActionInstance>, first: int, second: int)
    requires IsBandwidthPreference(xs, first) && IsBandwidthPreference(xs, second)
    ensures IsPreferenceFor(CheckedPreference(first, second), xs)
  {
  }

  /** The preference is 5 or a value the bandwidth computation may return; when every value
      it may return is 5, 10 or 20, so is the preference. */
  lemma PreferenceIsFallbackOrMode(pref: int, xs: seq<ActionInstance>)
    requires IsPreferenceFor(pref, xs)
    ensures pref == 5 || IsBandwidthPreference(xs, pref)
    ensures (forall d :: IsBandwidthPreference(xs, d) ==> d in SupportedDurations) ==> pref in SupportedDurations
  {
    var first, second :| IsBandwidthPreference(xs, first) && IsBandwidthPreference(xs, second)
                         && pref == CheckedPreference(first, second);
  }

  /** With a single most common duration both calls return it, and the preference is that
      duration when it is 5, 10 or 20, else 5. */
  lemma PreferenceOfUniqueMode(pref: int, xs: seq<ActionInstance>, d: int)
    requires IsPreferenceFor(pref, xs)
    requires forall e :: IsBandwidthPreference(xs, e) ==> e == d
    ensures pref in SupportedDurations
    ensures d in SupportedDurations ==> pref == d
    ensures d !in SupportedDurations ==> pref == 5
  {
    var first, second :| IsBandwidthPreference(xs, first) && IsBandwidthPreference(xs, second)
                         && pref == CheckedPreference(first, second);
    assert first == d && second == d;
  }

  /** The two calls can disagree: one completion of 7 minutes and one of 10 make both a most
      common duration, and a first call returning 10 followed by a second returning 7 gives
      7, a preference outside 5, 10 and 20. */
  lemma TiedModeCanLeaveSupportedDurations()
    ensures var a := ActionInstance("a", 1, "f", "t", 7, "done", None, None, None);
      var b := ActionInstance("b", 2, "f", "t", 10, "done", None, None, None);
      && IsPreferenceFor(7, [a, b])
      && 7 !in SupportedDurations
  {
    var a := ActionInstance("a", 1, "f", "t", 7, "done", None, None, None);
    var b := ActionInstance("b", 2, "f", "t", 10, "done", None, None, None);
    var xs := [a, b];
    assert xs[1..] == [b] && [b][1..] == [];
    assert Completed([b]) == [b];
    assert Completed(xs) == xs;
    var ds := Durations(xs);
    assert ds == [7, 10];
    assert ds[..1] == [7] && [7][..0] == [];
    assert Occurrences(ds, 7) == 1 && Occurrences(ds, 10) == 1;
    assert IsBandwidthPreference(xs, 10) && IsBandwidthPreference(xs, 7);
    assert CheckedPreference(10, 7) == 7;
  }

  /** Rates, heat and friction all lie in [0,1]. */
  ghost predicate ValidSignals(sig: Signals) {
    && (forall tag :: tag in sig.successRates ==> 0.0 <= sig.successRates[tag] <= 1.0)
    && 0.0 <= sig.heat <= 1.0
    && 0.0 <= sig.friction <= 1.0
  }

  lemma SignalsAreValid(sig: Signals, h: History, focusId: string, now: Timestamp, hour: int, hourOf: Timestamp -> Hour)
    requires IsSignalsFor(sig, h, focusId, now, hour, hourOf)
    ensures ValidSignals(sig)
    ensures var xs := Window(h, Some(focusId), now, BandwidthDays);
      && (sig.preferredDuration == 5 || IsBandwidthPreference(xs, sig.preferredDuration))
      && ((forall d :: IsBandwidthPreference(xs, d) ==> d in SupportedDurations) ==> sig.preferredDuration in SupportedDurations)
  {
    SuccessRatesInUnit(Window(h, Some(focusId), now, SuccessRateDays), ActionsFor(h.templates, focusId));
    PreferenceIsFallbackOrMode(sig.preferredDuration, Window(h, Some(focusId), now, BandwidthDays));
  }

  // ---------------------------------------------------------------------------
  // Scoring

  /** Some pinned micro-skill, lower-cased, occurs in the lower-cased title. */
  predicate PinMatches(title: string, pins: seq<string>) {
    exists k :: 0 <= k < |pins| && Contains(Lower(title), Lower(pins[k]))
  }

  /** `scoreFocusMatch(template:pinned:)`: 1.0 when a pin occurs in the title, else 0.6
      (also with no pins at all). */
  function ScoreFocusMatch(t: ActionTemplate, pins: seq<string>): (r: real)
    ensures r == 1.0 <==> PinMatches(t.title, pins)
    ensures r == 0.6 <==> !PinMatches(t.title, pins)
  {
    if |pins| == 0 then 0.6
    else if PinMatches(t.title, pins) then 1.0
    else 0.6
  }

  /** A pin naming the title, in any letter case, always matches. */
  lemma PinnedTitleMatches(t: ActionTemplate, pins: seq<string>, k: nat)
    requires k < |pins| && Lower(pins[k]) == Lower(t.title)
    ensures ScoreFocusMatch(t, pins) == 1.0
  {
    assert OccursAt(Lower(t.title), Lower(pins[k]), 0);
  }

  /** Matching ignores the letter case of the title. */
  lemma FocusMatchIgnoresCase(t: ActionTemplate, title: string, pins: seq<string>)
    requires Lower(title) == Lower(t.title)
    ensures ScoreFocusMatch(t.(title := title), pins) == ScoreFocusMatch(t, pins)
  {
  }

  /** `srByTag[tag] ?? 0.5` */
  function RateOf(rates: map<string, real>, tag: string): real {
    if tag in rates then rates[tag] else 0.5
  }

  /** The sum of the tags' rates, a missing tag counting 0.5. */
  function SumRates(tags: seq<string>, rates: map<string, real>): (r: real)
    ensures (forall tag :: tag in rates ==> 0.0 <= rates[tag] <= 1.0) ==> 0.0 <= r <= |tags| as real
    decreases |tags|
  {
    if tags == [] then 0.0 else SumRates(tags[..|tags| - 1], rates) + RateOf(rates, tags[|tags| - 1])
  }

  /** The mean rate of the template's tags; a template without tags gets 0, since the
      empty sum is divided by `max(1, 0)`. */
  function SuccessProbability(tags: seq<string>, rates: map<string, real>): (r: real)
    ensures (forall tag :: tag in rates ==> 0.0 <= rates[tag] <= 1.0) ==> 0.0 <= r <= 1.0
    ensures |tags| == 0 ==> r == 0.0
    ensures r * (if |tags| == 0 then 1 else |tags|) as real == SumRates(tags, rates)
  {
    Mean(SumRates(tags, rates), if |tags| == 0 then 1 else |tags|)
  }

  /** The template offers a variant of the preferred length. */
  predicate OffersDuration(t: ActionTemplate, d: int) {
    exists k :: 0 <= k < |t.variants| && t.variants[k].durationMinutes == d
  }

  /** 1.0 for a template offering the preferred duration, 0.5 otherwise. */
  function BandwidthFit(t: ActionTemplate, pref: int): (r: real)
    ensures r == 1.0 <==> OffersDuration(t, pref)
    ensures r == 0.5 <==> !OffersDuration(t, pref)
  {
    if OffersDuration(t, pref) then 1.0 else 0.5
  }

  /** The weighted score of one template. */
  function Score(t: ActionTemplate, sig: Signals): (s: real)
    ensures ValidSignals(sig) ==> 0.285 <= s <= 0.92
  {
    var succ := SuccessProbability(t.tags, sig.successRates);
    assert ValidSignals(sig) ==> 0.0 <= succ <= 1.0;
    0.35 * ScoreFocusMatch(t, sig.pins)
    + 0.20 * SuccessProbability(t.tags, sig.successRates)
    + 0.15 * BandwidthFit(t, sig.preferredDuration)
    + 0.10 * sig.heat
    + 0.10 * (if sig.noveltyOK then 0.2 else 0.0)
    + 0.10 * 1.0
    - 0.10 * sig.friction
  }

  /** A matching pin adds exactly 0.14 to the score. */
  lemma PinMatchBonus(t: ActionTemplate, sig: Signals)
    ensures Score(t, sig) == Score(t, sig.(pins := [])) + (if PinMatches(t.title, sig.pins) then 0.14 else 0.0)
  {
  }

  /** Offering the preferred duration adds exactly 0.075 over the same template without
      variants. */
  lemma OfferedDurationBonus(t: ActionTemplate, sig: Signals)
    ensures Score(t, sig) == Score(t.(variants := []), sig) + (if OffersDuration(t, sig.preferredDuration) then 0.075 else 0.0)
  {
    assert BandwidthFit(t.(variants := []), sig.preferredDuration) == 0.5;
  }

  /** Contraindications play no part in the score. */
  lemma ScoreIgnoresContraindications(t: ActionTemplate, sig: Signals, c: seq<string>)
    ensures Score(t.(contraindications := c), sig) == Score(t, sig)
  {
  }

  // ---------------------------------------------------------------------------
  // Choosing

  function ScoreKey(sig: Signals): ActionTemplate -> real {
    t => Score(t, sig)
  }

  /** `Array(s.prefix(k))` */
  function Prefix<T>(s: seq<T>, k: nat): (r: seq<T>)
    ensures |r| == Min(k, |s|) && r == s[..|r|]
  {
    s[..Min(k, |s|)]
  }

  function MaxInt(a: int, b: int): int {
    if a >= b then a else b
  }

  /** The templates sorted by score, largest first, and the first `max(2, min(3, n))` of
      them; with only one candidate, that is the one. */
  function ChosenActions(candidates: seq<ActionTemplate>, sig: Signals): (r: seq<ActionTemplate>)
    ensures |r| == Min(3, |candidates|)
    ensures TopByKey(r, candidates, ScoreKey(sig))
    ensures SortedDesc(r, ScoreKey(sig))
  {
    var scored := SortDesc(candidates, ScoreKey(sig));
    SortedPrefixIsTop(candidates, ScoreKey(sig), Min(3, |candidates|));
    if |scored| == 0 then Prefix(candidates, 2)
    else Prefix(scored, MaxInt(2, Min(3, |scored|)))
  }

  /** An offered duration equal to the preference wins, otherwise the first variant's,
      otherwise 5 minutes. */
  function ChosenDuration(t: ActionTemplate, pref: int): (d: int)
    ensures OffersDuration(t, pref) ==> d == pref
    ensures |t.variants| > 0 ==> OffersDuration(t, d)
    ensures |t.variants| > 0 && !OffersDuration(t, pref) ==> d == t.variants[0].durationMinutes
    ensures |t.variants| == 0 ==> d == 5
  {
    if OffersDuration(t, pref) then pref
    else if |t.variants| > 0 then t.variants[0].durationMinutes
    else 5
  }

  /** The loop over `chosen.enumerated()` filling `chosenVariants`. */
  method ChooseVariants(chosen: seq<ActionTemplate>, pref: int) returns (chosenVariants: map<int, int>)
    ensures forall i :: i in chosenVariants <==> 0 <= i < |chosen|
    ensures forall i :: 0 <= i < |chosen| ==> chosenVariants[i] == ChosenDuration(chosen[i], pref)
  {
    chosenVariants := map[];
    var i := 0;
    while i < |chosen|
      invariant 0 <= i <= |chosen|
      invariant forall j :: j in chosenVariants <==> 0 <= j < i
      invariant forall j :: 0 <= j < i ==> chosenVariants[j] == ChosenDuration(chosen[j], pref)
    {
      var tpl := chosen[i];
      var durations := seq(|tpl.variants|, k requires 0 <= k < |tpl.variants| => tpl.variants[k].durationMinutes);
      assert pref in durations <==> OffersDuration(tpl, pref) by {
        if pref in durations {
          var k :| 0 <= k < |durations| && durations[k] == pref;
          assert tpl.variants[k].durationMinutes == pref;
        }
        if OffersDuration(tpl, pref) {
          var k :| 0 <= k < |tpl.variants| && tpl.variants[k].durationMinutes == pref;
          assert durations[k] == pref;
        }
      }
      chosenVariants := chosenVariants[i := if pref in durations then pref else if |durations| > 0 then durations[0] else 5];
      i := i + 1;
    }
  }

  /** The values of `chosenVariants`, by position. */
  function VariantValues(s: RankedSuggestion): seq<int>
    requires forall i :: 0 <= i < |s.actions| ==> i in s.chosenVariants
  {
    seq(|s.actions|, i requires 0 <= i < |s.actions| => s.chosenVariants[i])
  }

  function Headline(focusId: string): (h: string)
    ensures |h| > 0
  {
    if focusId == "independence" then "You pick the plan; I\U{2019}m backup"
    else if focusId == "emotion_skills" then "Name your feeling, invite theirs"
    else "Try this today\U{2026}"
  }

  /** The two built-in focus areas have headlines of their own, distinct from the fallback. */
  lemma HeadlinesDistinct(other: string)
    requires other != "independence" && other != "emotion_skills"
    ensures Headline("independence") != Headline("emotion_skills")
    ensures Headline("independence") != Headline(other) && Headline("emotion_skills") != Headline(other)
  {
    assert Headline("independence")[0] == 'Y';
    assert Headline("emotion_skills")[0] == 'N';
    assert Headline(other)[0] == 'T';
  }

  /** A suggestion `rank` may return for the candidates under the given signals. */
  ghost predicate IsSuggestionFor(s: RankedSuggestion, focusId: string, candidates: seq<ActionTemplate>, sig: Signals, hour: int) {
    && s.headline == Headline(focusId)
    && |s.actions| == Min(3, |candidates|)
    && TopByKey(s.actions, candidates, ScoreKey(sig))
    && SortedDesc(s.actions, ScoreKey(sig))
    && (forall i :: i in s.chosenVariants <==> 0 <= i < |s.actions|)
    && (forall i :: 0 <= i < |s.actions| ==> s.chosenVariants[i] == ChosenDuration(s.actions[i], sig.preferredDuration))
    && exists d :: IsMostCommon(VariantValues(s), sig.preferredDuration, d)
                   && s.whySummary == Build(focusId, d, hour, sig.friction)
  }

  /** The signal half of `rank`: the calls into the signals engine and the store. */
  method GatherSignals(h: History, focusId: string, now: Timestamp, hour: int, hourOf: Timestamp -> Hour)
    returns (sig: Signals)
    ensures IsSignalsFor(sig, h, focusId, now, hour, hourOf)
  {
    var srByTag := ComputeSuccessRateByTag(h, focusId, now, SuccessRateDays);
    var first := ComputeBandwidthPreference(h, focusId, now, BandwidthDays);
    var second := first;
    if first in SupportedDurations {
      second := ComputeBandwidthPreference(h, focusId, now, BandwidthDays);
    }
    var pref := if first in SupportedDurations then second else 5;
    PreferenceOfCalls(Window(h, Some(focusId), now, BandwidthDays), first, second);
    var heatmap := ComputeTimeOfDayHeatmap(h, now, HeatmapDays, hourOf);
    var heat := HeatAt(heatmap, hour);
    var novOK := NoveltyTolerance(h, focusId, now, NoveltyDays).Name() in ["med", "high"];
    var fi := ComputeFrictionIndex(h, focusId, now, FrictionDays);
    var friction := Clamp01(fi);
    var pins := PinsOf(h.focuses, focusId);
    sig := Signals(srByTag, pref, heat, novOK, friction, pins);
  }

  /** The choosing half of `rank`: the top templates, their durations and the sentence. */
  method Suggest(candidates: seq<ActionTemplate>, focusId: string, sig: Signals, hour: int)
    returns (s: RankedSuggestion)
    ensures IsSuggestionFor(s, focusId, candidates, sig, hour)
  {
    var chosen := ChosenActions(candidates, sig);
    var chosenVariants := ChooseVariants(chosen, sig.preferredDuration);
    var values := seq(|chosen|, i requires 0 <= i < |chosen| => chosenVariants[i]);
    var mc := MostCommon(values, sig.preferredDuration);
    var why := Build(focusId, mc, hour, sig.friction);
    s := RankedSuggestion(Headline(focusId), chosen, chosenVariants, why);
    assert VariantValues(s) == values;
  }

  /** `rank(for:day:)`: no suggestion for a focus without templates, otherwise exactly
      one, built from the signals at clock time `now` and the hour of `day`. */
  method Rank(h: History, focusId: string, now: Timestamp, day: Timestamp, hourOf: Timestamp -> Hour)
    returns (r: seq<RankedSuggestion>)
    ensures var candidates := ActionsFor(h.templates, focusId);
      && (r == [] <==> |candidates| == 0)
      && (|candidates| > 0 ==> |r| == 1 && 1 <= |r[0].actions| <= 3)
      && (|candidates| > 0 ==> exists sig :: IsSignalsFor(sig, h, focusId, now, hourOf(day), hourOf)
                                          && IsSuggestionFor(r[0], focusId, candidates, sig, hourOf(day)))
  {
    var candidates := ActionsFor(h.templates, focusId);
    if |candidates| == 0 {
      return [];
    }
    var hour := hourOf(day);
    var sig := GatherSignals(h, focusId, now, hour, hourOf);
    var suggestion := Suggest(candidates, focusId, sig, hour);
    r := [suggestion];
  }

  /** When every chosen template offers the preferred duration, the explanation names it. */
  lemma WhyNamesOfferedPreference(s: RankedSuggestion, focusId: string, candidates: seq<ActionTemplate>, sig: Signals, hour: int)
    requires |candidates| > 0
    requires IsSuggestionFor(s, focusId, candidates, sig, hour)
    requires forall k :: 0 <= k < |s.actions| ==> OffersDuration(s.actions[k], sig.preferredDuration)
    ensures s.whySummary == Build(focusId, sig.preferredDuration, hour, sig.friction)
  {
    var d :| IsMostCommon(VariantValues(s), sig.preferredDuration, d)
             && s.whySummary == Build(focusId, d, hour, sig.friction);
    OfferedValuesUniform(s, sig.preferredDuration);
    ModeOfUniform(VariantValues(s), sig.preferredDuration, d);
  }

  /** Templates that all offer `pref` all get `pref` chosen. */
  lemma OfferedValuesUniform(s: RankedSuggestion, pref: int)
    requires forall i :: i in s.chosenVariants <==> 0 <= i < |s.actions|
    requires forall i :: 0 <= i < |s.actions| ==> s.chosenVariants[i] == ChosenDuration(s.actions[i], pref)
    requires forall k :: 0 <= k < |s.actions| ==> OffersDuration(s.actions[k], pref)
    ensures forall k :: 0 <= k < |VariantValues(s)| ==> VariantValues(s)[k] == pref
  {
  }
}
