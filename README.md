# Elaro engine and screens, modelled in Dafny

Elaro is an iOS app for caregivers. Each day it recommends a few small behavioural
"actions" for one focus area, such as independence or emotion skills. Once a week it
suggests keeping, scaling down or scaling up the difficulty of those actions. This project
models the decision core of the app and proves properties of that model:

- the **signals engine**: success rate per tag, a time-of-day heatmap, the preferred
  duration, novelty tolerance, a friction index, streak momentum, recent performance and
  peak hours;
- the **recommender**: `rank`, its weighted score, the top three templates, the durations
  it picks and the "why" sentence built by the **explain-why builder**;
- the **weekly adjuster**: the week's analysis, its win, hard and rationale texts, the
  tweak decision, and the weekly summary it persists;
- the **focus planner**: building blocks, pinned micro-skills, and block suggestions from
  tag frequencies;
- the **seed importer**: upserting catalog templates by content version, the default
  focus areas, and the run-once gate;
- the **progress overview** and **weekly summary** screens: the share of the child's
  milestones at each stage for a week;
- the toggles of the **focus-mode tile grid** and the **flow-chips grid**.

Each engine reads an immutable `Store.History`: the template list, the instance list and
the focus areas, as the store's fetches return them. Writes go through the
`Store.FocusStore` class, whose `templates`, `instances`, `focuses` and `summaries` fields
its methods update. `now` and the hour-of-day function are parameters; the source reads
them from the clock and the calendar. Timestamps are whole seconds. A day is 86400
seconds. A window of `days` ends at `now` and includes both of its ends, as
`FocusStore.swift:44` does.

Code built from loops is modelled as methods proved against specification functions:
- `ComputeSuccessRateByTag`, `ComputeTimeOfDayHeatmap`, `ComputeFrictionIndex`;
- `Counting.Frequencies` and `Counting.MostCommon`;
- `CountTags`, `SeedContext.Run`.

Code that is a computed property or a single expression is modelled as a function.

Where the source takes the maximum of a Swift dictionary, or sorts without a stable order,
it does not fix which tied entry wins. The model therefore states only the extremal
property (`Counting.IsMostCommon`, `Sorting.TopByKey`, `FocusPlanner.IsTopTags`) and proves
the methods against it.

Behaviour of the code that the model keeps, where it is easy to misread:
- The friction index counts a "hard" mark and a stress note separately, so one instance can
  add 2 (`SignalsEngine.swift:146-160`; the `break` there stops only the keyword loop).
  The index therefore lies in [0, 2]; `FrictionCanReachTwo` exhibits 2.0 for a single
  instance. `rank` clamps the index to [0, 1]; the weekly adjuster uses it unclamped.
- The weekly adjuster's window includes both ends, [weekStart, weekStart + 7 days], because
  the store's query compares with `>=` and `<=` (`FocusStore.swift:44`). The two screens
  use half-open weeks instead, `weekOf >= start && weekOf < end`
  (`ProgressOverviewScreen.swift:68`, `WeeklySummaryScreen.swift:65`).
- `rank` returns min(3, number of candidates) actions, so one action for a focus with a
  single template (`RecommenderEngine.swift:51-52`). The comment at
  `RecommenderEngine.swift:50` says the fallback ensures at least two actions; the `max(2, …)`
  cannot exceed the number of scored templates, so it does not.
- A template without tags gets a success probability of 0: the sum of no rates, divided by
  max(1, 0) (`RecommenderEngine.swift:42`). Only a tag without a recorded rate counts 0.5.
- Contraindications play no part in `rank` (`RecommenderEngine.swift:40-46`);
  `ScoreIgnoresContraindications` states this.
- `rank` calls the bandwidth computation twice (`RecommenderEngine.swift:31-32`): once for
  the test against 5, 10 and 20, and once more for the value it keeps. Each call counts
  durations in a fresh dictionary and takes a maximal entry in that dictionary's order
  (`SignalsEngine.swift:94-101`), so under a tied most common duration the two calls may
  return different durations. The model gives each call its own value
  (`RecommenderEngine.IsPreferenceFor`); `TiedModeCanLeaveSupportedDurations` exhibits a
  preference of 7 minutes, and `PreferenceOfUniqueMode` shows that without a tie the
  preference is the duration when it is 5, 10 or 20, and 5 otherwise.
- Ties in the preferred duration, the top templates, the top tags and the peak hours are not
  broken by any fixed rule (lower hour, lowest key, stable order). They are left as the
  dictionary or the sort leaves them.

## Model

| member | source | states |
|---|---|---|
| Store.ActionsForMembers | Elaro/FocusStore.swift:14-25 | a template is among the focus's actions exactly when it is in the store with that focus id |
| Store.InstancesInMembers | Elaro/FocusStore.swift:39-58 | an instance is fetched exactly when its date lies in the closed range and, when a focus id is given, it belongs to that focus |
| Store.FocusStore.SaveSummary | Elaro/FocusStore.swift:88-95 | the summary is stored under its id, replacing any summary with that id; templates, instances and focuses are unchanged |
| Store.FocusStore.UpdateBuildingBlocks | Elaro/FocusStore.swift:159-171 | an existing focus gets the new blocks and keeps its other fields; a missing focus leaves the store unchanged |
| Store.FocusStore.UpdatePinnedMicroSkills | Elaro/FocusStore.swift:174-186 | an existing focus gets the new pinned titles and keeps its other fields; a missing focus leaves the store unchanged |
| Models.FindTemplate | Elaro/SignalsEngine.swift:25 | the result is a template of the list with the wanted id, and it is absent exactly when no template has that id |
| Counting.Frequencies | Elaro/RecommenderEngine.swift:88 | the frequency map counts each value as often as it occurs, and holds no zero entry |
| Counting.MaxByValue | Elaro/RecommenderEngine.swift:89 | no key only for an empty map; otherwise a key whose count is at least every other count |
| Counting.MostCommon | Elaro/RecommenderEngine.swift:86-90 | the default for no values, otherwise a value that occurs at least as often as any other value |
| Counting.ModeOfUniform | Elaro/RecommenderEngine.swift:86-90 | the mode of a list holding one repeated value is that value |
| Sorting.SortDesc | Elaro/RecommenderEngine.swift:48 | the result is a permutation of the input, ordered by non-increasing key |
| Sorting.SortedPrefixIsTop | Elaro/RecommenderEngine.swift:51-52 | the first k of the sorted list form a sub-multiset of the input, and no element left out has a larger key than a chosen one |
| Sorting.SortedPrefixOfDistinct | Elaro/SignalsEngine.swift:186-187 | for distinct input, the first k sorted elements are distinct members of the input, ordered by key, and dominate every member left out |
| SignalsEngine.CompletedMembers | Elaro/SignalsEngine.swift:175 | the done filter keeps exactly the instances whose status is "done" |
| SignalsEngine.CompletionRate | Elaro/SignalsEngine.swift:175-179 | the rate lies in [0, 1], is 0 without instances, and times the instance count gives the number done |
| SignalsEngine.ReferencedTagsOccur | Elaro/SignalsEngine.swift:34-40 | a tag gets an entry exactly when some windowed instance's template carries it |
| SignalsEngine.DoneOccurrencesBounded | Elaro/SignalsEngine.swift:24-40 | a tag's completed count never exceeds its total count |
| SignalsEngine.SuccessRatesInUnit | Elaro/SignalsEngine.swift:43-50 | every success rate lies in [0, 1] |
| SignalsEngine.SuccessRateKeys | Elaro/SignalsEngine.swift:43-50 | the map's keys are exactly the tags of templates that windowed instances refer to |
| SignalsEngine.SuccessRateEmptyWindow | Elaro/SignalsEngine.swift:13-53 | an empty window gives the empty map |
| SignalsEngine.SuccessRateScenario | Elaro/SignalsEngine.swift:13-53 | two done instances of a template tagged "initiative" give that tag a rate of 1.0 |
| SignalsEngine.AddTags | Elaro/SignalsEngine.swift:28-30 | every tag's counter grows by the number of times the template lists it |
| SignalsEngine.CountByTag | Elaro/SignalsEngine.swift:24-40 | one pass over the instances adds each tag's occurrences, over all instances or only the done ones |
| SignalsEngine.ComputeSuccessRateByTag | Elaro/SignalsEngine.swift:13-53 | the result equals the success-rate map of the focus's window: done over total occurrences per tag |
| SignalsEngine.CountAtHour | Elaro/SignalsEngine.swift:67-70 | an hour's count never exceeds the number of completions |
| SignalsEngine.TimeOfDayHeatmap | Elaro/SignalsEngine.swift:72-79 | there is an entry for each of the hours 0 to 23, each in [0, 1], and all are 0 without completions |
| SignalsEngine.CountHours | Elaro/SignalsEngine.swift:65-70 | the loop's map gives each hour its number of completions, and missing hours count 0 |
| SignalsEngine.ComputeTimeOfDayHeatmap | Elaro/SignalsEngine.swift:57-82 | the result equals the heatmap of the window across all focuses |
| SignalsEngine.HourCountsAddUp | Elaro/SignalsEngine.swift:65-70 | the counts of the 24 hours add up to the number of completions |
| SignalsEngine.HeatmapSumsToOne | Elaro/SignalsEngine.swift:72-79 | with at least one completion, the 24 heatmap values add up to 1 |
| SignalsEngine.Durations | Elaro/SignalsEngine.swift:96-98 | the list holds each done instance's duration, in order |
| SignalsEngine.ComputeBandwidthPreference | Elaro/SignalsEngine.swift:86-103 | 10 without completions, otherwise a most frequent duration among the completions |
| SignalsEngine.BandwidthScenario | Elaro/SignalsEngine.swift:100-102 | completed durations 5, 5 and 10 give 5 |
| SignalsEngine.NoveltyTolerance | Elaro/SignalsEngine.swift:107-132 | "med" without completions; "high" exactly when distinct templates are at least 70% of completions; "low" exactly when they are below 40% |
| SignalsEngine.NoveltyRatioAtMostOne | Elaro/SignalsEngine.swift:116-123 | there are no more distinct templates than completions, so the ratio is at most 1 |
| SignalsEngine.FrictionPoints | Elaro/SignalsEngine.swift:147-160 | one instance contributes at most 2, one point for "hard" and one for a stress keyword |
| SignalsEngine.FrictionCount | Elaro/SignalsEngine.swift:146-161 | the count is at most twice the number of instances |
| SignalsEngine.FrictionIndex | Elaro/SignalsEngine.swift:163-164 | the index lies in [0, 2] and is 0 without instances |
| SignalsEngine.FrictionCanReachTwo | Elaro/SignalsEngine.swift:146-164 | a single instance marked hard whose note says "Upset" gives an index of 2.0 |
| SignalsEngine.FrictionScenario | Elaro/SignalsEngine.swift:146-164 | one hard instance, one "overwhelmed" note and two calm instances give 0.5 |
| SignalsEngine.ComputeFrictionIndex | Elaro/SignalsEngine.swift:136-165 | the loop's result equals the friction index of the focus's window |
| SignalsEngine.StreakMomentum | Elaro/SignalsEngine.swift:169-180 | the share of the window's instances that are done: in [0, 1], 0 when empty |
| SignalsEngine.RecentPerformance | Elaro/SignalsEngine.swift:192-202 | the share of the window's instances that are done: in [0, 1], 0 when empty |
| SignalsEngine.TopHours | Elaro/SignalsEngine.swift:186-187 | three distinct hours in 0 to 23, in non-increasing heat, none hotter than a chosen one left out |
| SignalsEngine.PeakHours | Elaro/SignalsEngine.swift:184-188 | the top three hours of the heatmap over all focuses |
| ExplainWhyBuilder.TimeOfDay | Elaro/ExplainWhyBuilder.swift:5 | "mornings" exactly for hours 5 to 11, "afternoons" exactly for 12 to 16, "evenings" exactly otherwise |
| ExplainWhyBuilder.FrictionPhrase | Elaro/ExplainWhyBuilder.swift:6 | "gentle options" exactly above 0.4, "a small stretch" exactly at or below it |
| ExplainWhyBuilder.FocusWord | Elaro/ExplainWhyBuilder.swift:7 | "Emotion Skills" and "Independence" exactly for their two ids, "your focus" exactly for every other id |
| ExplainWhyBuilder.Build | Elaro/ExplainWhyBuilder.swift:4-9 | the sentence contains the time of day of the hour, the preferred duration, the friction phrase and the focus word |
| ExplainWhyBuilder.OpeningWord | Elaro/ExplainWhyBuilder.swift:8 | the ninth character of the sentence is the first letter of the time of day |
| ExplainWhyBuilder.BuildSeparatesTimesOfDay | Elaro/ExplainWhyBuilder.swift:4-9 | hours in different parts of the day give different sentences |
| RecommenderEngine.CheckedPreference | Elaro/RecommenderEngine.swift:31-32 | the second call's value when the first is 5, 10 or 20, else 5; the result is 5, 10 or 20 exactly when the first is unsupported or the second supported, so always when the calls agree |
| RecommenderEngine.PreferenceOfCalls | Elaro/RecommenderEngine.swift:31-32 | any two values the two bandwidth calls may return combine into a preference the signals allow |
| RecommenderEngine.PreferenceIsFallbackOrMode | Elaro/RecommenderEngine.swift:31-32 | the preference is 5 or a most common duration of the window, and lies in {5, 10, 20} when every most common duration does |
| RecommenderEngine.PreferenceOfUniqueMode | Elaro/RecommenderEngine.swift:31-32 | with a single most common duration the preference is that duration when it is 5, 10 or 20, and 5 otherwise |
| RecommenderEngine.TiedModeCanLeaveSupportedDurations | Elaro/RecommenderEngine.swift:31-32 | one completion of 7 minutes and one of 10 allow a preference of 7, outside {5, 10, 20}, because the two calls may break the tie differently |
| RecommenderEngine.Clamp01 | Elaro/RecommenderEngine.swift:36 | the result is in [0, 1], equal to the input inside it and to the nearer bound outside it |
| RecommenderEngine.SignalsAreValid | Elaro/RecommenderEngine.swift:29-37 | the gathered signals have heat and friction in [0, 1] and every success rate in [0, 1]; the preference is 5 or a most common duration, and in {5, 10, 20} when every most common duration is |
| RecommenderEngine.ScoreFocusMatch | Elaro/RecommenderEngine.swift:80-84 | 1.0 exactly when some pin, lower-cased, occurs in the lower-cased title, and 0.6 otherwise, including with no pins |
| RecommenderEngine.PinnedTitleMatches | Elaro/RecommenderEngine.swift:83 | a pin equal to the title up to case gives 1.0 |
| RecommenderEngine.FocusMatchIgnoresCase | Elaro/RecommenderEngine.swift:82-83 | titles that differ only in ASCII case score the same |
| RecommenderEngine.SuccessProbability | Elaro/RecommenderEngine.swift:42 | the mean of the tag rates, defaulting to 0.5: in [0, 1] for valid rates and 0 for a template without tags |
| RecommenderEngine.BandwidthFit | Elaro/RecommenderEngine.swift:43 | 1.0 exactly when a variant has the preferred duration, otherwise 0.5 |
| RecommenderEngine.Score | Elaro/RecommenderEngine.swift:40-46 | with valid signals, the weighted score lies in [0.285, 0.92] |
| RecommenderEngine.PinMatchBonus | Elaro/RecommenderEngine.swift:41-45 | a matching pin adds exactly 0.14 to the score |
| RecommenderEngine.OfferedDurationBonus | Elaro/RecommenderEngine.swift:43-45 | offering the preferred duration adds exactly 0.075 to the score |
| RecommenderEngine.ScoreIgnoresContraindications | Elaro/RecommenderEngine.swift:40-47 | changing a template's contraindications never changes its score |
| RecommenderEngine.Prefix | Elaro/RecommenderEngine.swift:52 | `prefix(k)` returns the first length-or-k elements |
| RecommenderEngine.ChosenActions | Elaro/RecommenderEngine.swift:48-52 | min(3, number of candidates) templates, in non-increasing score, scoring at least as high as every candidate left out |
| RecommenderEngine.ChosenDuration | Elaro/RecommenderEngine.swift:56-57 | the preference when the template offers it, otherwise the first variant's duration, and 5 with no variants |
| RecommenderEngine.ChooseVariants | Elaro/RecommenderEngine.swift:54-58 | the map has one entry per chosen position: that template's chosen duration |
| RecommenderEngine.Headline | Elaro/RecommenderEngine.swift:75-79 | the headline is never empty |
| RecommenderEngine.HeadlinesDistinct | Elaro/RecommenderEngine.swift:75-79 | the two known focuses and any other focus get three different headlines |
| RecommenderEngine.GatherSignals | Elaro/RecommenderEngine.swift:29-37 | the signals come from the engine's windows: 7-day success rates, a preference from two 14-day bandwidth calls, the 14-day heatmap, novelty in {med, high}, clamped 7-day friction, and the focus's pins |
| RecommenderEngine.Suggest | Elaro/RecommenderEngine.swift:39-72 | the suggestion has the focus's headline, the top templates, their durations, and a sentence built from a most common chosen duration |
| RecommenderEngine.Rank | Elaro/RecommenderEngine.swift:25-73 | empty exactly when the focus has no templates; otherwise one suggestion of 1 to 3 actions built from the signals at `now` and the hour of `day` |
| RecommenderEngine.WhyNamesOfferedPreference | Elaro/RecommenderEngine.swift:54-65 | when every chosen template offers the preferred duration, the sentence is the one built with that duration |
| WeeklyAdjuster.TweakDecision.RawValue | Elaro/WeeklyAdjuster.swift:178-181 | the raw value is a non-empty lower-case snake-case word |
| WeeklyAdjuster.TweakFromRawValue | Elaro/WeeklyAdjuster.swift:178-181 | parsing a raw value yields the case with that raw value, and nothing only when no case has it |
| WeeklyAdjuster.TweakDecision.DisplayName | Elaro/WeeklyAdjuster.swift:183-192 | the shown name is the raw value with its first letter capitalised and its underscores as spaces |
| WeeklyAdjuster.DisplayNamesDistinct | Elaro/WeeklyAdjuster.swift:183-192 | different decisions have different shown names |
| WeeklyAdjuster.RawValueRoundTrip | Elaro/WeeklyAdjuster.swift:178-181 | parsing a case's raw value gives the case back |
| WeeklyAdjuster.DetermineSuggestedTweak | Elaro/WeeklyAdjuster.swift:52-60 | scale up exactly when completion is at least 0.7 and friction at most 0.3; scale down exactly when that fails and completion is at most 0.3 or friction above 0.4 |
| WeeklyAdjuster.TweakMonotoneInCompletion | Elaro/WeeklyAdjuster.swift:52-60 | a higher completion rate never gives a lower tweak, ordering down, keep, up |
| WeeklyAdjuster.TweakAntitoneInFriction | Elaro/WeeklyAdjuster.swift:52-60 | a higher friction never gives a higher tweak |
| WeeklyAdjuster.TemplateIds | Elaro/WeeklyAdjuster.swift:71-73 | the list holds each completion's template id, in order |
| WeeklyAdjuster.GenerateWinText | Elaro/WeeklyAdjuster.swift:64-89 | the fixed text without completions; otherwise the text for a most frequent template: "N times" above one, "Successfully completed" for one, and a completion count when the template is missing |
| WeeklyAdjuster.WinTextOfOneTemplate | Elaro/WeeklyAdjuster.swift:76-82 | several completions of one catalogued template give "Completed '<title>' N times" with N the number of completions |
| WeeklyAdjuster.HardText | Elaro/WeeklyAdjuster.swift:91-108 | the four texts in priority order: friction above 0.4, else any hard instance, else any stress note, else manageable; each text exactly under its condition |
| WeeklyAdjuster.NoFrictionIsManageable | Elaro/WeeklyAdjuster.swift:99-106 | with no friction point in the week and friction at most 0.4, the text is "Activities felt manageable overall" |
| WeeklyAdjuster.FrictionPointsBounded | Elaro/SignalsEngine.swift:146-161 | one instance's friction points never exceed the week's friction count |
| WeeklyAdjuster.Truncate | Elaro/WeeklyAdjuster.swift:113 | `Int(x)` rounds toward zero: the floor for non-negative x and the ceiling for negative x |
| WeeklyAdjuster.Percent | Elaro/WeeklyAdjuster.swift:113 | a completion rate in [0, 1] gives a percentage in 0 to 100 |
| WeeklyAdjuster.Rationale | Elaro/WeeklyAdjuster.swift:110-123 | every rationale except the high-friction scale-down quotes the completion percentage; a scale-down above 30% completion gives the fixed high-friction sentence |
| WeeklyAdjuster.AnalyzeWeek | Elaro/WeeklyAdjuster.swift:15-48 | the analysis holds the week's completion rate, the 7-day friction index, and the win, hard, tweak and rationale derived from them |
| WeeklyAdjuster.AnalysisIsConsistent | Elaro/WeeklyAdjuster.swift:15-48 | friction above 0.4 means scale down with the "challenging" text; scale up never comes with that text; rate in [0, 1] and friction in [0, 2] |
| WeeklyAdjuster.ApplyTweak | Elaro/WeeklyAdjuster.swift:127-146 | one summary is saved under "<focus>-<week start seconds>" with the given tweak's raw value and the texts of the current week's analysis; nothing else changes |
| FocusPlanner.DefaultBuildingBlocks | Elaro/FocusPlanner.swift:121-142 | always a micro-skill, a ritual and a support block, and without tags for an unknown focus |
| FocusPlanner.GetBuildingBlocks | Elaro/FocusPlanner.swift:14-20 | the stored blocks of an existing focus, otherwise the defaults |
| FocusPlanner.UpdateBuildingBlock | Elaro/FocusPlanner.swift:26-32 | replaces the block at an index inside an existing focus's blocks; otherwise, including a missing focus, nothing changes |
| FocusPlanner.UpdateTouchesOneBlock | Elaro/FocusPlanner.swift:30 | the update keeps the length and every other block, and puts the new block at the index |
| FocusPlanner.GetPinnedMicroSkills | Elaro/FocusPlanner.swift:36-42 | an existing focus's pinned titles, otherwise none |
| FocusPlanner.RemoveAll | Elaro/FocusPlanner.swift:52 | the title no longer occurs, and every other title occurs as often as before |
| FocusPlanner.RemoveAbsent | Elaro/FocusPlanner.swift:52 | removing an absent title changes nothing |
| FocusPlanner.Toggled | Elaro/FocusPlanner.swift:51-55 | a pinned title is removed entirely, an unpinned one is appended, and other titles keep their counts |
| FocusPlanner.ToggleTwiceRestores | Elaro/FocusPlanner.swift:48-58 | toggling an unpinned title twice restores the pins |
| FocusPlanner.ToggleFlipsMembership | Elaro/FocusPlanner.swift:51-55 | toggling flips the title's membership and keeps every other title's |
| FocusPlanner.TogglePin | Elaro/FocusPlanner.swift:48-58 | an existing focus's pins become the toggled pins; a missing focus leaves the store unchanged |
| FocusPlanner.Spoken | Elaro/FocusPlanner.swift:161 | the fallback wording has no underscore left |
| FocusPlanner.MicroSkillTitle | Elaro/FocusPlanner.swift:146-163 | for a tag without wording of its own, the title contains the tag with its underscores spoken as spaces |
| FocusPlanner.MicroSkillDescription | Elaro/FocusPlanner.swift:165-182 | for a tag without wording of its own, the description contains the spoken tag |
| FocusPlanner.RitualTitle | Elaro/FocusPlanner.swift:184-201 | for a tag without wording of its own, the title contains the spoken tag |
| FocusPlanner.RitualDescription | Elaro/FocusPlanner.swift:203-220 | the description is never empty |
| FocusPlanner.FallbackRitualDescriptionShared | Elaro/FocusPlanner.swift:217-218 | every tag without wording of its own gets the same ritual description |
| FocusPlanner.SupportTitle | Elaro/FocusPlanner.swift:222-239 | for a tag without wording of its own, the title contains the spoken tag |
| FocusPlanner.SupportDescription | Elaro/FocusPlanner.swift:241-258 | for a tag without wording of its own, the description contains the spoken tag |
| FocusPlanner.MicroSkillBlock | Elaro/FocusPlanner.swift:81-86 | a micro-skill block tagged with its tag |
| FocusPlanner.RitualBlock | Elaro/FocusPlanner.swift:91-96 | a ritual block tagged with its tag |
| FocusPlanner.SupportBlock | Elaro/FocusPlanner.swift:101-106 | a support block tagged with its tag |
| FocusPlanner.BlocksForLength | Elaro/FocusPlanner.swift:77-116 | min(3, number of top tags + 1) blocks, the last always a support block, block k tagged with top tag k |
| FocusPlanner.BlocksForFirst | Elaro/FocusPlanner.swift:80-87 | the first block is a micro-skill exactly when there is a top tag |
| FocusPlanner.BlocksForRitual | Elaro/FocusPlanner.swift:90-97 | a ritual block appears exactly when there are at least two top tags |
| FocusPlanner.TopTagsCount | Elaro/FocusPlanner.swift:74 | there is a top tag exactly when the actions carry any tag, and two exactly when they carry two different tags |
| FocusPlanner.SuggestionShape | Elaro/FocusPlanner.swift:62-117 | the suggestion starts with a micro-skill exactly when any tag exists, has a ritual exactly when two distinct tags exist, and always ends in a support block |
| FocusPlanner.AddTagCounts | Elaro/FocusPlanner.swift:68-70 | the counter map counts every tag seen so far plus the action's tags |
| FocusPlanner.CountTags | Elaro/FocusPlanner.swift:66-71 | the map counts each tag as often as the actions list it |
| FocusPlanner.KeysOf | Elaro/FocusPlanner.swift:74 | the dictionary's keys, each once |
| FocusPlanner.KeysAreTags | Elaro/FocusPlanner.swift:66-71 | the counted keys are exactly the tags that occur |
| FocusPlanner.TopTagsFromCounts | Elaro/FocusPlanner.swift:74 | the first three keys sorted by count are top tags of the actions |
| FocusPlanner.SuggestBuildingBlocks | Elaro/FocusPlanner.swift:62-117 | the blocks built from some top three distinct tags by frequency, where ties are free |
| SeedImporter.ResolvedVersion | Elaro/SeedImporter.swift:51-54 | the action's own version, else the file's version, else 1 |
| SeedImporter.Variants | Elaro/SeedImporter.swift:89 | each seed variant becomes a template variant with the same duration and steps, in order |
| SeedImporter.Upserted | Elaro/SeedImporter.swift:75-106 | the ids become the old ids plus the action's; the action's entry holds at least the incoming version and, when it existed, at least its stored version under the same id |
| SeedImporter.UpsertEffect | Elaro/SeedImporter.swift:75-106 | the id is added or kept; other templates are unchanged; a stored version as new or newer leaves the catalog unchanged; otherwise the action's fields and version are written |
| SeedImporter.UpsertIdempotent | Elaro/SeedImporter.swift:75-106 | upserting the same action twice equals upserting it once |
| SeedImporter.ImportEffect | Elaro/SeedImporter.swift:53-56 | after the loop every imported id is present at its version or newer, no version goes down, untouched templates are kept and no other id appears |
| SeedImporter.ImportOfCurrentIsIdentity | Elaro/SeedImporter.swift:53-56 | importing a file whose templates are all stored at a version as new or newer changes nothing |
| SeedImporter.ReimportIsIdempotent | Elaro/SeedImporter.swift:53-56 | importing the same file a second time changes nothing |
| SeedImporter.WithFocus | Elaro/SeedImporter.swift:67-73 | an existing focus is kept and a missing one is inserted new |
| SeedImporter.WithDefaultFocuses | Elaro/SeedImporter.swift:48-49 | both default focuses exist afterwards, and every existing focus is unchanged |
| SeedImporter.SeedContext.UpsertFocusIfMissing | Elaro/SeedImporter.swift:67-73 | the focuses become `WithFocus` of the old focuses; templates and the gate are unchanged |
| SeedImporter.SeedContext.UpsertAction | Elaro/SeedImporter.swift:75-106 | the catalog becomes the upsert of the old catalog, keyed by id |
| SeedImporter.SeedContext.Run | Elaro/SeedImporter.swift:40-65 | fails exactly without a decodable file and then changes nothing; otherwise adds the default focuses and imports every action in order |
| SeedImporter.SeedContext.RunIfNeeded | Elaro/SeedImporter.swift:27-38 | does nothing once the gate is set; otherwise runs, and sets the gate exactly when the run succeeds |
| Milestones.FilterMembers | Elaro/ProgressOverviewScreen.swift:56 | the filter keeps exactly the members that satisfy the predicate |
| Milestones.FilterAppend | Elaro/ProgressOverviewScreen.swift:56 | filtering keeps the order: the filter of a concatenation is the concatenation of the filters |
| Milestones.AllowedKinds | Elaro/ProgressOverviewScreen.swift:55 | a kind is allowed exactly when some selected mode allows it |
| Milestones.FilteredMilestonesMembers | Elaro/ProgressOverviewScreen.swift:53-57 | `filteredMilestones`: all milestones without settings or without selected modes; otherwise exactly those of a kind some selected mode allows |
| Milestones.FirstWithId | Elaro/ProgressOverviewScreen.swift:16 | the first child with the id, and nothing exactly when no child has it |
| Milestones.SelectedChild | Elaro/ProgressOverviewScreen.swift:14-17 | the first child when no child is chosen; otherwise the chosen child when it exists, and nothing exactly when it does not |
| Milestones.IdsBound | Elaro/ProgressOverviewScreen.swift:69 | there are no more distinct ids than milestones |
| ProgressOverviewScreen.StageIdsMembers | Elaro/ProgressOverviewScreen.swift:68-75 | a stage's ids are exactly the shown milestones' ids with a record of that stage for the child in the week, and no more than there are milestones |
| ProgressOverviewScreen.StageFrac | Elaro/ProgressOverviewScreen.swift:72-76 | a stage's ring is its distinct-id count over max(1, number of milestones), in [0, 1] |
| ProgressOverviewScreen.OverallStatsOf | Elaro/ProgressOverviewScreen.swift:65-77 | all zero without a selected child; otherwise each ring is the stage share of the selected child over the filtered milestones; each fraction in [0, 1] |
| ProgressOverviewScreen.NoMilestonesNoProgress | Elaro/ProgressOverviewScreen.swift:72 | without milestones every ring is 0, as max(1, 0) avoids the division by zero |
| ProgressOverviewScreen.IndependentShare | Elaro/ProgressOverviewScreen.swift:84-89 | the independent distinct ids over the category's size, in [0, 1], 0 for an empty category |
| ProgressOverviewScreen.CategoryFrac | Elaro/ProgressOverviewScreen.swift:79-91 | 0 without a child or for an empty category, otherwise the independent share of the category's shown milestones |
| WeeklySummaryScreen.CountIndependent | Elaro/WeeklySummaryScreen.swift:68-71 | no more milestones counted than there are |
| WeeklySummaryScreen.CountIndependentExtremes | Elaro/WeeklySummaryScreen.swift:68-71 | all are counted exactly when every milestone has an independent record, and none exactly when no milestone has one |
| WeeklySummaryScreen.CategoryStatsOf | Elaro/WeeklySummaryScreen.swift:57-77 | zeros for an empty category or without a child; otherwise the category's size, its count of independent milestones and their share |
| WeeklySummaryScreen.IndependentIdsCount | Elaro/WeeklySummaryScreen.swift:67-71 | with unique milestone ids, the count equals the number of distinct independent ids |
| WeeklySummaryScreen.StageIdsAreIndependentIds | Elaro/ProgressOverviewScreen.swift:84-86 | the overview's independent id set equals the summary's set of independent milestone ids |
| WeeklySummaryScreen.SummaryAgreesWithOverview | Elaro/WeeklySummaryScreen.swift:72-75 | with unique milestone ids, the summary's percentage equals the overview's category ring |
| Selection.SetToggled | Elaro/FlowChipsGrid.swift:31-35 | the toggled element changes membership and every other element keeps it |
| Selection.ToggleTwice | Elaro/FlowChipsGrid.swift:30-36 | toggling twice restores the selection |
| Selection.SingleToggled | Elaro/FocusModeTileGrid.swift:35 | single selection becomes empty for a selected element and just that element otherwise, never more than one |
| Selection.SingleToggleTwice | Elaro/FocusModeTileGrid.swift:35 | tapping the selected tile twice reselects it alone |
| FocusModeTileGrid.TileGrid.Toggle | Elaro/FocusModeTileGrid.swift:31-38 | multi-selection toggles the tile's id and single selection replaces the set; the handler, when present, is called with the new selection |
| FlowChipsGrid.ChipsGrid.Toggle | Elaro/FlowChipsGrid.swift:30-36 | the item's membership flips and the rest of the selection is kept |

## Left out

- The clock, the calendar and time zones: `Date.now`, the hour of a date, and the start of
  the current week (`getCurrentWeekStart`, the screens' `currentWeekBounds`) are parameters
  (`now`, `hourOf`, `weekStartOf`, `start`). Days are fixed 86400-second steps, with no
  daylight-saving changes.
- Floating point: rates and scores are exact reals, so there is no rounding and no NaN. The
  screens' `isNaN` guards are therefore unreachable and not modelled.
- Persistence errors: failed fetches, which return empty results, and failed
  `context.save()` calls are not modelled. Every fetch and save succeeds.
- Logging and output: the `print` calls, the DEBUG sanity log of the seed importer, and
  SwiftUI rendering and animation.
- UserDefaults: the seed gate `seed.actions.v1.ran` is the `seedRan` field of
  `SeedContext`.
- Reading and decoding `actions_seed.json`: `Run` takes an optional decoded file, and no
  file stands for a missing or undecodable one.
- `FocusArea.startedAt` of a seeded focus is the `now` parameter.
- Identifiers: the UUIDs of children, milestones and progress records are strings, and child
  and milestone relationships are referred to by id.
- The Milestone, ChildProfile, AppSettings, FocusMode, Category and Stage definitions are
  not part of this model. Kind and category are strings; the stage is a three-case datatype.
- The overview's progress query is fixed at the screen's creation to the current week
  (`ProgressOverviewScreen.swift:19-24`). The model takes the loaded records as a parameter,
  to which the week filter is applied again.
- RecommenderEngine.GatherSignals: each signal computation reads `Date.now` for itself; the
  model gives all of them, both bandwidth calls included, the same `now`.
- RecommenderEngine.ScoreFocusMatch: lower-casing covers ASCII letters only, and matching
  compares code points (see the next two lines).
- Text.Lower: `lowercased()` is modelled on ASCII letters only; every other character is
  kept. This affects `RecommenderEngine.ScoreFocusMatch` and `Models.HasStressNote`. The
  latter decides the stress-note part of the friction index (`SignalsEngine.swift:153-155`)
  and of the weekly hard text (`WeeklyAdjuster.swift:94-96`).
- Text.Contains: Swift's `String.contains` compares characters under canonical
  equivalence. The model compares code points, so a pin "café" spelled with a precomposed
  é does not match a title spelling é as e + U+0301, although the two match in Swift. No
  Unicode normalisation or grapheme clustering is modelled. The empty string occurs in
  every string here, so an empty pinned title (possible only after a block title was edited
  to be empty) gives every template a focus match of 1.0; Foundation's `contains` probably
  finds no empty string and would give 0.6.
- FocusPlanner.UpdateBuildingBlock: requires a non-negative index; Swift traps on a negative
  one.
- FocusPlanner.MicroSkillTitle: this and the other five block texts state only what holds across
  tags (the fallback quotes the spoken tag, the fallback ritual description is never empty);
  the wording for each known tag is in the bodies and is not restated.
- FocusModeTileGrid.TileGrid.Toggle: the `onChange` closure is recorded as the sequence of
  selections it receives, so what the closure itself does is not modelled.
- The rendering-only members of the two grids (their `body` views) are left out.
