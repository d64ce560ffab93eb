/** Behavioural features derived from a window of logged actions (Elaro/SignalsEngine.swift).
    Each `Compute...` method runs the source's accumulator loops and is proved equal to
    the specification function of the same name without the prefix; the features the
    source writes as filter/count expressions are functions. */
module SignalsEngine {
  import opened Wrappers
  import opened Text
  import opened Models
  import opened Store
  import opened Sorting
  import opened Counting

  /** The source's default look-back windows, in days. */
  const SuccessRateDays: nat := 7
  const HeatmapDays: nat := 14
  const BandwidthDays: nat := 14
  const NoveltyDays: nat := 14
  const FrictionDays: nat := 7
  const StreakDays: nat := 7
  const RecentPerformanceDays: nat := 3

  /** `instances.filter { $0.status == "done" }` */
  function Completed(xs: seq<ActionInstance>): (r: seq<ActionInstance>)
    ensures |r| <= |xs|
  {
    if xs == [] then []
    else (if IsDone(xs[0]) then [xs[0]] else []) + Completed(xs[1..])
  }

  lemma {:induction false} CompletedMembers(xs: seq<ActionInstance>)
    ensures forall i :: i in Completed(xs) <==> i in xs && IsDone(i)
  {
    if xs != [] {
      CompletedMembers(xs[1..]);
      assert xs == [xs[0]] + xs[1..];
    }
  }

  /** Done instances over all instances, 0 for an empty window. */
  function CompletionRate(xs: seq<ActionInstance>): (r: real)
    ensures 0.0 <= r <= 1.0
    ensures |xs| == 0 ==> r == 0.0
    ensures r * |xs| as real == |Completed(xs)| as real
  {
    Ratio(|Completed(xs)|, |xs|)
  }

  // ---------------------------------------------------------------------------
  // Success rate by tag

  /** What one instance adds to a tag's count: the occurrences of the tag in the tag list
      of the first template with the instance's template id (none when no template has
      that id, and none for an instance that is not done when only done ones count). */
  function StepOccurrences(i: ActionInstance, actions: seq<ActionTemplate>, tag: string, doneOnly: bool): nat {
    match FindTemplate(actions, i.templateId)
    case None => 0
    case Some(t) => if doneOnly && !IsDone(i) then 0 else Occurrences(t.tags, tag)
  }

  function TagOccurrences(xs: seq<ActionInstance>, actions: seq<ActionTemplate>, tag: string, doneOnly: bool): nat
    decreases |xs|
  {
    if xs == [] then 0
    else TagOccurrences(xs[..|xs| - 1], actions, tag, doneOnly) + StepOccurrences(xs[|xs| - 1], actions, tag, doneOnly)
  }

  /** The instance refers to a known template that carries `tag`. */
  predicate RefersToTag(i: ActionInstance, actions: seq<ActionTemplate>, tag: string) {
    match FindTemplate(actions, i.templateId)
    case None => false
    case Some(t) => tag in t.tags
  }

  /** The tags of the known templates the instances refer to. */
  function ReferencedTags(xs: seq<ActionInstance>, actions: seq<ActionTemplate>): set<string>
    decreases |xs|
  {
    if xs == [] then {}
    else
      ReferencedTags(xs[..|xs| - 1], actions)
      + match FindTemplate(actions, xs[|xs| - 1].templateId)
        case None => {}
        case Some(t) => set tag | tag in t.tags
  }

  /** The specification of `computeSuccessRateByTag` over a window: one entry per referenced
      tag, holding done occurrences over all occurrences. */
  function SuccessRateByTag(xs: seq<ActionInstance>, actions: seq<ActionTemplate>): map<string, real> {
    map tag | tag in ReferencedTags(xs, actions)
      :: Ratio(TagOccurrences(xs, actions, tag, true), TagOccurrences(xs, actions, tag, false))
  }

  lemma {:induction false} ReferencedTagsOccur(xs: seq<ActionInstance>, actions: seq<ActionTemplate>, tag: string)
    ensures tag in ReferencedTags(xs, actions) <==> TagOccurrences(xs, actions, tag, false) > 0
    ensures tag in ReferencedTags(xs, actions) <==> exists i :: i in xs && RefersToTag(i, actions, tag)
    decreases |xs|
  {
    if xs != [] {
      var init, last := xs[..|xs| - 1], xs[|xs| - 1];
      ReferencedTagsOccur(init, actions, tag);
      assert xs == init + [last];
      if RefersToTag(last, actions, tag) {
        assert last in xs;
      }
      forall i | i in init ensures i in xs { }
      forall i | i in xs && RefersToTag(i, actions, tag) && i != last ensures i in init {
        var k :| 0 <= k < |xs| && xs[k] == i;
        assert k < |init|;
        assert init[k] == i;
      }
    }
  }

  /** Done occurrences never exceed all occurrences. */
  lemma {:induction false} DoneOccurrencesBounded(xs: seq<ActionInstance>, actions: seq<ActionTemplate>, tag: string)
    ensures TagOccurrences(xs, actions, tag, true) <= TagOccurrences(xs, actions, tag, false)
    decreases |xs|
  {
    if xs != [] {
      DoneOccurrencesBounded(xs[..|xs| - 1], actions, tag);
    }
  }

  /** Every per-tag success rate lies in [0,1]. */
  lemma SuccessRatesInUnit(xs: seq<ActionInstance>, actions: seq<ActionTemplate>)
    ensures forall tag :: tag in SuccessRateByTag(xs, actions) ==> 0.0 <= SuccessRateByTag(xs, actions)[tag] <= 1.0
  {
    forall tag | tag in SuccessRateByTag(xs, actions)
      ensures 0.0 <= SuccessRateByTag(xs, actions)[tag] <= 1.0
    {
      DoneOccurrencesBounded(xs, actions, tag);
    }
  }

  /** The keys are exactly the tags of the known templates the window refers to. */
  lemma SuccessRateKeys(xs: seq<ActionInstance>, actions: seq<ActionTemplate>)
    ensures forall tag :: tag in SuccessRateByTag(xs, actions) <==> exists i :: i in xs && RefersToTag(i, actions, tag)
  {
    forall tag ensures tag in SuccessRateByTag(xs, actions) <==> exists i :: i in xs && RefersToTag(i, actions, tag) {
      ReferencedTagsOccur(xs, actions, tag);
    }
  }

  /** An empty window gives an empty map. */
  lemma SuccessRateEmptyWindow(actions: seq<ActionTemplate>)
    ensures SuccessRateByTag([], actions) == map[]
  {
  }

  /** One template tagged "initiative" and two done instances of it give {"initiative": 1.0}. */
  lemma SuccessRateScenario()
    ensures
      var tpl := ActionTemplate("t1", "independence", "Try first", "why", ["initiative"], 1, [], [], 1);
      var done1 := ActionInstance("i1", 100, "independence", "t1", 5, "done", None, None, None);
      var done2 := ActionInstance("i2", 200, "independence", "t1", 5, "done", None, None, None);
      SuccessRateByTag([done1, done2], [tpl]) == map["initiative" := 1.0]
  {
    var tpl := ActionTemplate("t1", "independence", "Try first", "why", ["initiative"], 1, [], [], 1);
    var done1 := ActionInstance("i1", 100, "independence", "t1", 5, "done", None, None, None);
    var done2 := ActionInstance("i2", 200, "independence", "t1", 5, "done", None, None, None);
    var xs := [done1, done2];
    assert xs[..1] == [done1] && [done1][..0] == [];
    assert Occurrences(["initiative"], "initiative") == 1 by {
      assert ["initiative"][..0] == [];
    }
    assert FindTemplate([tpl], "t1") == Some(tpl);
    assert StepOccurrences(done1, [tpl], "initiative", true) == 1;
    assert StepOccurrences(done2, [tpl], "initiative", true) == 1;
    assert TagOccurrences([done1], [tpl], "initiative", true) == 1;
    assert TagOccurrences([done1], [tpl], "initiative", false) == 1;
    assert TagOccurrences(xs, [tpl], "initiative", true) == 2;
    assert TagOccurrences(xs, [tpl], "initiative", false) == 2;
    assert (set tag | tag in tpl.tags) == {"initiative"};
    assert ReferencedTags([], [tpl]) == {};
    assert ReferencedTags([done1], [tpl]) == {"initiative"};
    assert ReferencedTags(xs, [tpl]) == {"initiative"};
  }

  datatype TagStats = TagStats(completed: nat, total: nat)

  /** A tag's counters, zero when the tag has none yet (`tagStats[tag] ?? (0, 0)`). */
  function Get(stats: map<string, TagStats>, tag: string): TagStats {
    if tag in stats then stats[tag] else TagStats(0, 0)
  }

  /** The counters after adding `n` to the completed (or to the total) count. */
  function Bumped(c: TagStats, n: nat, completed: bool): TagStats {
    if completed then c.(completed := c.completed + n) else c.(total := c.total + n)
  }

  /** Only tags that were counted at least once have an entry. */
  ghost predicate NoEmptyEntry(stats: map<string, TagStats>) {
    forall tag :: tag in stats ==> stats[tag] != TagStats(0, 0)
  }

  /** `tagStats[tag, default: (0, 0)].completed += 1`, or `.total += 1`. */
  function BumpOne(stats: map<string, TagStats>, t: string, completed: bool): (r: map<string, TagStats>)
    requires NoEmptyEntry(stats)
    ensures NoEmptyEntry(r)
    ensures forall tag :: Get(r, tag) == Bumped(Get(stats, tag), if tag == t then 1 else 0, completed)
  {
    stats[t := Bumped(Get(stats, t), 1, completed)]
  }

  /** Adds one to the chosen counter of each tag in `tags`, once per listing. */
  method AddTags(stats: map<string, TagStats>, tags: seq<string>, completed: bool) returns (r: map<string, TagStats>)
    requires NoEmptyEntry(stats)
    ensures NoEmptyEntry(r)
    ensures forall tag :: Get(r, tag) == Bumped(Get(stats, tag), Occurrences(tags, tag), completed)
  {
    r := stats;
    var j := 0;
    while j < |tags|
      invariant 0 <= j <= |tags|
      invariant NoEmptyEntry(r)
      invariant forall tag :: Get(r, tag) == Bumped(Get(stats, tag), Occurrences(tags[..j], tag), completed)
    {
      BumpStep(stats, r, tags, j, completed);
      r := BumpOne(r, tags[j], completed);
      j := j + 1;
    }
    assert tags[..j] == tags;
  }

  /** Bumping the counters for `tags[j]` extends the count from `tags[..j]` to `tags[..j + 1]`. */
  lemma BumpStep(stats: map<string, TagStats>, prev: map<string, TagStats>, tags: seq<string>, j: nat, completed: bool)
    requires j < |tags| && NoEmptyEntry(prev)
    requires forall tag :: Get(prev, tag) == Bumped(Get(stats, tag), Occurrences(tags[..j], tag), completed)
    ensures forall tag ::
      Get(BumpOne(prev, tags[j], completed), tag) == Bumped(Get(stats, tag), Occurrences(tags[..j + 1], tag), completed)
  {
    var r := BumpOne(prev, tags[j], completed);
    assert tags[..j + 1][..j] == tags[..j] && tags[..j + 1][j] == tags[j];
    forall tag ensures Get(r, tag) == Bumped(Get(stats, tag), Occurrences(tags[..j + 1], tag), completed) {
      var n := Occurrences(tags[..j], tag);
      assert Get(prev, tag) == Bumped(Get(stats, tag), n, completed);
      assert Occurrences(tags[..j + 1], tag) == n + if tag == tags[j] then 1 else 0;
    }
  }

  /** One pass of `computeSuccessRateByTag`: for every instance with a known template (and,
      when counting completions, with status "done"), bumps the counters of its tags. */
  method CountByTag(xs: seq<ActionInstance>, actions: seq<ActionTemplate>, stats: map<string, TagStats>, completed: bool)
    returns (r: map<string, TagStats>)
    requires NoEmptyEntry(stats)
    ensures NoEmptyEntry(r)
    ensures forall tag :: Get(r, tag) == Bumped(Get(stats, tag), TagOccurrences(xs, actions, tag, completed), completed)
  {
    r := stats;
    var i := 0;
    while i < |xs|
      invariant 0 <= i <= |xs|
      invariant NoEmptyEntry(r)
      invariant forall tag :: Get(r, tag) == Bumped(Get(stats, tag), TagOccurrences(xs[..i], actions, tag, completed), completed)
    {
      var inst := xs[i];
      var found := FindTemplate(actions, inst.templateId);
      assert xs[..i + 1][..i] == xs[..i] && xs[..i + 1][i] == inst;
      if found.Some? && (completed ==> IsDone(inst)) {
        r := AddTags(r, found.value.tags, completed);
      }
      i := i + 1;
    }
    assert xs[..i] == xs;
  }

  /** `computeSuccessRateByTag(focusId:days:)` */
  method ComputeSuccessRateByTag(h: History, focusId: string, now: Timestamp, days: nat) returns (rates: map<string, real>)
    ensures rates == SuccessRateByTag(Window(h, Some(focusId), now, days), ActionsFor(h.templates, focusId))
  {
    var xs := Window(h, Some(focusId), now, days);
    var actions := ActionsFor(h.templates, focusId);
    // Count completed instances by tag, then total instances by tag
    var stats := CountByTag(xs, actions, map[], true);
    stats := CountByTag(xs, actions, stats, false);
    // Calculate success rates
    rates := map tag | tag in stats
      :: if stats[tag].total > 0 then stats[tag].completed as real / stats[tag].total as real else 0.0;
    forall tag ensures tag in stats <==> tag in ReferencedTags(xs, actions) {
      DoneOccurrencesBounded(xs, actions, tag);
      ReferencedTagsOccur(xs, actions, tag);
      assert Get(stats, tag) == TagStats(TagOccurrences(xs, actions, tag, true), TagOccurrences(xs, actions, tag, false));
    }
    forall tag | tag in stats
      ensures stats[tag] == TagStats(TagOccurrences(xs, actions, tag, true), TagOccurrences(xs, actions, tag, false))
    {
      assert Get(stats, tag) == stats[tag];
    }
  }

  // ---------------------------------------------------------------------------
  // Time-of-day heatmap

  /** Done instances whose local hour is `hr`. */
  function CountAtHour(done: seq<ActionInstance>, hourOf: Timestamp -> Hour, hr: int): (n: nat)
    ensures n <= |done|
    decreases |done|
  {
    if done == [] then 0
    else CountAtHour(done[..|done| - 1], hourOf, hr) + (if hourOf(done[|done| - 1].date) == hr then 1 else 0)
  }

  /** The specification of `computeTimeOfDayHeatmap` over a window: for each of the 24 hours,
      the share of the done instances logged in that hour. */
  function TimeOfDayHeatmap(xs: seq<ActionInstance>, hourOf: Timestamp -> Hour): (m: map<int, real>)
    ensures forall hr :: hr in m <==> 0 <= hr < 24
    ensures forall hr :: hr in m ==> 0.0 <= m[hr] <= 1.0
    ensures |Completed(xs)| == 0 ==> forall hr :: hr in m ==> m[hr] == 0.0
  {
    var done := Completed(xs);
    map hr | 0 <= hr < 24 :: Ratio(CountAtHour(done, hourOf, hr), |done|)
  }

  /** Counts the done instances per local hour (`hourCounts[hour, default: 0] += 1`). */
  method CountHours(done: seq<ActionInstance>, hourOf: Timestamp -> Hour) returns (hourCounts: map<int, nat>)
    ensures forall hr :: (if hr in hourCounts then hourCounts[hr] else 0) == CountAtHour(done, hourOf, hr)
  {
    hourCounts := map[];
    var i := 0;
    while i < |done|
      invariant 0 <= i <= |done|
      invariant forall hr :: (if hr in hourCounts then hourCounts[hr] else 0) == CountAtHour(done[..i], hourOf, hr)
    {
      var hr := hourOf(done[i].date);
      assert done[..i + 1][..i] == done[..i] && done[..i + 1][i] == done[i];
      hourCounts := hourCounts[hr := (if hr in hourCounts then hourCounts[hr] else 0) + 1];
      i := i + 1;
    }
    assert done[..i] == done;
  }

  /** `computeTimeOfDayHeatmap(days:)`: over the instances of every focus. */
  method ComputeTimeOfDayHeatmap(h: History, now: Timestamp, days: nat, hourOf: Timestamp -> Hour) returns (heatmap: map<int, real>)
    ensures heatmap == TimeOfDayHeatmap(Window(h, None, now, days), hourOf)
  {
    var done := Completed(Window(h, None, now, days));
    var hourCounts := CountHours(done, hourOf);
    // Normalize to fractions
    var totalCompleted := |done|;
    heatmap := map[];
    var hour := 0;
    while hour < 24
      invariant 0 <= hour <= 24
      invariant forall hr :: hr in heatmap <==> 0 <= hr < hour
      invariant forall hr :: 0 <= hr < hour ==> heatmap[hr] == Ratio(CountAtHour(done, hourOf, hr), totalCompleted)
    {
      var count := if hour in hourCounts then hourCounts[hour] else 0;
      heatmap := heatmap[hour := if totalCompleted > 0 then count as real / totalCompleted as real else 0.0];
      hour := hour + 1;
    }
  }

  /** `c(0) + ... + c(n - 1)` */
  function SumBelow(c: int -> nat, n: nat): nat {
    if n == 0 then 0 else SumBelow(c, n - 1) + c(n - 1)
  }

  /** `m[0] + ... + m[n - 1]` */
  function HeatSum(m: map<int, real>, n: nat): real
    requires forall hr :: 0 <= hr < n ==> hr in m
  {
    if n == 0 then 0.0 else HeatSum(m, n - 1) + m[n - 1]
  }

  lemma {:induction false} SumBelowAppend(done: seq<ActionInstance>, x: ActionInstance, hourOf: Timestamp -> Hour, n: nat)
    ensures SumBelow(hr => CountAtHour(done + [x], hourOf, hr), n)
            == SumBelow(hr => CountAtHour(done, hourOf, hr), n) + (if hourOf(x.date) < n then 1 else 0)
  {
    if n > 0 {
      SumBelowAppend(done, x, hourOf, n - 1);
      assert (done + [x])[..|done|] == done;
    }
  }

  lemma {:induction false} SumBelowNone(hourOf: Timestamp -> Hour, n: nat)
    ensures SumBelow(hr => CountAtHour([], hourOf, hr), n) == 0
  {
    if n > 0 { SumBelowNone(hourOf, n - 1); }
  }

  /** Every done instance falls in exactly one of the 24 hours. */
  lemma {:induction false} HourCountsAddUp(done: seq<ActionInstance>, hourOf: Timestamp -> Hour)
    ensures SumBelow(hr => CountAtHour(done, hourOf, hr), 24) == |done|
    decreases |done|
  {
    if done == [] {
      SumBelowNone(hourOf, 24);
    } else {
      var init := done[..|done| - 1];
      assert done == init + [done[|done| - 1]];
      HourCountsAddUp(init, hourOf);
      SumBelowAppend(init, done[|done| - 1], hourOf, 24);
    }
  }

  lemma {:induction false} HeatSumIsShare(xs: seq<ActionInstance>, hourOf: Timestamp -> Hour, n: nat)
    requires n <= 24
    ensures HeatSum(TimeOfDayHeatmap(xs, hourOf), n)
            == Ratio(SumBelow(hr => CountAtHour(Completed(xs), hourOf, hr), n), |Completed(xs)|)
  {
    var done := Completed(xs);
    var c := hr => CountAtHour(done, hourOf, hr);
    if n > 0 {
      var m := TimeOfDayHeatmap(xs, hourOf);
      HeatSumIsShare(xs, hourOf, n - 1);
      assert m[n - 1] == Ratio(c(n - 1), |done|);
      RatioAdd(SumBelow(c, n - 1), c(n - 1), |done|);
    }
  }

  /** With at least one done instance, the 24 values sum to 1. */
  lemma HeatmapSumsToOne(xs: seq<ActionInstance>, hourOf: Timestamp -> Hour)
    requires |Completed(xs)| > 0
    ensures HeatSum(TimeOfDayHeatmap(xs, hourOf), 24) == 1.0
  {
    HeatSumIsShare(xs, hourOf, 24);
    HourCountsAddUp(Completed(xs), hourOf);
    RatioWhole(|Completed(xs)|);
  }

  // ---------------------------------------------------------------------------
  // Bandwidth preference

  /** `completedInstances.map { $0.variantDuration }` */
  function Durations(done: seq<ActionInstance>): (r: seq<int>)
    ensures |r| == |done| && forall k :: 0 <= k < |done| ==> r[k] == done[k].variantDuration
  {
    seq(|done|, k requires 0 <= k < |done| => done[k].variantDuration)
  }

  /** What `computeBandwidthPreference` may return for a window: 10 without completions,
      otherwise a most frequent duration among the done instances (Swift leaves ties to
      dictionary order). */
  ghost predicate IsBandwidthPreference(xs: seq<ActionInstance>, d: int) {
    IsMostCommon(Durations(Completed(xs)), 10, d)
  }

  /** `computeBandwidthPreference(focusId:days:)` */
  method ComputeBandwidthPreference(h: History, focusId: string, now: Timestamp, days: nat) returns (d: int)
    ensures IsBandwidthPreference(Window(h, Some(focusId), now, days), d)
  {
    var done := Completed(Window(h, Some(focusId), now, days));
    d := MostCommon(Durations(done), 10);
  }

  /** Completed durations [5, 5, 10] give 5. */
  lemma BandwidthScenario(d: int)
    requires
      var a := ActionInstance("a", 1, "f", "t", 5, "done", None, None, None);
      var b := ActionInstance("b", 2, "f", "t", 5, "done", None, None, None);
      var c := ActionInstance("c", 3, "f", "t", 10, "done", None, None, None);
      IsBandwidthPreference([a, b, c], d)
    ensures d == 5
  {
    var a := ActionInstance("a", 1, "f", "t", 5, "done", None, None, None);
    var b := ActionInstance("b", 2, "f", "t", 5, "done", None, None, None);
    var c := ActionInstance("c", 3, "f", "t", 10, "done", None, None, None);
    var done := [a, b, c];
    assert done[1..] == [b, c] && [b, c][1..] == [c] && [c][1..] == [];
    assert Completed([c]) == [c];
    assert Completed([b, c]) == [b, c];
    assert Completed(done) == done;
    var ds := Durations(done);
    assert ds == [5, 5, 10];
    assert ds[..2] == [5, 5] && [5, 5][..1] == [5] && [5][..0] == [];
    assert Occurrences(ds, 5) == 2;
    assert Occurrences(ds, 10) == 1;
    assert Occurrences(ds, 5) <= Occurrences(ds, d);
  }

  // ---------------------------------------------------------------------------
  // Novelty tolerance

  datatype Novelty = Low | Med | High {
    /** The string the source returns. */
    function Name(): string {
      match this
      case Low => "low"
      case Med => "med"
      case High => "high"
    }
  }

  /** `Set(completedInstances.map { $0.templateId })` */
  function DistinctTemplates(done: seq<ActionInstance>): set<string> {
    set k | 0 <= k < |done| :: done[k].templateId
  }

  /** `computeNoveltyTolerance(focusId:days:)`: the share of distinct templates among the done
      instances, "high" from 70%, "med" from 40%, "low" below, and "med" with none done. */
  function NoveltyTolerance(h: History, focusId: string, now: Timestamp, days: nat): (r: Novelty)
    ensures
      var done := Completed(Window(h, Some(focusId), now, days));
      var distinct := |DistinctTemplates(done)|;
      && (|done| == 0 ==> r == Med)
      && (|done| > 0 ==> (r == High <==> 10 * distinct >= 7 * |done|))
      && (|done| > 0 ==> (r == Low <==> 10 * distinct < 4 * |done|))
  {
    var done := Completed(Window(h, Some(focusId), now, days));
    var total := |done|;
    if total == 0 then Med
    else
      var unique := |DistinctTemplates(done)|;
      var ratio := Ratio(unique, total);
      RatioAtLeastTenths(unique, total, 7);
      RatioAtLeastTenths(unique, total, 4);
      if ratio >= 0.7 then High
      else if ratio >= 0.4 then Med
      else Low
  }

  /** The novelty ratio never exceeds 1: there are no more distinct templates than completions. */
  lemma {:induction false} NoveltyRatioAtMostOne(done: seq<ActionInstance>)
    ensures |DistinctTemplates(done)| <= |done|
    decreases |done|
  {
    if done != [] {
      var init := done[..|done| - 1];
      NoveltyRatioAtMostOne(init);
      assert DistinctTemplates(done) == DistinctTemplates(init) + {done[|done| - 1].templateId} by {
        forall id | id in DistinctTemplates(done) ensures id in DistinctTemplates(init) + {done[|done| - 1].templateId} {
          var k :| 0 <= k < |done| && done[k].templateId == id;
          if k < |init| {
            assert init[k] == done[k];
          }
        }
        forall id | id in DistinctTemplates(init) ensures id in DistinctTemplates(done) {
          var k :| 0 <= k < |init| && init[k].templateId == id;
          assert done[k] == init[k];
        }
      }
    }
  }

  // ---------------------------------------------------------------------------
  // Friction index

  /** One point for a "hard" feeling and one more for a note with a stress keyword:
      the two are counted independently, so one instance can add 2. */
  function FrictionPoints(i: ActionInstance): (n: nat)
    ensures n <= 2
  {
    (if IsHard(i) then 1 else 0) + (if HasStressNote(i) then 1 else 0)
  }

  function FrictionCount(xs: seq<ActionInstance>): (n: nat)
    ensures n <= 2 * |xs|
    decreases |xs|
  {
    if xs == [] then 0 else FrictionCount(xs[..|xs| - 1]) + FrictionPoints(xs[|xs| - 1])
  }

  /** The specification of `computeFrictionIndex` over a window: friction points per instance. */
  function FrictionIndex(xs: seq<ActionInstance>): (r: real)
    ensures 0.0 <= r <= 2.0
    ensures |xs| == 0 ==> r == 0.0
  {
    Ratio(FrictionCount(xs), |xs|)
  }

  /** The index can exceed 1: one instance felt hard whose note says "upset" scores 2. */
  lemma FrictionCanReachTwo()
    ensures FrictionIndex([ActionInstance("i", 0, "f", "t", 5, "done", Some("hard"), None, Some("Upset at bedtime"))]) == 2.0
  {
    var i := ActionInstance("i", 0, "f", "t", 5, "done", Some("hard"), None, Some("Upset at bedtime"));
    var note := Lower("Upset at bedtime");
    assert note[0..5] == "upset";
    assert OccursAt(note, StressKeywords[5], 0);
    assert HasStressNote(i);
    assert [i][..0] == [];
  }

  /** Four instances, one felt hard, one noting "felt overwhelmed", two neutral: index 0.5. */
  lemma FrictionScenario()
    ensures
      var hard := ActionInstance("a", 0, "f", "t", 5, "done", Some("hard"), None, None);
      var stressed := ActionInstance("b", 0, "f", "t", 5, "done", None, None, Some("felt overwhelmed"));
      var calm1 := ActionInstance("c", 0, "f", "t", 5, "done", Some("ok"), None, None);
      var calm2 := ActionInstance("d", 0, "f", "t", 5, "skipped", None, None, None);
      FrictionIndex([hard, stressed, calm1, calm2]) == 0.5
  {
    var hard := ActionInstance("a", 0, "f", "t", 5, "done", Some("hard"), None, None);
    var stressed := ActionInstance("b", 0, "f", "t", 5, "done", None, None, Some("felt overwhelmed"));
    var calm1 := ActionInstance("c", 0, "f", "t", 5, "done", Some("ok"), None, None);
    var calm2 := ActionInstance("d", 0, "f", "t", 5, "skipped", None, None, None);
    var xs := [hard, stressed, calm1, calm2];
    var note := Lower("felt overwhelmed");
    assert note[5..16] == "overwhelmed";
    assert OccursAt(note, StressKeywords[0], 5);
    assert HasStressNote(stressed);
    assert xs[..3] == [hard, stressed, calm1] && xs[..3][..2] == [hard, stressed];
    assert xs[..3][..2][..1] == [hard] && [hard][..0] == [];
    assert FrictionPoints(hard) == 1 && FrictionPoints(stressed) == 1;
    assert FrictionPoints(calm1) == 0 && FrictionPoints(calm2) == 0;
    assert FrictionCount([hard]) == 1;
    assert FrictionCount([hard, stressed]) == 2;
    assert FrictionCount([hard, stressed, calm1]) == 2;
    assert FrictionCount(xs) == 2;
  }

  /** `computeFrictionIndex(focusId:days:)` */
  method ComputeFrictionIndex(h: History, focusId: string, now: Timestamp, days: nat) returns (r: real)
    ensures r == FrictionIndex(Window(h, Some(focusId), now, days))
  {
    var xs := Window(h, Some(focusId), now, days);
    var frictionCount := 0;
    var i := 0;
    while i < |xs|
      invariant 0 <= i <= |xs|
      invariant frictionCount == FrictionCount(xs[..i])
    {
      var inst := xs[i];
      ghost var before := frictionCount;
      if inst.feltDifficulty == Some("hard") {
        frictionCount := frictionCount + 1;
      }
      ghost var afterHard := frictionCount;
      if inst.note.Some? {
        var note := Lower(inst.note.value);
        var k := 0;
        while k < |StressKeywords|
          invariant 0 <= k <= |StressKeywords|
          invariant frictionCount == afterHard
          invariant forall j :: 0 <= j < k ==> !Contains(note, StressKeywords[j])
        {
          if Contains(note, StressKeywords[k]) {
            frictionCount := frictionCount + 1;
            break; // only count once per instance
          }
          k := k + 1;
        }
      }
      assert frictionCount == before + FrictionPoints(inst);
      assert xs[..i + 1][..i] == xs[..i] && xs[..i + 1][i] == inst;
      i := i + 1;
    }
    assert xs[..i] == xs;
    r := if |xs| > 0 then frictionCount as real / |xs| as real else 0.0;
  }

  // ---------------------------------------------------------------------------
  // Streak momentum, recent performance, peak hours

  /** `computeStreakMomentum(focusId:days:)`: done over all instances of the window. */
  function StreakMomentum(h: History, focusId: string, now: Timestamp, days: nat): (r: real)
    ensures var xs := Window(h, Some(focusId), now, days);
      && 0.0 <= r <= 1.0
      && (|xs| == 0 ==> r == 0.0)
      && r * |xs| as real == |Completed(xs)| as real
  {
    CompletionRate(Window(h, Some(focusId), now, days))
  }

  /** `computeRecentPerformance(focusId:days:)`: the same ratio, used with a 3-day window. */
  function RecentPerformance(h: History, focusId: string, now: Timestamp, days: nat): (r: real)
    ensures var xs := Window(h, Some(focusId), now, days);
      && 0.0 <= r <= 1.0
      && (|xs| == 0 ==> r == 0.0)
      && r * |xs| as real == |Completed(xs)| as real
  {
    CompletionRate(Window(h, Some(focusId), now, days))
  }

  function HoursOfDay(): (r: seq<int>)
    ensures |r| == 24 && Distinct(r)
    ensures forall k :: 0 <= k < 24 ==> r[k] == k
    ensures forall hr :: hr in r <==> 0 <= hr < 24
  {
    var r := seq(24, k => k);
    assert forall hr :: 0 <= hr < 24 ==> r[hr] == hr;
    forall hr | hr in r ensures 0 <= hr < 24 {
      var i :| 0 <= i < |r| && r[i] == hr;
    }
    forall hr | 0 <= hr < 24 ensures hr in r {
      assert r[hr] == hr;
    }
    r
  }

  lemma TopOfFullDay(heat: map<int, real>, hours: seq<int>, key: int -> real)
    requires forall hr :: hr in heat <==> 0 <= hr < 24
    requires |hours| == 24 && Distinct(hours)
    requires forall hr :: hr in hours <==> 0 <= hr < 24
    requires forall hr :: 0 <= hr < 24 ==> key(hr) == heat[hr]
    ensures var r := SortDesc(hours, key)[..3];
      && |r| == 3 && Distinct(r)
      && (forall k :: 0 <= k < 3 ==> 0 <= r[k] < 24)
      && (forall j, k :: 0 <= j < k < 3 ==> heat[r[j]] >= heat[r[k]])
      && (forall hr, k :: 0 <= hr < 24 && hr !in r && 0 <= k < 3 ==> heat[hr] <= heat[r[k]])
  {
    SortedPrefixOfDistinct(hours, key, 3);
  }

  /** The first three hours of a full-day heatmap sorted by value, largest first. */
  function TopHours(heat: map<int, real>): (r: seq<int>)
    requires forall hr :: hr in heat <==> 0 <= hr < 24
    ensures |r| == 3 && Distinct(r)
    ensures forall k :: 0 <= k < 3 ==> 0 <= r[k] < 24
    ensures forall j, k :: 0 <= j < k < 3 ==> heat[r[j]] >= heat[r[k]]
    ensures forall hr, k :: 0 <= hr < 24 && hr !in r && 0 <= k < 3 ==> heat[hr] <= heat[r[k]]
  {
    var key := (hr: int) => if hr in heat then heat[hr] else 0.0;
    TopOfFullDay(heat, HoursOfDay(), key);
    SortDesc(HoursOfDay(), key)[..3]
  }

  /** `computePeakHours(days:)`: the three hours with the largest heatmap values over the
      instances of every focus. */
  function PeakHours(h: History, now: Timestamp, days: nat, hourOf: Timestamp -> Hour): (r: seq<int>)
    ensures var heat := TimeOfDayHeatmap(Window(h, None, now, days), hourOf);
      && |r| == 3 && Distinct(r)
      && (forall k :: 0 <= k < 3 ==> 0 <= r[k] < 24)
      && (forall j, k :: 0 <= j < k < 3 ==> heat[r[j]] >= heat[r[k]])
      && (forall hr, k :: 0 <= hr < 24 && hr !in r && 0 <= k < 3 ==> heat[hr] <= heat[r[k]])
  {
    TopHours(TimeOfDayHeatmap(Window(h, None, now, days), hourOf))
  }
}
