/** The week's progress rings of the overview screen (Elaro/ProgressOverviewScreen.swift). */
module ProgressOverviewScreen {
  import opened Wrappers
  import opened Models
  import opened Milestones

  datatype OverallStats = OverallStats(independentFrac: real, practicingFrac: real, introducedFrac: real)

  /** The child's records in `[start, end)` for milestones with one of the given ids. */
  function WeekRecords(progresses: seq<MilestoneProgress>, childId: string, start: Timestamp, end: Timestamp, ids: set<string>): seq<MilestoneProgress> {
    Filter(progresses, (p: MilestoneProgress) => InWeek(p, childId, start, end) && p.milestoneId in ids)
  }

  /** The distinct milestone ids of the records at `stage`. */
  function StageIds(records: seq<MilestoneProgress>, stage: Stage): set<string> {
    set p | p in records && p.stage == stage :: p.milestoneId
  }

  /** A stage's ids are the given milestones' ids that have a record at that stage for the
      child in the week, and so no more of them than there are milestones. */
  lemma StageIdsMembers(progresses: seq<MilestoneProgress>, childId: string, start: Timestamp, end: Timestamp, ms: seq<Milestone>, stage: Stage)
    ensures var s := StageIds(WeekRecords(progresses, childId, start, end, IdsOf(ms)), stage);
      && (forall id :: id in s <==>
            (exists m :: m in ms && m.id == id) &&
            (exists p :: p in progresses && InWeek(p, childId, start, end) && p.milestoneId == id && p.stage == stage))
      && |s| <= |ms|
  {
    var week := WeekRecords(progresses, childId, start, end, IdsOf(ms));
    FilterMembers(progresses, (p: MilestoneProgress) => InWeek(p, childId, start, end) && p.milestoneId in IdsOf(ms));
    var s := StageIds(week, stage);
    forall id | id in s ensures id in IdsOf(ms) {
      var p :| p in week && p.stage == stage && p.milestoneId == id;
    }
    forall id | (exists p :: p in progresses && InWeek(p, childId, start, end) && p.milestoneId == id && p.stage == stage) && id in IdsOf(ms)
      ensures id in s
    {
      var p :| p in progresses && InWeek(p, childId, start, end) && p.milestoneId == id && p.stage == stage;
      assert p in week;
    }
    IdsBound(ms);
    SubsetBound(s, IdsOf(ms));
  }

  /** One ring of `overallStats()`: the stage's distinct ids over `max(1, count)`. */
  function StageFrac(progresses: seq<MilestoneProgress>, childId: string, start: Timestamp, ms: seq<Milestone>, stage: Stage): (r: real)
    ensures 0.0 <= r <= 1.0
    ensures r * (if |ms| > 1 then |ms| else 1) as real == |StageIds(WeekRecords(progresses, childId, start, WeekEnd(start), IdsOf(ms)), stage)| as real
  {
    StageIdsMembers(progresses, childId, start, WeekEnd(start), ms, stage);
    var total := if |ms| > 1 then |ms| else 1;
    Ratio(|StageIds(WeekRecords(progresses, childId, start, WeekEnd(start), IdsOf(ms)), stage)|, total)
  }

  /** `overallStats()` for the week starting at `start`: nothing without a child; otherwise
      each stage's share of the shown milestones, each in `[0, 1]`. */
  function OverallStatsOf(settings: Option<AppSettings>, children: seq<ChildProfile>, milestones: seq<Milestone>,
                          progresses: seq<MilestoneProgress>, start: Timestamp): (r: OverallStats)
    ensures SelectedChild(settings, children).None? ==> r == OverallStats(0.0, 0.0, 0.0)
    ensures 0.0 <= r.independentFrac <= 1.0 && 0.0 <= r.practicingFrac <= 1.0 && 0.0 <= r.introducedFrac <= 1.0
    ensures SelectedChild(settings, children).Some? ==>
      var id := SelectedChild(settings, children).value.id;
      var shown := FilteredMilestones(settings, milestones);
      && r.independentFrac == StageFrac(progresses, id, start, shown, Independent)
      && r.practicingFrac == StageFrac(progresses, id, start, shown, Practicing)
      && r.introducedFrac == StageFrac(progresses, id, start, shown, Introduced)
  {
    match SelectedChild(settings, children)
    case None => OverallStats(0.0, 0.0, 0.0)
    case Some(child) =>
      var filtered := FilteredMilestones(settings, milestones);
      OverallStats(StageFrac(progresses, child.id, start, filtered, Independent),
                   StageFrac(progresses, child.id, start, filtered, Practicing),
                   StageFrac(progresses, child.id, start, filtered, Introduced))
  }

  /** With no milestone shown every ring is empty, though the denominator stays 1. */
  lemma NoMilestonesNoProgress(settings: Option<AppSettings>, children: seq<ChildProfile>,
                               progresses: seq<MilestoneProgress>, start: Timestamp)
    ensures OverallStatsOf(settings, children, [], progresses, start) == OverallStats(0.0, 0.0, 0.0)
  {
    if SelectedChild(settings, children).Some? {
      var child := SelectedChild(settings, children).value;
      var filtered := FilteredMilestones(settings, []);
      assert |Filter([], (m: Milestone) => true)| == 0;
      assert |filtered| == 0;
      StageIdsMembers(progresses, child.id, start, WeekEnd(start), filtered, Independent);
      StageIdsMembers(progresses, child.id, start, WeekEnd(start), filtered, Practicing);
      StageIdsMembers(progresses, child.id, start, WeekEnd(start), filtered, Introduced);
    }
  }

  /** The shown milestones of one category. */
  function InCategory(ms: seq<Milestone>, cat: string): seq<Milestone> {
    Filter(ms, (m: Milestone) => m.category == cat)
  }

  /** The share of `ms` the child did independently in the week, 0 for no milestones. */
  function IndependentShare(progresses: seq<MilestoneProgress>, childId: string, start: Timestamp, ms: seq<Milestone>): (r: real)
    ensures 0.0 <= r <= 1.0
    ensures ms == [] ==> r == 0.0
    ensures r * |ms| as real == |StageIds(WeekRecords(progresses, childId, start, WeekEnd(start), IdsOf(ms)), Independent)| as real
  {
    StageIdsMembers(progresses, childId, start, WeekEnd(start), ms, Independent);
    if ms == [] then 0.0
    else Ratio(|StageIds(WeekRecords(progresses, childId, start, WeekEnd(start), IdsOf(ms)), Independent)|, |ms|)
  }

  /** `categoryFrac(_:)` for the week starting at `start`: the share of the category's shown
      milestones the child did independently; 0 without a child or for an empty category. */
  function CategoryFrac(settings: Option<AppSettings>, children: seq<ChildProfile>, milestones: seq<Milestone>,
                        progresses: seq<MilestoneProgress>, start: Timestamp, cat: string): (r: real)
    ensures SelectedChild(settings, children).None? ==> r == 0.0
    ensures InCategory(FilteredMilestones(settings, milestones), cat) == [] ==> r == 0.0
    ensures 0.0 <= r <= 1.0
    ensures SelectedChild(settings, children).Some? ==>
      r == IndependentShare(progresses, SelectedChild(settings, children).value.id, start, InCategory(FilteredMilestones(settings, milestones), cat))
  {
    match SelectedChild(settings, children)
    case None => 0.0
    case Some(child) =>
      var ms := InCategory(FilteredMilestones(settings, milestones), cat);
      if ms == [] then 0.0 else IndependentShare(progresses, child.id, start, ms)
  }
}
