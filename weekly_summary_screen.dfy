/** The per-category rows of the weekly summary screen (Elaro/WeeklySummaryScreen.swift). */
module WeeklySummaryScreen {
  import opened Wrappers
  import opened Models
  import opened Milestones
  import opened ProgressOverviewScreen

  datatype CategoryStats = CategoryStats(pct: real, independent: int, total: int)

  /** The child's records of the seven days from `start`. */
  function CurrentWeek(progresses: seq<MilestoneProgress>, childId: string, start: Timestamp): seq<MilestoneProgress> {
    Filter(progresses, (p: MilestoneProgress) => InWeek(p, childId, start, WeekEnd(start)))
  }

  /** `byMilestone[m.id]?.contains(where: { $0.stage == .independent }) ?? false` */
  predicate IsIndependentIn(m: Milestone, week: seq<MilestoneProgress>) {
    exists k :: 0 <= k < |week| && week[k].milestoneId == m.id && week[k].stage == Independent
  }

  /** The `reduce` over the category's milestones: how many were done independently. */
  function CountIndependent(ms: seq<Milestone>, week: seq<MilestoneProgress>): (n: nat)
    ensures n <= |ms|
  {
    if ms == [] then 0
    else CountIndependent(ms[..|ms| - 1], week) + (if IsIndependentIn(ms[|ms| - 1], week) then 1 else 0)
  }

  /** The count reaches the total exactly when every milestone was done independently, and
      is 0 exactly when none was. */
  lemma {:induction false} CountIndependentExtremes(ms: seq<Milestone>, week: seq<MilestoneProgress>)
    ensures CountIndependent(ms, week) == |ms| <==> forall k :: 0 <= k < |ms| ==> IsIndependentIn(ms[k], week)
    ensures CountIndependent(ms, week) == 0 <==> forall k :: 0 <= k < |ms| ==> !IsIndependentIn(ms[k], week)
    decreases |ms|
  {
    if ms != [] {
      var init := ms[..|ms| - 1];
      CountIndependentExtremes(init, week);
      assert forall k :: 0 <= k < |init| ==> init[k] == ms[k];
    }
  }

  /** A row of `part` out of `total` milestones. */
  function Share(part: nat, total: nat): (r: CategoryStats)
    requires part <= total && total > 0
    ensures r.independent == part && r.total == total
    ensures r.pct * r.total as real == r.independent as real && 0.0 <= r.pct <= 1.0
  {
    CategoryStats(Ratio(part, total), part, total)
  }

  /** `categoryStats(_:)` for the week starting at `start`: nothing for an empty category or
      without a child; otherwise the category's size, how many of its milestones the child
      did independently, and their share. */
  function CategoryStatsOf(settings: Option<AppSettings>, children: seq<ChildProfile>, milestones: seq<Milestone>,
                           progresses: seq<MilestoneProgress>, start: Timestamp, cat: string): (r: CategoryStats)
    ensures var ms := InCategory(FilteredMilestones(settings, milestones), cat);
      (ms == [] || SelectedChild(settings, children).None?) ==> r == CategoryStats(0.0, 0, 0)
    ensures var ms := InCategory(FilteredMilestones(settings, milestones), cat);
      ms != [] && SelectedChild(settings, children).Some? ==>
        && r.total == |ms|
        && r.independent == CountIndependent(ms, CurrentWeek(progresses, SelectedChild(settings, children).value.id, start))
        && r.pct * r.total as real == r.independent as real
    ensures 0 <= r.independent <= r.total && 0.0 <= r.pct <= 1.0
  {
    var ms := InCategory(FilteredMilestones(settings, milestones), cat);
    match SelectedChild(settings, children)
    case None => CategoryStats(0.0, 0, 0)
    case Some(child) =>
      if ms == [] then CategoryStats(0.0, 0, 0)
      else
        var independentCount := CountIndependent(ms, CurrentWeek(progresses, child.id, start));
        Share(independentCount, |ms|)
  }

  /** No two of the milestones share an id. */
  predicate DistinctIds(ms: seq<Milestone>) {
    forall i, j :: 0 <= i < j < |ms| ==> ms[i].id != ms[j].id
  }

  /** The ids of the milestones done independently in the week. */
  function IndependentIds(ms: seq<Milestone>, week: seq<MilestoneProgress>): set<string> {
    set m | m in ms && IsIndependentIn(m, week) :: m.id
  }

  /** With distinct ids, counting milestones and counting their ids agree. */
  lemma {:induction false} IndependentIdsCount(ms: seq<Milestone>, week: seq<MilestoneProgress>)
    requires DistinctIds(ms)
    ensures |IndependentIds(ms, week)| == CountIndependent(ms, week)
    decreases |ms|
  {
    if ms != [] {
      var init := ms[..|ms| - 1];
      var last := ms[|ms| - 1];
      assert ms == init + [last];
      assert DistinctIds(init) by {
        forall i, j | 0 <= i < j < |init| ensures init[i].id != init[j].id {
          assert init[i] == ms[i] && init[j] == ms[j];
        }
      }
      IndependentIdsCount(init, week);
      assert last.id !in IndependentIds(init, week) by {
        forall m | m in init ensures m.id != last.id {
          var i :| 0 <= i < |init| && init[i] == m;
          assert ms[i] == m;
        }
      }
      IndependentIdsSnoc(init, last, week);
    }
  }

  /** Appending a milestone adds its id exactly when it was done independently. */
  lemma IndependentIdsSnoc(init: seq<Milestone>, last: Milestone, week: seq<MilestoneProgress>)
    ensures IndependentIds(init + [last], week)
         == IndependentIds(init, week) + (if IsIndependentIn(last, week) then {last.id} else {})
  {
    var ms := init + [last];
    forall m | m in ms ensures m in init || m == last {
    }
  }

  /** The overview's distinct-id set is the set of ids of the milestones done independently. */
  lemma StageIdsAreIndependentIds(progresses: seq<MilestoneProgress>, childId: string, start: Timestamp, ms: seq<Milestone>)
    ensures StageIds(WeekRecords(progresses, childId, start, WeekEnd(start), IdsOf(ms)), Independent)
         == IndependentIds(ms, CurrentWeek(progresses, childId, start))
  {
    var week := CurrentWeek(progresses, childId, start);
    StageIdsMembers(progresses, childId, start, WeekEnd(start), ms, Independent);
    FilterMembers(progresses, (p: MilestoneProgress) => InWeek(p, childId, start, WeekEnd(start)));
    var a := StageIds(WeekRecords(progresses, childId, start, WeekEnd(start), IdsOf(ms)), Independent);
    var b := IndependentIds(ms, week);
    forall id | id in a ensures id in b {
      var m :| m in ms && m.id == id;
      var p :| p in progresses && InWeek(p, childId, start, WeekEnd(start)) && p.milestoneId == id && p.stage == Independent;
      assert p in week;
      var k :| 0 <= k < |week| && week[k] == p;
      assert IsIndependentIn(m, week);
    }
    forall id | id in b ensures id in a {
      var m :| m in ms && IsIndependentIn(m, week) && m.id == id;
      var k :| 0 <= k < |week| && week[k].milestoneId == m.id && week[k].stage == Independent;
      assert week[k] in progresses;
    }
  }

  /** When milestone ids are unique, the overview's category ring and the summary's
      percentage are the same number, although one counts distinct ids and the other
      counts milestones. */
  lemma SummaryAgreesWithOverview(settings: Option<AppSettings>, children: seq<ChildProfile>, milestones: seq<Milestone>,
                                  progresses: seq<MilestoneProgress>, start: Timestamp, cat: string)
    requires DistinctIds(InCategory(FilteredMilestones(settings, milestones), cat))
    ensures CategoryStatsOf(settings, children, milestones, progresses, start, cat).pct
         == CategoryFrac(settings, children, milestones, progresses, start, cat)
  {
    var ms := InCategory(FilteredMilestones(settings, milestones), cat);
    if SelectedChild(settings, children).Some? && ms != [] {
      var child := SelectedChild(settings, children).value;
      StageIdsAreIndependentIds(progresses, child.id, start, ms);
      IndependentIdsCount(ms, CurrentWeek(progresses, child.id, start));
      var r := CategoryStatsOf(settings, children, milestones, progresses, start, cat);
      var f := IndependentShare(progresses, child.id, start, ms);
      assert r.pct * |ms| as real == f * |ms| as real;
      MulCancel(r.pct, f, |ms| as real);
    }
  }

  lemma MulCancel(a: real, b: real, t: real)
    requires t > 0.0 && a * t == b * t
    ensures a == b
  {
  }
}
