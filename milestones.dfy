/** The milestone checklist records the two progress screens read: children, milestones,
    the weekly stage records, and the settings that pick a child and focus modes. */
module Milestones {
  import opened Wrappers
  import opened Models

  datatype Stage = Introduced | Practicing | Independent

  datatype Milestone = Milestone(id: string, title: string, kind: string, category: string)

  datatype ChildProfile = ChildProfile(id: string, name: string)

  /** A focus mode of the settings, with the milestone kinds it shows. */
  datatype FocusMode = FocusMode(id: string, allowedKinds: seq<string>)

  datatype AppSettings = AppSettings(selectedChildID: Option<string>, selectedModes: seq<FocusMode>)

  /** The stage a child reached on a milestone in the week starting at `weekOf`. */
  datatype MilestoneProgress = MilestoneProgress(childId: string, milestoneId: string, stage: Stage, weekOf: Timestamp)

  /** `filter`, keeping order. */
  function Filter<T>(s: seq<T>, p: T -> bool): (r: seq<T>)
    ensures |r| <= |s|
  {
    if s == [] then [] else Filter(s[..|s| - 1], p) + (if p(s[|s| - 1]) then [s[|s| - 1]] else [])
  }

  lemma {:induction false} FilterMembers<T>(s: seq<T>, p: T -> bool)
    ensures forall x :: x in Filter(s, p) <==> x in s && p(x)
    decreases |s|
  {
    if s != [] {
      FilterMembers(s[..|s| - 1], p);
      assert s == s[..|s| - 1] + [s[|s| - 1]];
    }
  }

  /** Filtering works piecewise, so the kept elements stay in their original order. */
  lemma {:induction false} FilterAppend<T>(s: seq<T>, t: seq<T>, p: T -> bool)
    ensures Filter(s + t, p) == Filter(s, p) + Filter(t, p)
    decreases |t|
  {
    if t != [] {
      var init := t[..|t| - 1];
      var last := t[|t| - 1];
      assert (s + t)[..|s + t| - 1] == s + init;
      assert (s + t)[|s + t| - 1] == last;
      FilterAppend(s, init, p);
      calc {
        Filter(s + t, p);
        Filter(s + init, p) + (if p(last) then [last] else []);
        Filter(s, p) + Filter(init, p) + (if p(last) then [last] else []);
        Filter(s, p) + Filter(t, p);
      }
    } else {
      assert s + t == s;
    }
  }

  /** The union of the allowed kinds of the selected modes. */
  function AllowedKinds(modes: seq<FocusMode>): (r: set<string>)
    ensures forall k :: k in r <==> exists i :: 0 <= i < |modes| && k in modes[i].allowedKinds
  {
    set i, k | 0 <= i < |modes| && k in modes[i].allowedKinds :: k
  }

  /** `filteredMilestones`: all milestones when no settings exist or no mode is selected,
      otherwise those of an allowed kind. */
  function FilteredMilestones(settings: Option<AppSettings>, all: seq<Milestone>): seq<Milestone> {
    if settings.None? || settings.value.selectedModes == [] then all
    else Filter(all, (m: Milestone) => m.kind in AllowedKinds(settings.value.selectedModes))
  }

  /** The mode filter keeps all milestones without modes, and otherwise exactly those whose
      kind some selected mode allows. */
  lemma FilteredMilestonesMembers(settings: Option<AppSettings>, all: seq<Milestone>)
    ensures settings.None? || settings.value.selectedModes == [] ==> FilteredMilestones(settings, all) == all
    ensures settings.Some? && settings.value.selectedModes != [] ==>
      forall m :: m in FilteredMilestones(settings, all) <==>
        m in all && exists i :: 0 <= i < |settings.value.selectedModes| && m.kind in settings.value.selectedModes[i].allowedKinds
  {
    if settings.Some? && settings.value.selectedModes != [] {
      FilterMembers(all, (m: Milestone) => m.kind in AllowedKinds(settings.value.selectedModes));
    }
  }

  /** `children.first(where: { $0.id == id })` */
  function FirstWithId(children: seq<ChildProfile>, id: string): (r: Option<ChildProfile>)
    ensures r.None? <==> forall k :: 0 <= k < |children| ==> children[k].id != id
    ensures r.Some? ==> exists k :: 0 <= k < |children| && children[k] == r.value && r.value.id == id
                                && forall j :: 0 <= j < k ==> children[j].id != id
  {
    if children == [] then None
    else if children[0].id == id then Some(children[0])
    else
      var r := FirstWithId(children[1..], id);
      assert forall j :: 1 <= j < |children| ==> children[j] == children[1..][j - 1];
      r
  }

  /** `selectedChild`: the first child when no child is chosen, otherwise the chosen child,
      which may no longer exist. */
  function SelectedChild(settings: Option<AppSettings>, children: seq<ChildProfile>): (r: Option<ChildProfile>)
    ensures (settings.None? || settings.value.selectedChildID.None?) ==>
              r == (if children == [] then None else Some(children[0]))
    ensures settings.Some? && settings.value.selectedChildID.Some? ==>
              (r.None? <==> forall k :: 0 <= k < |children| ==> children[k].id != settings.value.selectedChildID.value)
    ensures settings.Some? && settings.value.selectedChildID.Some? && r.Some? ==>
              r.value in children && r.value.id == settings.value.selectedChildID.value
  {
    if settings.None? || settings.value.selectedChildID.None? then
      if children == [] then None else Some(children[0])
    else FirstWithId(children, settings.value.selectedChildID.value)
  }

  /** The record is the child's and falls in `[start, end)`. */
  predicate InWeek(p: MilestoneProgress, childId: string, start: Timestamp, end: Timestamp) {
    p.childId == childId && start <= p.weekOf < end
  }

  /** The end of the seven days from `start`. */
  function WeekEnd(start: Timestamp): Timestamp {
    start + 7 * SecondsPerDay
  }

  /** `Set(ms.map { $0.id })` */
  function IdsOf(ms: seq<Milestone>): (r: set<string>)
    ensures forall id :: id in r <==> exists m :: m in ms && m.id == id
  {
    set m | m in ms :: m.id
  }

  /** There are no more distinct ids than milestones. */
  lemma {:induction false} IdsBound(ms: seq<Milestone>)
    ensures |IdsOf(ms)| <= |ms|
    decreases |ms|
  {
    if ms != [] {
      var init := ms[..|ms| - 1];
      IdsBound(init);
      assert ms == init + [ms[|ms| - 1]];
      assert IdsOf(ms) == IdsOf(init) + {ms[|ms| - 1].id};
    }
  }

  /** A set inside another is no larger. */
  lemma SubsetBound<T>(a: set<T>, b: set<T>)
    requires a <= b
    ensures |a| <= |b|
  {
    assert b == a + (b - a);
  }
}
