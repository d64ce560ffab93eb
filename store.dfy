/** The record store (Elaro/FocusStore.swift): the fetches the engines use, as functions
    over a snapshot of the records, and the writes, as methods of a class. */
module Store {
  import opened Wrappers
  import opened Models

  /** What the store holds at the moment an engine is asked; fetch failures read as empty. */
  datatype History = History(
    templates: seq<ActionTemplate>,
    instances: seq<ActionInstance>,
    focuses: map<string, FocusArea>)

  /** `actions(for: focusId)` */
  function ActionsFor(templates: seq<ActionTemplate>, focusId: string): (r: seq<ActionTemplate>)
    ensures |r| <= |templates|
  {
    if templates == [] then []
    else (if templates[0].focusId == focusId then [templates[0]] else []) + ActionsFor(templates[1..], focusId)
  }

  /** The fetched templates are exactly those of the focus. */
  lemma {:induction false} ActionsForMembers(templates: seq<ActionTemplate>, focusId: string)
    ensures forall t :: t in ActionsFor(templates, focusId) <==> t in templates && t.focusId == focusId
  {
    if templates != [] {
      ActionsForMembers(templates[1..], focusId);
      assert templates == [templates[0]] + templates[1..];
    }
  }

  /** `actionInstances(in: DateInterval(start, end), focusId:)`: both ends are included. */
  function InstancesIn(xs: seq<ActionInstance>, start: Timestamp, end: Timestamp, focusId: Option<string>): (r: seq<ActionInstance>)
    ensures |r| <= |xs|
  {
    if xs == [] then []
    else
      var x := xs[0];
      (if start <= x.date <= end && (focusId.Some? ==> x.focusId == focusId.value) then [x] else [])
      + InstancesIn(xs[1..], start, end, focusId)
  }

  /** The fetched instances are exactly those dated in `[start, end]` (of the focus, if one is given). */
  lemma {:induction false} InstancesInMembers(xs: seq<ActionInstance>, start: Timestamp, end: Timestamp, focusId: Option<string>)
    ensures forall i :: i in InstancesIn(xs, start, end, focusId) <==>
      i in xs && start <= i.date <= end && (focusId.Some? ==> i.focusId == focusId.value)
  {
    if xs != [] {
      InstancesInMembers(xs[1..], start, end, focusId);
      assert xs == [xs[0]] + xs[1..];
    }
  }

  /** `Calendar.current.date(byAdding: .day, value: -days, to: now)` on a fixed-length day. */
  function DaysBefore(now: Timestamp, days: nat): Timestamp {
    now - days * SecondsPerDay
  }

  /** The instances of the last `days` days up to `now`, of one focus or (None) of all. */
  function Window(h: History, focusId: Option<string>, now: Timestamp, days: nat): seq<ActionInstance> {
    InstancesIn(h.instances, DaysBefore(now, days), now, focusId)
  }

  /** `focus(by: id)` */
  function FocusById(focuses: map<string, FocusArea>, id: string): Option<FocusArea> {
    if id in focuses then Some(focuses[id]) else None
  }

  /** The store's write side. Each focus area and summary is keyed by its unique id. */
  class FocusStore {
    var templates: seq<ActionTemplate>
    var instances: seq<ActionInstance>
    var focuses: map<string, FocusArea>
    var summaries: map<string, WeeklySummary>

    /** Focus areas and summaries are each stored under their own unique `id`. */
    ghost predicate Valid()
      reads this
    {
      && (forall k :: k in focuses ==> focuses[k].id == k)
      && (forall k :: k in summaries ==> summaries[k].id == k)
    }

    constructor (templates: seq<ActionTemplate>, instances: seq<ActionInstance>, focuses: map<string, FocusArea>)
      requires forall k :: k in focuses ==> focuses[k].id == k
      ensures Valid()
      ensures this.templates == templates && this.instances == instances && this.focuses == focuses
      ensures summaries == map[]
    {
      this.templates := templates;
      this.instances := instances;
      this.focuses := focuses;
      this.summaries := map[];
    }

    /** The records as a fetch sees them now. */
    function Snapshot(): History
      reads this
    {
      History(templates, instances, focuses)
    }

    /** `save(summary:)`: an insert keyed by the unique `id`, so a second save with the
        same id replaces the first. */
    method SaveSummary(s: WeeklySummary)
      requires Valid()
      modifies this
      ensures Valid()
      ensures summaries == old(summaries)[s.id := s]
      ensures templates == old(templates) && instances == old(instances) && focuses == old(focuses)
    {
      summaries := summaries[s.id := s];
    }

    /** `updateBuildingBlocks(for:blocks:)`: does nothing for an unknown focus. */
    method UpdateBuildingBlocks(focusId: string, blocks: seq<BuildingBlock>)
      requires Valid()
      modifies this
      ensures Valid()
      ensures focuses == if focusId in old(focuses)
                         then old(focuses)[focusId := old(focuses)[focusId].(buildingBlocks := blocks)]
                         else old(focuses)
      ensures templates == old(templates) && instances == old(instances) && summaries == old(summaries)
    {
      if focusId in focuses {
        focuses := focuses[focusId := focuses[focusId].(buildingBlocks := blocks)];
      }
    }

    /** `updatePinnedMicroSkills(for:pinnedTitles:)`: does nothing for an unknown focus. */
    method UpdatePinnedMicroSkills(focusId: string, pinnedTitles: seq<string>)
      requires Valid()
      modifies this
      ensures Valid()
      ensures focuses == if focusId in old(focuses)
                         then old(focuses)[focusId := old(focuses)[focusId].(pinnedMicroSkillTitles := pinnedTitles)]
                         else old(focuses)
      ensures templates == old(templates) && instances == old(instances) && summaries == old(summaries)
    {
      if focusId in focuses {
        focuses := focuses[focusId := focuses[focusId].(pinnedMicroSkillTitles := pinnedTitles)];
      }
    }
  }
}
