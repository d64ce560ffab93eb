/** The building blocks and pinned micro-skills of a focus area (Elaro/FocusPlanner.swift). */
module FocusPlanner {
  import opened Wrappers
  import opened Text
  import opened Models
  import opened Store
  import opened Sorting
  import opened Counting

  // ---------------------------------------------------------------------------
  // Building blocks

  function Block(blockType: string, title: string, desc: string, tags: seq<string>): BuildingBlock {
    BuildingBlock(blockType, title, Some(desc), tags)
  }

  /** The three-part plan types in the order every plan lists them. */
  predicate IsStandardPlan(blocks: seq<BuildingBlock>) {
    |blocks| == 3 && blocks[0].blockType == "microSkill" && blocks[1].blockType == "ritual" && blocks[2].blockType == "support"
  }

  /** `getDefaultBuildingBlocks(for:)`: a plan for the two known focus areas, a generic one otherwise. */
  function DefaultBuildingBlocks(focusId: string): (r: seq<BuildingBlock>)
    ensures IsStandardPlan(r)
    ensures focusId != "independence" && focusId != "emotion_skills" ==> forall k :: 0 <= k < 3 ==> r[k].tags == []
  {
    match focusId
    case "independence" =>
      [ Block("microSkill", "Try first, ask for help after", "Wait time invites initiative", ["initiative"]),
        Block("ritual", "Weekend outfit choice", "Regular practice builds confidence", ["choice_making"]),
        Block("support", "Lay out two options", "Structure without control", ["choice_making"]) ]
    case "emotion_skills" =>
      [ Block("microSkill", "Name 3 feelings", "Build emotional vocabulary", ["labeling"]),
        Block("ritual", "Feelings check\U{2011}in at dinner", "Regular practice in calm moments", ["labeling"]),
        Block("support", "Visual chart", "Reference tool for naming feelings", ["labeling"]) ]
    case _ =>
      [ Block("microSkill", "Practice core skill", "Build foundational competence", []),
        Block("ritual", "Regular practice", "Consistent daily routine", []),
        Block("support", "Supportive environment", "Set up for success", []) ]
  }

  /** `getBuildingBlocks(for:)`: the stored plan, or the default one for an unknown focus. */
  function GetBuildingBlocks(focuses: map<string, FocusArea>, focusId: string): (r: seq<BuildingBlock>)
    ensures focusId in focuses ==> r == focuses[focusId].buildingBlocks
    ensures focusId !in focuses ==> IsStandardPlan(r) && r == DefaultBuildingBlocks(focusId)
  {
    match FocusById(focuses, focusId)
    case Some(focus) => focus.buildingBlocks
    case None => DefaultBuildingBlocks(focusId)
  }

  /** `updateBuildingBlock(for:at:block:)`: replaces one block of a known focus area's plan;
      an index past the end, or an unknown focus, writes nothing. A negative index traps in
      the source, so it is excluded. */
  method UpdateBuildingBlock(store: FocusStore, focusId: string, index: int, block: BuildingBlock)
    requires 0 <= index && store.Valid()
    modifies store
    ensures store.Valid()
    ensures focusId in old(store.focuses) && index < |old(store.focuses)[focusId].buildingBlocks| ==>
              store.focuses == old(store.focuses)[focusId := old(store.focuses)[focusId].(buildingBlocks := old(store.focuses)[focusId].buildingBlocks[index := block])]
    ensures !(focusId in old(store.focuses) && index < |old(store.focuses)[focusId].buildingBlocks|) ==>
              store.focuses == old(store.focuses)
    ensures store.templates == old(store.templates) && store.instances == old(store.instances)
    ensures store.summaries == old(store.summaries)
  {
    var blocks := GetBuildingBlocks(store.focuses, focusId);
    if index >= |blocks| {
      return;
    }
    blocks := blocks[index := block];
    store.UpdateBuildingBlocks(focusId, blocks);
  }

  /** Replacing one block keeps the plan's length and every other block. */
  lemma UpdateTouchesOneBlock(blocks: seq<BuildingBlock>, index: nat, block: BuildingBlock)
    requires index < |blocks|
    ensures |blocks[index := block]| == |blocks|
    ensures forall k :: 0 <= k < |blocks| && k != index ==> blocks[index := block][k] == blocks[k]
    ensures blocks[index := block][index] == block
  {
  }

  // ---------------------------------------------------------------------------
  // Pins

  /** `getPinnedMicroSkills(for:)`: none for an unknown focus. */
  function GetPinnedMicroSkills(focuses: map<string, FocusArea>, focusId: string): (r: seq<string>)
    ensures focusId !in focuses ==> r == []
    ensures focusId in focuses ==> r == focuses[focusId].pinnedMicroSkillTitles
  {
    match FocusById(focuses, focusId)
    case Some(focus) => focus.pinnedMicroSkillTitles
    case None => []
  }

  /** `removeAll { $0 == x }` */
  function RemoveAll(s: seq<string>, x: string): (r: seq<string>)
    ensures x !in r
    ensures forall y :: y != x ==> Occurrences(r, y) == Occurrences(s, y)
    ensures |r| <= |s|
  {
    if s == [] then []
    else
      var init := s[..|s| - 1];
      var last := s[|s| - 1];
      assert s == init + [last];
      var rest := RemoveAll(init, x);
      forall y | y != x ensures Occurrences(rest + (if last == x then [] else [last]), y) == Occurrences(s, y) {
        OccurrencesAppend(rest, if last == x then [] else [last], y);
        OccurrencesAppend(init, [last], y);
      }
      rest + (if last == x then [] else [last])
  }

  /** Removing a title that is not there changes nothing. */
  lemma {:induction false} RemoveAbsent(s: seq<string>, x: string)
    requires x !in s
    ensures RemoveAll(s, x) == s
    decreases |s|
  {
    if s != [] {
      assert s == s[..|s| - 1] + [s[|s| - 1]];
      RemoveAbsent(s[..|s| - 1], x);
    }
  }

  /** The pin list after `togglePin`: a pinned title is unpinned everywhere it occurs, an
      unpinned one is appended. */
  function Toggled(pins: seq<string>, title: string): (r: seq<string>)
    ensures title in pins ==> title !in r
    ensures title !in pins ==> r == pins + [title]
    ensures forall y :: y != title ==> Occurrences(r, y) == Occurrences(pins, y)
  {
    if title in pins then RemoveAll(pins, title)
    else
      forall y | y != title ensures Occurrences(pins + [title], y) == Occurrences(pins, y) {
        OccurrencesAppend(pins, [title], y);
      }
      pins + [title]
  }

  /** Pinning a title and unpinning it again restores the list. */
  lemma ToggleTwiceRestores(pins: seq<string>, title: string)
    requires title !in pins
    ensures Toggled(Toggled(pins, title), title) == pins
  {
    var once := pins + [title];
    assert title in once;
    assert once[..|once| - 1] == pins;
    RemoveAbsent(pins, title);
  }

  /** A toggle flips the title's membership and keeps every other title's. */
  lemma ToggleFlipsMembership(pins: seq<string>, title: string, y: string)
    ensures y in Toggled(pins, title) <==> (if y == title then title !in pins else y in pins)
  {
    if y != title {
      assert Occurrences(Toggled(pins, title), y) == Occurrences(pins, y);
    }
  }

  /** `togglePin(for:title:)`: toggles the title in a known focus area's pins; an unknown focus
      stays unknown, since the store ignores updates for it. */
  method TogglePin(store: FocusStore, focusId: string, title: string)
    requires store.Valid()
    modifies store
    ensures store.Valid()
    ensures focusId in old(store.focuses) ==>
              store.focuses == old(store.focuses)[focusId := old(store.focuses)[focusId].(pinnedMicroSkillTitles := Toggled(old(store.focuses)[focusId].pinnedMicroSkillTitles, title))]
    ensures focusId !in old(store.focuses) ==> store.focuses == old(store.focuses)
    ensures store.templates == old(store.templates) && store.instances == old(store.instances)
    ensures store.summaries == old(store.summaries)
  {
    var pinnedTitles := GetPinnedMicroSkills(store.focuses, focusId);
    if title in pinnedTitles {
      pinnedTitles := RemoveAll(pinnedTitles, title);
    } else {
      pinnedTitles := pinnedTitles + [title];
    }
    store.UpdatePinnedMicroSkills(focusId, pinnedTitles);
  }

  // ---------------------------------------------------------------------------
  // Titles and descriptions derived from a tag

  /** A tag with its underscores read as spaces, as the fallback texts show it. */
  function Spoken(tag: string): (r: string)
    ensures '_' !in r
  {
    ReplaceUnderscores(tag)
  }

  /** The tags the planner has its own wording for. */
  datatype KnownTag = ChoiceMaking | Initiative | Sequencing | Labeling | CoRegulation | Repair

  function KnownTagOf(tag: string): Option<KnownTag> {
    match tag
    case "choice_making" => Some(ChoiceMaking)
    case "initiative" => Some(Initiative)
    case "sequencing" => Some(Sequencing)
    case "labeling" => Some(Labeling)
    case "co_regulation" => Some(CoRegulation)
    case "repair" => Some(Repair)
    case _ => None
  }

  /** Title of a micro-skill block; an unknown tag is practised by name. */
  function MicroSkillTitle(tag: string): (r: string)
    ensures !IsKnownTag(tag) ==> Contains(r, Spoken(tag))
  {
    match KnownTagOf(tag)
    case Some(ChoiceMaking) => "Make simple choices"
    case Some(Initiative) => "Try first, ask for help after"
    case Some(Sequencing) => "Follow 2-step sequences"
    case Some(Labeling) => "Name feelings"
    case Some(CoRegulation) => "Co-regulate with breathing"
    case Some(Repair) => "Simple repair script"
    case None =>
      ContainsMiddle("Practice ", Spoken(tag), "");
      assert "Practice " + Spoken(tag) + "" == "Practice " + Spoken(tag);
      "Practice " + Spoken(tag)
  }

  /** Description of a micro-skill block; an unknown tag is named in it. */
  function MicroSkillDescription(tag: string): (r: string)
    ensures !IsKnownTag(tag) ==> Contains(r, Spoken(tag))
  {
    match KnownTagOf(tag)
    case Some(ChoiceMaking) => "Build autonomy through structured choices"
    case Some(Initiative) => "Wait time invites problem-solving"
    case Some(Sequencing) => "Sequential thinking builds executive function"
    case Some(Labeling) => "Emotional vocabulary supports regulation"
    case Some(CoRegulation) => "Shared calm creates safety"
    case Some(Repair) => "Repair builds trust and resilience"
    case None =>
      ContainsMiddle("Develop core competence in ", Spoken(tag), "");
      assert "Develop core competence in " + Spoken(tag) + "" == "Develop core competence in " + Spoken(tag);
      "Develop core competence in " + Spoken(tag)
  }

  /** Title of a ritual block; an unknown tag is named in it. */
  function RitualTitle(tag: string): (r: string)
    ensures !IsKnownTag(tag) ==> Contains(r, Spoken(tag))
  {
    match KnownTagOf(tag)
    case Some(ChoiceMaking) => "Daily choice ritual"
    case Some(Initiative) => "Morning independence routine"
    case Some(Sequencing) => "Evening sequence practice"
    case Some(Labeling) => "Feelings check-in at dinner"
    case Some(CoRegulation) => "Calm connection time"
    case Some(Repair) => "Repair and reconnect ritual"
    case None =>
      ContainsMiddle("Regular ", Spoken(tag), " practice");
      "Regular " + Spoken(tag) + " practice"
  }

  /** Description of a ritual block; unknown tags share one wording. */
  function RitualDescription(tag: string): (r: string)
    ensures |r| > 0
  {
    match KnownTagOf(tag)
    case Some(ChoiceMaking) => "Regular practice builds confidence"
    case Some(Initiative) => "Consistent routine supports independence"
    case Some(Sequencing) => "Daily practice strengthens executive function"
    case Some(Labeling) => "Regular practice in calm moments"
    case Some(CoRegulation) => "Scheduled connection time"
    case Some(Repair) => "Regular repair practice"
    case None => "Consistent practice builds competence"
  }

  /** Every tag without wording of its own gets the same ritual description. */
  lemma FallbackRitualDescriptionShared(tag: string, other: string)
    requires !IsKnownTag(tag) && !IsKnownTag(other)
    ensures RitualDescription(tag) == RitualDescription(other)
  {
  }

  /** Title of a support block; an unknown tag is named in it. */
  function SupportTitle(tag: string): (r: string)
    ensures !IsKnownTag(tag) ==> Contains(r, Spoken(tag))
  {
    match KnownTagOf(tag)
    case Some(ChoiceMaking) => "Choice-friendly environment"
    case Some(Initiative) => "Independence support tools"
    case Some(Sequencing) => "Visual sequence supports"
    case Some(Labeling) => "Feelings chart and tools"
    case Some(CoRegulation) => "Calm space setup"
    case Some(Repair) => "Repair conversation starters"
    case None =>
      ContainsMiddle("Supportive ", Spoken(tag), " environment");
      "Supportive " + Spoken(tag) + " environment"
  }

  /** Description of a support block; an unknown tag is named in it. */
  function SupportDescription(tag: string): (r: string)
    ensures !IsKnownTag(tag) ==> Contains(r, Spoken(tag))
  {
    match KnownTagOf(tag)
    case Some(ChoiceMaking) => "Structure without control"
    case Some(Initiative) => "Tools that invite independence"
    case Some(Sequencing) => "Visual aids for sequence learning"
    case Some(Labeling) => "Reference tools for naming feelings"
    case Some(CoRegulation) => "Calm, safe space for connection"
    case Some(Repair) => "Conversation starters for repair"
    case None =>
      ContainsMiddle("Environmental support for ", Spoken(tag), "");
      assert "Environmental support for " + Spoken(tag) + "" == "Environmental support for " + Spoken(tag);
      "Environmental support for " + Spoken(tag)
  }

  predicate IsKnownTag(tag: string) {
    KnownTagOf(tag).Some?
  }

  // ---------------------------------------------------------------------------
  // Suggestions

  /** Every tag of every template, in order and with repeats. */
  function AllTags(actions: seq<ActionTemplate>): seq<string> {
    if actions == [] then [] else AllTags(actions[..|actions| - 1]) + actions[|actions| - 1].tags
  }

  /** `top` are the (at most three) most frequent tags: distinct tags that occur, in
      non-increasing order of frequency, none left out more frequent than one chosen, and
      fewer than three only when no tag is left out. */
  ghost predicate IsTopTags(top: seq<string>, tags: seq<string>) {
    && |top| <= 3
    && Distinct(top)
    && (forall i :: 0 <= i < |top| ==> top[i] in tags)
    && (forall i, j :: 0 <= i < j < |top| ==> Occurrences(tags, top[i]) >= Occurrences(tags, top[j]))
    && (forall t, i :: t in tags && t !in top && 0 <= i < |top| ==> Occurrences(tags, t) <= Occurrences(tags, top[i]))
    && (|top| < 3 ==> forall t :: t in tags ==> t in top)
  }

  function MicroSkillBlock(tag: string): (b: BuildingBlock)
    ensures b.blockType == "microSkill" && b.tags == [tag]
  {
    Block("microSkill", MicroSkillTitle(tag), MicroSkillDescription(tag), [tag])
  }

  function RitualBlock(tag: string): (b: BuildingBlock)
    ensures b.blockType == "ritual" && b.tags == [tag]
  {
    Block("ritual", RitualTitle(tag), RitualDescription(tag), [tag])
  }

  function SupportBlock(tag: string): (b: BuildingBlock)
    ensures b.blockType == "support" && b.tags == [tag]
  {
    Block("support", SupportTitle(tag), SupportDescription(tag), [tag])
  }

  const GenericSupport := Block("support", "Create supportive environment", "Set up the space and tools needed for success", ["support"])

  /** The plan built from the top tags: a micro-skill from the first, a ritual from the
      second, and a support from the third or a generic one. */
  function BlocksFor(top: seq<string>): seq<BuildingBlock> {
    (if |top| > 0 then [MicroSkillBlock(top[0])] else [])
    + (if |top| > 1 then [RitualBlock(top[1])] else [])
    + (if |top| > 2 then [SupportBlock(top[2])] else [GenericSupport])
  }

  /** The plan has one block per top tag plus a trailing support, at most three in all. */
  lemma BlocksForLength(top: seq<string>)
    requires |top| <= 3
    ensures var b := BlocksFor(top);
      && |b| == Min(3, |top| + 1)
      && b[|b| - 1].blockType == "support"
      && (forall k :: 0 <= k < |top| ==> b[k].tags == [top[k]])
  {
    if |top| == 0 {
      assert BlocksFor(top) == [GenericSupport];
    } else if |top| == 1 {
      assert BlocksFor(top) == [MicroSkillBlock(top[0]), GenericSupport];
    } else if |top| == 2 {
      assert BlocksFor(top) == [MicroSkillBlock(top[0]), RitualBlock(top[1]), GenericSupport];
    } else {
      assert BlocksFor(top) == [MicroSkillBlock(top[0]), RitualBlock(top[1]), SupportBlock(top[2])];
    }
  }

  /** The plan opens with a micro-skill exactly when some tag was chosen. */
  lemma BlocksForFirst(top: seq<string>)
    requires |top| <= 3
    ensures BlocksFor(top)[0].blockType == "microSkill" <==> |top| > 0
  {
    if |top| == 0 {
      assert BlocksFor(top)[0] == GenericSupport;
      assert |"support"| != |"microSkill"|;
    }
  }

  /** The plan holds a ritual exactly when two tags were chosen. */
  lemma BlocksForRitual(top: seq<string>)
    requires |top| <= 3
    ensures var b := BlocksFor(top);
      (exists k :: 0 <= k < |b| && b[k].blockType == "ritual") <==> |top| >= 2
  {
    var b := BlocksFor(top);
    if |top| >= 2 {
      assert b[1].blockType == "ritual";
    } else {
      assert |"ritual"| == 6 && |"support"| == 7 && |"microSkill"| == 10;
      forall k | 0 <= k < |b| ensures b[k].blockType != "ritual" {
        assert b[k].blockType == "support" || b[k].blockType == "microSkill";
      }
    }
  }

  /** Some tag is chosen exactly when a tag occurs, and two exactly when two different tags occur. */
  lemma TopTagsCount(top: seq<string>, tags: seq<string>)
    requires IsTopTags(top, tags)
    ensures |top| > 0 <==> |tags| > 0
    ensures |top| >= 2 <==> exists i, j :: 0 <= i < |tags| && 0 <= j < |tags| && tags[i] != tags[j]
  {
    if |tags| > 0 {
      assert tags[0] in tags;
    }
    if |top| < 2 {
      forall i, j | 0 <= i < |tags| && 0 <= j < |tags| ensures tags[i] == tags[j] {
        assert tags[i] in tags && tags[i] in top;
        assert tags[j] in tags && tags[j] in top;
      }
    }
    if |top| >= 2 {
      assert top[0] != top[1];
      var i :| 0 <= i < |tags| && tags[i] == top[0];
      var j :| 0 <= j < |tags| && tags[j] == top[1];
    }
  }

  /** The shape of a suggested plan: one block per top tag plus a trailing support, at most
      three; a micro-skill first exactly when some tag exists; a ritual exactly when two
      different tags exist; each tag-derived block carries exactly its tag. */
  lemma SuggestionShape(top: seq<string>, tags: seq<string>)
    requires IsTopTags(top, tags)
    ensures var b := BlocksFor(top);
      && |b| == Min(3, |top| + 1)
      && b[|b| - 1].blockType == "support"
      && (b[0].blockType == "microSkill" <==> |tags| > 0)
      && ((exists k :: 0 <= k < |b| && b[k].blockType == "ritual") <==>
          (exists i, j :: 0 <= i < |tags| && 0 <= j < |tags| && tags[i] != tags[j]))
      && (forall k :: 0 <= k < |top| ==> b[k].tags == [top[k]])
  {
    BlocksForLength(top);
    BlocksForFirst(top);
    BlocksForRitual(top);
    TopTagsCount(top, tags);
  }

  /** The tag counts over the first `i` templates and the first `j` tags of the next one. */
  method AddTagCounts(tagCounts: map<string, nat>, tags: seq<string>, ghost seen: seq<string>) returns (r: map<string, nat>)
    requires forall e :: e in tagCounts ==> tagCounts[e] > 0
    requires forall e :: Count(tagCounts, e) == Occurrences(seen, e)
    ensures forall e :: e in r ==> r[e] > 0
    ensures forall e :: Count(r, e) == Occurrences(seen + tags, e)
  {
    r := tagCounts;
    var j := 0;
    assert seen + tags[..0] == seen;
    while j < |tags|
      invariant 0 <= j <= |tags|
      invariant forall e :: e in r ==> r[e] > 0
      invariant forall e :: Count(r, e) == Occurrences(seen + tags[..j], e)
    {
      var tag := tags[j];
      r := r[tag := Count(r, tag) + 1];
      forall e ensures Count(r, e) == Occurrences(seen + tags[..j + 1], e) {
        assert seen + tags[..j + 1] == (seen + tags[..j]) + [tag];
        OccurrencesAppend(seen + tags[..j], [tag], e);
      }
      j := j + 1;
    }
    assert tags[..j] == tags;
  }

  /** The tag-count loop of `suggestBuildingBlocks(for:)`. */
  method CountTags(actions: seq<ActionTemplate>) returns (tagCounts: map<string, nat>)
    ensures forall e :: e in tagCounts ==> tagCounts[e] > 0
    ensures forall e :: Count(tagCounts, e) == Occurrences(AllTags(actions), e)
  {
    tagCounts := map[];
    var i := 0;
    while i < |actions|
      invariant 0 <= i <= |actions|
      invariant forall e :: e in tagCounts ==> tagCounts[e] > 0
      invariant forall e :: Count(tagCounts, e) == Occurrences(AllTags(actions[..i]), e)
    {
      tagCounts := AddTagCounts(tagCounts, actions[i].tags, AllTags(actions[..i]));
      assert actions[..i + 1][..i] == actions[..i];
      i := i + 1;
    }
    assert actions[..i] == actions;
  }

  /** The keys of a map, in some order. */
  method KeysOf(m: map<string, nat>) returns (keys: seq<string>)
    ensures Distinct(keys)
    ensures forall k :: k in keys <==> k in m
  {
    keys := [];
    var rest := m.Keys;
    while rest != {}
      invariant Distinct(keys)
      invariant forall k :: k in m <==> k in keys || k in rest
      invariant forall k :: k in keys ==> k !in rest
      decreases |rest|
    {
      var k :| k in rest;
      keys := keys + [k];
      rest := rest - {k};
    }
  }

  /** The counted keys are exactly the tags that occur. */
  lemma KeysAreTags(tagCounts: map<string, nat>, tags: seq<string>, keys: seq<string>)
    requires forall e :: e in tagCounts ==> tagCounts[e] > 0
    requires forall e :: Count(tagCounts, e) == Occurrences(tags, e)
    requires forall k :: k in keys <==> k in tagCounts
    ensures forall t :: t in keys <==> t in tags
  {
    forall t ensures t in keys <==> t in tags {
      assert Count(tagCounts, t) == Occurrences(tags, t);
    }
  }

  /** Sorting the distinct tags by their counts and keeping three gives the top tags. */
  lemma TopTagsFromCounts(tagCounts: map<string, nat>, tags: seq<string>, keys: seq<string>, key: string -> real)
    requires forall e :: e in tagCounts ==> tagCounts[e] > 0
    requires forall e :: Count(tagCounts, e) == Occurrences(tags, e)
    requires Distinct(keys) && forall k :: k in keys <==> k in tagCounts
    requires forall t :: key(t) == Count(tagCounts, t) as real
    ensures IsTopTags(SortDesc(keys, key)[..Min(3, |keys|)], tags)
  {
    KeysAreTags(tagCounts, tags, keys);
    SortedPrefixOfDistinct(keys, key, Min(3, |keys|));
    if |keys| < 3 {
      WholeSortKeepsAll(keys, key);
    }
    TopByKeyIsTopTags(SortDesc(keys, key)[..Min(3, |keys|)], keys, tags, key);
  }

  /** Keeping every element of the sort keeps every key. */
  lemma WholeSortKeepsAll(keys: seq<string>, key: string -> real)
    ensures forall t :: t in keys ==> t in SortDesc(keys, key)[..|keys|]
  {
    var sorted := SortDesc(keys, key);
    assert sorted[..|keys|] == sorted;
    forall t | t in keys ensures t in sorted {
      assert t in multiset(sorted);
    }
  }

  /** A top selection of the distinct tags by a key that is their frequency is a top-tags choice. */
  lemma TopByKeyIsTopTags(top: seq<string>, keys: seq<string>, tags: seq<string>, key: string -> real)
    requires forall t :: t in keys <==> t in tags
    requires forall t :: key(t) == Occurrences(tags, t) as real
    requires |top| <= 3 && Distinct(top)
    requires forall i :: 0 <= i < |top| ==> top[i] in keys
    requires forall i, j :: 0 <= i < j < |top| ==> key(top[i]) >= key(top[j])
    requires forall x, i :: x in keys && x !in top && 0 <= i < |top| ==> key(x) <= key(top[i])
    requires |top| < 3 ==> forall t :: t in keys ==> t in top
    ensures IsTopTags(top, tags)
  {
    forall i, j | 0 <= i < j < |top| ensures Occurrences(tags, top[i]) >= Occurrences(tags, top[j]) {
      assert key(top[i]) >= key(top[j]);
    }
    forall t, i | t in tags && t !in top && 0 <= i < |top| ensures Occurrences(tags, t) <= Occurrences(tags, top[i]) {
      assert key(t) <= key(top[i]);
    }
  }

  /** `suggestBuildingBlocks(for:)`: a plan drawn from the most frequent tags of the focus
      area's templates. Ties in frequency are broken in no particular order. */
  method SuggestBuildingBlocks(h: History, focusId: string) returns (blocks: seq<BuildingBlock>)
    ensures exists top :: IsTopTags(top, AllTags(ActionsFor(h.templates, focusId))) && blocks == BlocksFor(top)
  {
    var actions := ActionsFor(h.templates, focusId);
    var tagCounts := CountTags(actions);
    var keys := KeysOf(tagCounts);
    var key := (t: string) => Count(tagCounts, t) as real;
    var topTags := SortDesc(keys, key)[..Min(3, |keys|)];
    TopTagsFromCounts(tagCounts, AllTags(actions), keys, key);
    blocks := BlocksFor(topTags);
  }
}
