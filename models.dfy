/** The persistent records of the app (Elaro/Models.swift), as plain values. */
module Models {
  import opened Wrappers
  import opened Text

  /** A point in time, in whole seconds since 1970-01-01 (`Date`). */
  type Timestamp = int

  const SecondsPerDay: int := 86400

  /** An hour of the day, as `Calendar.component(.hour, from:)` returns it. */
  type Hour = h: int | 0 <= h < 24

  datatype TemplateVariant = TemplateVariant(durationMinutes: int, steps: seq<string>)

  /** A catalog entry: one action with its duration variants. */
  datatype ActionTemplate = ActionTemplate(
    id: string,
    focusId: string,
    title: string,
    whyLine: string,
    tags: seq<string>,
    difficulty: int,
    variants: seq<TemplateVariant>,
    contraindications: seq<string>,
    contentVersion: int)

  /** One logged outcome of an action. `status` is "done", "snoozed" or "skipped";
      `feltDifficulty` is "light", "ok" or "hard"; the source keeps both as free strings. */
  datatype ActionInstance = ActionInstance(
    id: string,
    date: Timestamp,
    focusId: string,
    templateId: string,
    variantDuration: int,
    status: string,
    feltDifficulty: Option<string>,
    mood: Option<string>,
    note: Option<string>)

  /** One entry of a focus area's plan; `blockType` is "microSkill", "ritual" or "support". */
  datatype BuildingBlock = BuildingBlock(blockType: string, title: string, desc: Option<string>, tags: seq<string>)

  datatype FocusArea = FocusArea(
    id: string,
    name: string,
    active: bool,
    startedAt: Timestamp,
    buildingBlocks: seq<BuildingBlock>,
    pinnedMicroSkillTitles: seq<string>)

  datatype WeeklySummary = WeeklySummary(
    id: string,
    weekStart: Timestamp,
    focusId: string,
    winText: string,
    hardText: string,
    suggestedTweak: string)

  predicate IsDone(i: ActionInstance) {
    i.status == "done"
  }

  /** `instance.feltDifficulty == "hard"` */
  predicate IsHard(i: ActionInstance) {
    i.feltDifficulty == Some("hard")
  }

  /** The stress keywords shared by the friction index and the weekly hard text. */
  const StressKeywords: seq<string> := ["overwhelmed", "meltdown", "tears", "frustrated", "angry", "upset"]

  /** The lower-cased note mentions some stress keyword. */
  predicate HasStressNote(i: ActionInstance) {
    i.note.Some? && exists k :: 0 <= k < |StressKeywords| && Contains(Lower(i.note.value), StressKeywords[k])
  }

  /** `actions.first(where: { $0.id == id })` */
  function FindTemplate(actions: seq<ActionTemplate>, id: string): (r: Option<ActionTemplate>)
    ensures r.Some? ==> r.value in actions && r.value.id == id
    ensures r.None? <==> forall t :: t in actions ==> t.id != id
  {
    if actions == [] then None
    else if actions[0].id == id then Some(actions[0])
    else FindTemplate(actions[1..], id)
  }

  /** `total > 0 ? Double(part) / Double(total) : 0.0`, computed exactly. */
  function Ratio(part: nat, total: nat): (r: real)
    ensures total == 0 ==> r == 0.0
    ensures total > 0 ==> r * total as real == part as real
    ensures 0.0 <= r
    ensures part <= total ==> r <= 1.0
  {
    if total > 0 then part as real / total as real else 0.0
  }

  lemma RatioWhole(total: nat)
    requires total > 0
    ensures Ratio(total, total) == 1.0
  {
  }

  /** Comparing a share with a whole number of tenths, in integers. */
  lemma RatioAtLeastTenths(part: nat, total: nat, tenths: nat)
    requires total > 0
    ensures Ratio(part, total) >= tenths as real / 10.0 <==> 10 * part >= tenths * total
  {
    var r, t := Ratio(part, total), total as real;
    assert r * t == part as real;
    MulLeq(tenths as real / 10.0, r, t);
    assert (tenths as real / 10.0) * t * 10.0 == (tenths * total) as real;
  }

  lemma MulLeq(a: real, b: real, t: real)
    requires t > 0.0
    ensures a <= b <==> a * t <= b * t
  {
  }

  /** Shares of one total add up. */
  lemma RatioAdd(a: nat, b: nat, total: nat)
    ensures Ratio(a, total) + Ratio(b, total) == Ratio(a + b, total)
  {
    if total > 0 {
      var t := total as real;
      assert a as real / t + b as real / t == (a as real + b as real) / t;
    }
  }

  /** `sum / n`, for n >= 1: times `n` it gives `sum` back, and a sum of `n` values in
      [0,1] has its mean in [0,1]. */
  function Mean(sum: real, n: nat): (r: real)
    requires n >= 1
    ensures r * n as real == sum
    ensures 0.0 <= sum <= n as real ==> 0.0 <= r <= 1.0
  {
    sum / n as real
  }

  function Min(a: int, b: int): int {
    if a <= b then a else b
  }
}
