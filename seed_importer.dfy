/** The one-time import of the bundled action catalog (Elaro/SeedImporter.swift). */
module SeedImporter {
  import opened Wrappers
  import opened Models

  datatype SeedVariant = SeedVariant(durationMinutes: int, steps: seq<string>)

  /** One decoded catalog entry; the optional fields may be missing from the file. */
  datatype SeedAction = SeedAction(
    id: string,
    focusId: string,
    title: string,
    whyLine: string,
    tags: seq<string>,
    difficulty: int,
    variants: seq<SeedVariant>,
    contraindications: Option<seq<string>>,
    contentVersion: Option<int>)

  datatype SeedFile = SeedFile(contentVersion: Option<int>, actions: seq<SeedAction>)

  /** The version `run` imports an action with: its own, else the file's, else 1. */
  function ResolvedVersion(file: SeedFile, a: SeedAction): (v: int)
    ensures a.contentVersion.Some? ==> v == a.contentVersion.value
    ensures a.contentVersion.None? && file.contentVersion.Some? ==> v == file.contentVersion.value
    ensures a.contentVersion.None? && file.contentVersion.None? ==> v == 1
  {
    a.contentVersion.GetOr(file.contentVersion.GetOr(1))
  }

  function Variants(vs: seq<SeedVariant>): (r: seq<TemplateVariant>)
    ensures |r| == |vs|
    ensures forall k :: 0 <= k < |vs| ==> r[k] == TemplateVariant(vs[k].durationMinutes, vs[k].steps)
  {
    seq(|vs|, k requires 0 <= k < |vs| => TemplateVariant(vs[k].durationMinutes, vs[k].steps))
  }

  /** A catalog keyed by template id: every entry sits under its own id. */
  ghost predicate KeyedById(catalog: map<string, ActionTemplate>) {
    forall id :: id in catalog ==> catalog[id].id == id
  }

  /** The catalog after `upsertAction(from:contentVersion:)`: a new id is inserted; a known
      one is overwritten, all content fields and the version but never the id, only when
      its stored version is strictly older. */
  function Upserted(catalog: map<string, ActionTemplate>, a: SeedAction, version: int): (r: map<string, ActionTemplate>)
    ensures r.Keys == catalog.Keys + {a.id}
    ensures r[a.id].contentVersion >= version
    ensures a.id in catalog ==> r[a.id].contentVersion >= catalog[a.id].contentVersion && r[a.id].id == catalog[a.id].id
  {
    if a.id in catalog then
      var existing := catalog[a.id];
      if existing.contentVersion < version then
        catalog[a.id := existing.(focusId := a.focusId, title := a.title, whyLine := a.whyLine, tags := a.tags,
                                  difficulty := a.difficulty, contraindications := a.contraindications.GetOr([]),
                                  variants := Variants(a.variants), contentVersion := version)]
      else catalog
    else
      catalog[a.id := ActionTemplate(a.id, a.focusId, a.title, a.whyLine, a.tags, a.difficulty,
                                     Variants(a.variants), a.contraindications.GetOr([]), version)]
  }

  /** What one upsert does: the id ends up present, with at least the incoming version;
      its content is the incoming one exactly when it was absent or older; nothing else moves. */
  lemma UpsertEffect(catalog: map<string, ActionTemplate>, a: SeedAction, version: int)
    requires KeyedById(catalog)
    ensures var r := Upserted(catalog, a, version);
      && KeyedById(r)
      && r.Keys == catalog.Keys + {a.id}
      && (forall id :: id in catalog && id != a.id ==> r[id] == catalog[id])
      && (a.id in catalog ==> r[a.id].contentVersion >= catalog[a.id].contentVersion)
      && r[a.id].contentVersion >= version
      && (a.id in catalog && catalog[a.id].contentVersion >= version ==> r == catalog)
      && ((a.id !in catalog || catalog[a.id].contentVersion < version) ==>
            r[a.id] == ActionTemplate(a.id, a.focusId, a.title, a.whyLine, a.tags, a.difficulty,
                                      Variants(a.variants), a.contraindications.GetOr([]), version))
  {
  }

  /** Upserting the same action twice is the same as once. */
  lemma UpsertIdempotent(catalog: map<string, ActionTemplate>, a: SeedAction, version: int)
    requires KeyedById(catalog)
    ensures Upserted(Upserted(catalog, a, version), a, version) == Upserted(catalog, a, version)
  {
    UpsertEffect(catalog, a, version);
  }

  /** The catalog after the import loop of `run` over the first actions of the file. */
  function ImportAll(catalog: map<string, ActionTemplate>, file: SeedFile, n: nat): map<string, ActionTemplate>
    requires n <= |file.actions|
  {
    if n == 0 then catalog
    else Upserted(ImportAll(catalog, file, n - 1), file.actions[n - 1], ResolvedVersion(file, file.actions[n - 1]))
  }

  /** What the import loop promises after the first `n` actions, `r` being the catalog
      then: keyed by id, every imported id at its resolved version or newer, no stored
      version lowered, ids the file does not name untouched, and no id from elsewhere. */
  ghost predicate ImportFacts(catalog: map<string, ActionTemplate>, file: SeedFile, n: nat, r: map<string, ActionTemplate>)
    requires n <= |file.actions|
  {
    && KeyedById(r)
    && (forall k :: 0 <= k < n ==> file.actions[k].id in r && r[file.actions[k].id].contentVersion >= ResolvedVersion(file, file.actions[k]))
    && (forall id :: id in catalog ==> id in r && r[id].contentVersion >= catalog[id].contentVersion)
    && (forall id :: id in catalog && (forall k :: 0 <= k < n ==> file.actions[k].id != id) ==> r[id] == catalog[id])
    && (forall id :: id in r ==> id in catalog || exists k :: 0 <= k < n && file.actions[k].id == id)
  }

  /** After importing, every imported id holds at least its resolved version, the catalog
      stays keyed by id, no stored version went down, and ids the file does not name are
      untouched. */
  lemma {:induction false} ImportEffect(catalog: map<string, ActionTemplate>, file: SeedFile, n: nat)
    requires n <= |file.actions| && KeyedById(catalog)
    ensures ImportFacts(catalog, file, n, ImportAll(catalog, file, n))
  {
    if n > 0 {
      ImportEffect(catalog, file, n - 1);
      ImportUpsertStep(catalog, file, n, ImportAll(catalog, file, n - 1));
    }
  }

  /** Upserting the next action into a catalog that kept the import's promises so far keeps
      them for one action more. */
  lemma ImportUpsertStep(catalog: map<string, ActionTemplate>, file: SeedFile, n: nat, prev: map<string, ActionTemplate>)
    requires 0 < n <= |file.actions|
    requires ImportFacts(catalog, file, n - 1, prev)
    ensures ImportFacts(catalog, file, n, Upserted(prev, file.actions[n - 1], ResolvedVersion(file, file.actions[n - 1])))
  {
    var a := file.actions[n - 1];
    UpsertMonotone(prev, a, ResolvedVersion(file, a));
    ImportStep(catalog, file, n, prev, Upserted(prev, a, ResolvedVersion(file, a)));
  }

  /** One more action: a catalog that changed the way one upsert changes it keeps the
      import's promises for one action more. */
  lemma ImportStep(catalog: map<string, ActionTemplate>, file: SeedFile, n: nat,
                   prev: map<string, ActionTemplate>, r: map<string, ActionTemplate>)
    requires 0 < n <= |file.actions|
    requires ImportFacts(catalog, file, n - 1, prev)
    requires KeyedById(r)
    requires r.Keys == prev.Keys + {file.actions[n - 1].id}
    requires forall id :: id in prev && id != file.actions[n - 1].id ==> r[id] == prev[id]
    requires forall id :: id in prev ==> r[id].contentVersion >= prev[id].contentVersion
    requires r[file.actions[n - 1].id].contentVersion >= ResolvedVersion(file, file.actions[n - 1])
    ensures ImportFacts(catalog, file, n, r)
  {
    var a := file.actions[n - 1];
    forall k | 0 <= k < n
      ensures file.actions[k].id in r && r[file.actions[k].id].contentVersion >= ResolvedVersion(file, file.actions[k])
    {
      if k < n - 1 {
        assert file.actions[k].id in prev;
      }
    }
    forall id | id in r ensures id in catalog || exists k :: 0 <= k < n && file.actions[k].id == id {
      if id == a.id {
        assert file.actions[n - 1].id == id;
      } else {
        assert id in prev;
      }
    }
  }

  /** The part of `UpsertEffect` the import needs: keys, ids and versions. */
  lemma UpsertMonotone(catalog: map<string, ActionTemplate>, a: SeedAction, version: int)
    requires KeyedById(catalog)
    ensures var r := Upserted(catalog, a, version);
      && KeyedById(r)
      && r.Keys == catalog.Keys + {a.id}
      && (forall id :: id in catalog && id != a.id ==> r[id] == catalog[id])
      && (forall id :: id in catalog ==> r[id].contentVersion >= catalog[id].contentVersion)
      && r[a.id].contentVersion >= version
  {
  }

  /** A catalog that already holds every action of the file at its version or newer is left
      as it is by the import. */
  lemma {:induction false} ImportOfCurrentIsIdentity(catalog: map<string, ActionTemplate>, file: SeedFile, n: nat)
    requires n <= |file.actions| && KeyedById(catalog)
    requires forall k :: 0 <= k < |file.actions| ==> file.actions[k].id in catalog && catalog[file.actions[k].id].contentVersion >= ResolvedVersion(file, file.actions[k])
    ensures ImportAll(catalog, file, n) == catalog
  {
    if n > 0 {
      ImportOfCurrentIsIdentity(catalog, file, n - 1);
      var a := file.actions[n - 1];
      UpsertEffect(catalog, a, ResolvedVersion(file, a));
    }
  }

  /** Importing the same file a second time changes nothing. */
  lemma ReimportIsIdempotent(catalog: map<string, ActionTemplate>, file: SeedFile)
    requires KeyedById(catalog)
    ensures var once := ImportAll(catalog, file, |file.actions|);
      ImportAll(once, file, |file.actions|) == once
  {
    ImportEffect(catalog, file, |file.actions|);
    ImportOfCurrentIsIdentity(ImportAll(catalog, file, |file.actions|), file, |file.actions|);
  }

  /** A freshly created focus area, as `upsertFocusIfMissing` makes it. */
  function NewFocus(id: string, name: string, now: Timestamp): FocusArea {
    FocusArea(id, name, true, now, [], [])
  }

  /** The focus areas after `upsertFocusIfMissing`: unchanged when the id exists. */
  function WithFocus(focuses: map<string, FocusArea>, id: string, name: string, now: Timestamp): (r: map<string, FocusArea>)
    ensures id in focuses ==> r == focuses
    ensures id !in focuses ==> r == focuses[id := NewFocus(id, name, now)]
    ensures r.Keys == focuses.Keys + {id}
  {
    if id in focuses then focuses else focuses[id := NewFocus(id, name, now)]
  }

  /** The two focus areas `run` makes sure of. */
  function WithDefaultFocuses(focuses: map<string, FocusArea>, now: Timestamp): (r: map<string, FocusArea>)
    ensures "independence" in r && "emotion_skills" in r
    ensures forall id :: id in focuses ==> id in r && r[id] == focuses[id]
  {
    WithFocus(WithFocus(focuses, "independence", "Independence", now), "emotion_skills", "Emotion Skills", now)
  }

  /** The model context the importer writes to, with the "already ran" flag it keeps in the
      user defaults. */
  class SeedContext {
    var templates: map<string, ActionTemplate>
    var focuses: map<string, FocusArea>
    var seedRan: bool

    ghost predicate Valid()
      reads this
    {
      KeyedById(templates)
    }

    constructor (templates: map<string, ActionTemplate>, focuses: map<string, FocusArea>, seedRan: bool)
      requires KeyedById(templates)
      ensures Valid()
      ensures this.templates == templates && this.focuses == focuses && this.seedRan == seedRan
    {
      this.templates := templates;
      this.focuses := focuses;
      this.seedRan := seedRan;
    }

    /** `upsertFocusIfMissing(id:name:context:)` */
    method UpsertFocusIfMissing(id: string, name: string, now: Timestamp)
      modifies this
      ensures focuses == WithFocus(old(focuses), id, name, now)
      ensures templates == old(templates) && seedRan == old(seedRan)
    {
      if id in focuses {
        return;
      }
      focuses := focuses[id := NewFocus(id, name, now)];
    }

    /** `upsertAction(from:contentVersion:context:)` */
    method UpsertAction(a: SeedAction, contentVersion: int)
      requires Valid()
      modifies this
      ensures Valid()
      ensures templates == Upserted(old(templates), a, contentVersion)
      ensures focuses == old(focuses) && seedRan == old(seedRan)
    {
      UpsertEffect(templates, a, contentVersion);
      if a.id in templates {
        var existing := templates[a.id];
        if existing.contentVersion < contentVersion {
          existing := existing.(focusId := a.focusId, title := a.title, whyLine := a.whyLine, tags := a.tags,
                                difficulty := a.difficulty, contraindications := a.contraindications.GetOr([]),
                                variants := Variants(a.variants), contentVersion := contentVersion);
          templates := templates[a.id := existing];
        }
      } else {
        var tpl := ActionTemplate(a.id, a.focusId, a.title, a.whyLine, a.tags, a.difficulty,
                                  Variants(a.variants), a.contraindications.GetOr([]), contentVersion);
        templates := templates[a.id := tpl];
      }
    }

    /** `run(context:)`. `file` is the decoded bundle resource, `None` when it is missing or
        does not decode, which throws before anything is written. */
    method Run(file: Option<SeedFile>, now: Timestamp) returns (ok: bool)
      requires Valid()
      modifies this
      ensures Valid()
      ensures ok <==> file.Some?
      ensures file.None? ==> templates == old(templates) && focuses == old(focuses)
      ensures file.Some? ==> focuses == WithDefaultFocuses(old(focuses), now)
      ensures file.Some? ==> templates == ImportAll(old(templates), file.value, |file.value.actions|)
      ensures seedRan == old(seedRan)
    {
      if file.None? {
        return false;
      }
      var f := file.value;
      UpsertFocusIfMissing("independence", "Independence", now);
      UpsertFocusIfMissing("emotion_skills", "Emotion Skills", now);
      var i := 0;
      while i < |f.actions|
        invariant 0 <= i <= |f.actions|
        invariant Valid()
        invariant templates == ImportAll(old(templates), f, i)
        invariant focuses == WithDefaultFocuses(old(focuses), now) && seedRan == old(seedRan)
      {
        var a := f.actions[i];
        var version := ResolvedVersion(f, a);
        UpsertAction(a, version);
        i := i + 1;
      }
      return true;
    }

    /** `runIfNeeded(context:)`: does nothing once the flag is set, and sets it only after a
        successful run. */
    method RunIfNeeded(file: Option<SeedFile>, now: Timestamp)
      requires Valid()
      modifies this
      ensures Valid()
      ensures old(seedRan) ==> templates == old(templates) && focuses == old(focuses) && seedRan
      ensures !old(seedRan) ==> seedRan == file.Some?
      ensures !old(seedRan) && file.Some? ==> templates == ImportAll(old(templates), file.value, |file.value.actions|)
      ensures !old(seedRan) && file.Some? ==> focuses == WithDefaultFocuses(old(focuses), now)
      ensures !old(seedRan) && file.None? ==> templates == old(templates) && focuses == old(focuses)
    {
      if seedRan {
        return;
      }
      var ok := Run(file, now);
      if ok {
        seedRan := true;
      }
    }
  }
}
