/** Registry promotion: component and index publication as interruptible steps over tags, and the rule for `latest`. */
module Release {
  import opened Types
  import opened Versions

  const LATEST := "latest"
  const ARCHITECTURES := ["amd64", "arm64"]

  /** A manifest stands for its exact bytes, so digests are taken to be injective; missing annotations are None. */
  datatype Manifest =
    | Index(images: seq<Image>, version: Option<string>, revision: Option<string>, source: Option<string>, repositoryID: Option<string>, runID: Option<string>)
    | Component(image: Image)
    | Unrecognized(bytes: string)

  datatype Image = Image(config: string, layers: seq<string>)

  type Tags = map<string, Manifest>

  /** What a release run was verified to publish. */
  datatype Plan = Plan(version: string, repository: string, repositoryID: string, checkout: string, runID: string, platforms: map<string, Image>)
  {
    function Tag(): string { "v" + version }
  }

  function ComponentTag(plan: Plan, architecture: string): string {
    plan.Tag() + "-" + architecture
  }

  /** Preparation accepts a release only under a valid version, and with both native platforms. */
  predicate Prepared(plan: Plan) {
    VersionParts(plan.version).Some? && forall a :: a in ARCHITECTURES ==> a in plan.platforms
  }

  predicate IsStable(version: string) {
    VersionParts(version).Some? && VersionParts(version).value.pre.None?
  }

  function Numbers(version: string): Stable
    requires VersionParts(version).Some?
  {
    VersionParts(version).value.numbers
  }

  function Source(plan: Plan): string { "https://github.com/" + plan.repository }

  /** The index of a plan, in canonical bytes. */
  function IndexOf(plan: Plan): Manifest
    requires Prepared(plan)
  {
    Index([plan.platforms["amd64"], plan.platforms["arm64"]], Some(plan.version), Some(plan.checkout), Some(Source(plan)),
          Some(plan.repositoryID), Some(plan.runID))
  }

  /** The present `latest` was published by this repository, and is one of its stable versions. */
  predicate Recognized(plan: Plan, tags: Tags, current: Manifest) {
    && current.Index? && current.source == Some(Source(plan)) && current.repositoryID == Some(plan.repositoryID)
    && current.version.Some? && IsStable(current.version.value)
    && "v" + current.version.value in tags && tags["v" + current.version.value] == current
  }

  datatype Advance = Move | Stay | Refuse

  /** The rule for `latest`: it moves only to a greater stable version. */
  function LatestRule(plan: Plan, tags: Tags): Advance
    requires Prepared(plan)
  {
    if !IsStable(plan.version) then Stay
    else if LATEST !in tags then Move
    else
      var current := tags[LATEST];
      if !Recognized(plan, tags, current) then Refuse
      else if Numbers(current.version.value) == Numbers(plan.version) then if current == IndexOf(plan) then Stay else Refuse
      else if Precedes(Numbers(current.version.value), Numbers(plan.version)) then Move
      else Stay
  }

  // ---------------------------------------------------------------- the registry

  /** The tags of one package. Reads can fail; a write can fail before or after taking effect. */
  class Registry {
    var tags: Tags

    constructor (initial: Tags)
      ensures tags == initial
    {
      tags := initial;
    }

    method Get(reference: string) returns (r: Read<Option<Manifest>>)
      ensures r.Got? ==> r.value == if reference in tags then Some(tags[reference]) else None
    {
      var answered: bool := *;
      if !answered { return Unavailable; }
      r := Got(if reference in tags then Some(tags[reference]) else None);
    }

    method Put(reference: string, data: Manifest) returns (ok: bool)
      modifies this
      ensures ok ==> tags == old(tags)[reference := data]
      ensures tags == old(tags) || tags == old(tags)[reference := data]
    {
      var done: bool := *;
      if done {
        tags := tags[reference := data];
      }
      var answered: bool := *;
      ok := done && answered;
    }

    /** The tag is free or already holds exactly this manifest. */
    method Preflight(tag: string, expected: Manifest) returns (r: Read<bool>)
      ensures r.Got? ==> (if r.value then tag in tags && tags[tag] == expected else tag !in tags)
    {
      var actual := Get(tag);
      if actual.Unavailable? || (actual.value.Some? && actual.value.value != expected) { return Unavailable; }
      r := Got(actual.value.Some?);
    }
  }

  // ---------------------------------------------------------------- what a run may leave behind

  /** A component run, however far it came. */
  predicate ComponentRun(plan: Plan, architecture: string, s: Tags, t: Tags) {
    && architecture in plan.platforms
    && (t == s || (ComponentTag(plan, architecture) !in s && t == s[ComponentTag(plan, architecture) := Component(plan.platforms[architecture])]))
  }

  /** The tags once the version tag holds the index. */
  function Tagged(plan: Plan, s: Tags): Tags
    requires Prepared(plan)
  {
    s[plan.Tag() := IndexOf(plan)]
  }

  /** An index run, however far it came: nothing, the version tag, or the version tag and then `latest`. */
  predicate IndexRun(plan: Plan, s: Tags, t: Tags) {
    && Prepared(plan)
    && (|| t == s
        || (plan.Tag() !in s && LatestRule(plan, s) != Refuse && t == Tagged(plan, s))
        || ((plan.Tag() in s ==> s[plan.Tag()] == IndexOf(plan)) && LatestRule(plan, s).Move?
            && t == Tagged(plan, s)[LATEST := IndexOf(plan)]))
  }

  method ShouldAdvanceLatest(registry: Registry, plan: Plan) returns (r: Read<bool>)
    requires Prepared(plan)
    ensures r.Got? ==> LatestRule(plan, registry.tags) == if r.value then Move else Stay
  {
    if VersionParts(plan.version).value.pre.Some? { return Got(false); }
    var current := registry.Get(LATEST);
    if current.Unavailable? { return Unavailable; }
    if current.value.None? { return Got(true); }
    var manifest := current.value.value;
    if !manifest.Index? || manifest.source != Some(Source(plan)) || manifest.repositoryID != Some(plan.repositoryID) { return Unavailable; }
    if manifest.version.None? { return Unavailable; }
    var version := manifest.version.value;
    var parts := VersionParts(version);
    if parts.None? || parts.value.pre.Some? { return Unavailable; }
    var immutable := registry.Get("v" + version);
    if immutable.Unavailable? || immutable.value != Some(manifest) { return Unavailable; }
    if parts.value.numbers == Numbers(plan.version) {
      if manifest != IndexOf(plan) { return Unavailable; }
      return Got(false);
    }
    r := Got(Precedes(parts.value.numbers, Numbers(plan.version)));
  }

  method PublishComponent(registry: Registry, plan: Plan, architecture: string) returns (ok: bool)
    requires Prepared(plan) && architecture in ARCHITECTURES
    modifies registry
    ensures ComponentRun(plan, architecture, old(registry.tags), registry.tags)
    ensures ok ==> ComponentTag(plan, architecture) in registry.tags
                   && registry.tags[ComponentTag(plan, architecture)] == Component(plan.platforms[architecture])
  {
    var tag, image := ComponentTag(plan, architecture), Component(plan.platforms[architecture]);
    var present := registry.Preflight(tag, image);
    if present.Unavailable? { return false; }
    if present.value { return true; }
    var copied := registry.Put(tag, image);
    if !copied { return false; }
    var actual := registry.Get(tag);
    ok := actual.Got? && actual.value == Some(image);
  }

  /** Both components are published as verified. */
  method ComponentsPresent(registry: Registry, plan: Plan) returns (ok: bool)
    requires Prepared(plan)
    ensures ok ==> forall a :: a in ARCHITECTURES ==>
      ComponentTag(plan, a) in registry.tags && registry.tags[ComponentTag(plan, a)] == Component(plan.platforms[a])
  {
    for k := 0 to |ARCHITECTURES|
      invariant forall a :: a in ARCHITECTURES[..k] ==>
        ComponentTag(plan, a) in registry.tags && registry.tags[ComponentTag(plan, a)] == Component(plan.platforms[a])
    {
      var a := ARCHITECTURES[k];
      assert a in ARCHITECTURES && ARCHITECTURES[..k + 1] == ARCHITECTURES[..k] + [a];
      var actual := registry.Get(ComponentTag(plan, a));
      if actual.Unavailable? || actual.value != Some(Component(plan.platforms[a])) { return false; }
    }
    ok := true;
  }

  /** Publishes the index of a release. Every exit, at whatever write, leaves a state of `IndexRun`; success
      leaves the version tag in place, and `latest` moved exactly when the rule says so. */
  method PublishIndex(registry: Registry, plan: Plan) returns (ok: bool, advanced: bool)
    requires Prepared(plan)
    modifies registry
    ensures IndexRun(plan, old(registry.tags), registry.tags)
    ensures ok ==>
      && plan.Tag() in registry.tags && registry.tags[plan.Tag()] == IndexOf(plan)
      && advanced == (LatestRule(plan, old(registry.tags)) == Move)
      && registry.tags == if advanced then Tagged(plan, old(registry.tags))[LATEST := IndexOf(plan)] else Tagged(plan, old(registry.tags))
  {
    ok, advanced := false, false;
    ghost var before := registry.tags;
    assert plan.Tag() != LATEST by { assert plan.Tag()[0] == 'v'; }
    var complete := ComponentsPresent(registry, plan);
    if !complete { return; }
    var data := IndexOf(plan);
    var advance := ShouldAdvanceLatest(registry, plan);
    if advance.Unavailable? { return; }
    var present := registry.Preflight(plan.Tag(), data);
    if present.Unavailable? { return; }
    if !present.value {
      var put := registry.Put(plan.Tag(), data);
      if !put { return; }
    }
    assert registry.tags == Tagged(plan, before);
    var version := registry.Get(plan.Tag());
    if version.Unavailable? || version.value != Some(data) { return; }
    if advance.value {
      var moved := registry.Put(LATEST, data);
      if !moved { return; }
      var latest := registry.Get(LATEST);
      if latest.Unavailable? || latest.value != Some(data) { return; }
    }
    ok, advanced := true, advance.value;
  }

  // ---------------------------------------------------------------- every sequence of runs

  /** One serial run of either kind, completed or cut off. */
  ghost predicate RunStep(s: Tags, t: Tags) {
    exists plan :: Prepared(plan) && (IndexRun(plan, s, t) || exists a :: a in ARCHITECTURES && ComponentRun(plan, a, s, t))
  }

  ghost predicate Runs(states: seq<Tags>) {
    states != [] && states[0] == map[] && forall i :: 0 <= i < |states| - 1 ==> RunStep(states[i], states[i + 1])
  }

  /** `latest` is absent or identical to an existing tag of the stable version it names. */
  predicate LatestOK(tags: Tags) {
    LATEST in tags ==>
      var m := tags[LATEST];
      m.Index? && m.version.Some? && IsStable(m.version.value) && "v" + m.version.value in tags && tags["v" + m.version.value] == m
  }

  /** Tags other than `latest` are write-once, and `latest` only moves to greater versions. */
  predicate Monotone(s: Tags, t: Tags) {
    && (forall tag :: tag in s && tag != LATEST ==> tag in t && t[tag] == s[tag])
    && (LATEST in s ==> LATEST in t && (t[LATEST] == s[LATEST] || Greater(s[LATEST], t[LATEST])))
  }

  predicate Greater(a: Manifest, b: Manifest) {
    && a.Index? && b.Index? && a.version.Some? && b.version.Some? && IsStable(a.version.value) && IsStable(b.version.value)
    && Precedes(Numbers(a.version.value), Numbers(b.version.value))
  }

  lemma ReleaseTags(plan: Plan, architecture: string)
    ensures plan.Tag() != LATEST && ComponentTag(plan, architecture) != LATEST
  {
    assert plan.Tag()[0] == 'v' && ComponentTag(plan, architecture)[0] == 'v';
  }

  lemma RunKeeps(s: Tags, t: Tags)
    requires RunStep(s, t) && LatestOK(s)
    ensures LatestOK(t) && Monotone(s, t)
  {
    hide VersionParts, Precedes;
    var plan :| Prepared(plan) && (IndexRun(plan, s, t) || exists a :: a in ARCHITECTURES && ComponentRun(plan, a, s, t));
    if IndexRun(plan, s, t) {
      ReleaseTags(plan, "");
    } else {
      var a :| a in ARCHITECTURES && ComponentRun(plan, a, s, t);
      ReleaseTags(plan, a);
    }
  }

  /** Over any serial sequence of runs, each cut off at any write: `latest` is always absent or identical to the
      existing tag of the stable version it names. */
  lemma {:induction false} LatestAlwaysStable(states: seq<Tags>, i: nat)
    requires Runs(states) && i < |states|
    ensures LatestOK(states[i])
  {
    if i > 0 {
      LatestAlwaysStable(states, i - 1);
      RunKeeps(states[i - 1], states[i]);
    }
  }

  lemma MonotoneTrans(a: Tags, b: Tags, c: Tags)
    requires Monotone(a, b) && Monotone(b, c)
    ensures Monotone(a, c)
  {
    hide VersionParts;
  }

  lemma MonotoneSelf(a: Tags)
    ensures Monotone(a, a)
  {
  }

  /** And over any such sequence no version or component tag ever changes, and `latest` never goes back. */
  lemma {:induction false} TagsWriteOnce(states: seq<Tags>, i: nat, j: nat)
    requires Runs(states) && i <= j < |states|
    ensures Monotone(states[i], states[j])
  {
    hide RunStep, LatestOK, Monotone;
    if i == j {
      MonotoneSelf(states[i]);
    } else {
      TagsWriteOnce(states, i, j - 1);
      LatestAlwaysStable(states, j - 1);
      RunKeeps(states[j - 1], states[j]);
      MonotoneTrans(states[i], states[j - 1], states[j]);
    }
  }

  /** Where `latest` already names the version of a plan, or a greater one, publishing leaves it alone. */
  lemma OlderReleaseLeavesLatest(plan: Plan, s: Tags, t: Tags)
    requires IndexRun(plan, s, t) && LatestOK(s) && LATEST in s && IsStable(plan.version)
    requires !Precedes(Numbers(s[LATEST].version.value), Numbers(plan.version))
    ensures LATEST in t && t[LATEST] == s[LATEST]
  {
    hide VersionParts, Precedes;
    ReleaseTags(plan, "");
  }

  /** A run that was cut off can be repeated: after any part of it, the same plan is refused nothing it was
      granted before, and completing it gives the same tags as an uninterrupted run. */
  lemma CutOffRunResumes(plan: Plan, s: Tags, t: Tags, u: Tags)
    requires IndexRun(plan, s, t) && LatestOK(s) && LatestRule(plan, s) != Refuse
    requires plan.Tag() in s ==> s[plan.Tag()] == IndexOf(plan)
    requires u == if LatestRule(plan, s).Move? then Tagged(plan, s)[LATEST := IndexOf(plan)] else Tagged(plan, s)
    ensures LatestRule(plan, t) != Refuse && (plan.Tag() in t ==> t[plan.Tag()] == IndexOf(plan))
    ensures u == if LatestRule(plan, t).Move? then Tagged(plan, t)[LATEST := IndexOf(plan)] else Tagged(plan, t)
  {
    hide VersionParts, Precedes;
    ReleaseTags(plan, "");
  }
}
