/**
 The node's worker kit on disk: immutable generations, one selection naming the active one, and a
 refresh that may be cut off after any single change to the file system.
 */
module KitStore {
  import opened Prelude

  type Bytes = seq<bv8>

  datatype Skill = Skill(name: string, digest: string)

  function NamesOf(skills: seq<Skill>): set<string> { set s <- skills :: s.name }

  datatype Manifest = Manifest(version: int, repository: string, revision: string, skills: seq<Skill>)

  datatype Bundle = Bundle(manifest: Manifest, files: map<string, Bytes>)

  /** One kit directory: the skill files found in it, and its manifest if it has a readable one. */
  datatype Dir = Dir(files: map<string, Bytes>, manifest: Option<Manifest>)

  const EMPTY_DIR := Dir(map[], None)

  /** The root directory, the named generations, staging directories, and the selected generation. */
  datatype Store = Store(root: Dir, generations: map<string, Dir>, stages: map<nat, Dir>, selection: Option<string>)

  const CANONICAL_REPOSITORY := "https://github.com/frostyard/snowcat"

  /** The embedded manifest, and the checks whose insides are not part of this model. */
  datatype Rules = Rules(
    floor: Manifest,
    digest: Bytes -> string,
    isDocument: (string, Bytes) -> bool,
    isRevision: string -> bool,
    isDigest: string -> bool)
  {
    predicate ValidManifest(m: Manifest) {
      && m.version == 1 && m.repository == CANONICAL_REPOSITORY && isRevision(m.revision)
      && |m.skills| == |floor.skills|
      && (forall i | 0 <= i < |m.skills| :: m.skills[i].name == floor.skills[i].name && isDigest(m.skills[i].digest))
      && (forall i, j | 0 <= i < j < |m.skills| :: m.skills[i].name != m.skills[j].name)
    }

    /** The bundle holds exactly the files its manifest lists, each with the listed digest. */
    predicate Verified(b: Bundle) {
      && ValidManifest(b.manifest)
      && |b.files| == |b.manifest.skills|
      && forall s <- b.manifest.skills ::
           s.name in b.files && digest(b.files[s.name]) == s.digest && isDocument(s.name, b.files[s.name])
    }

    /** The bundle these files make: the floor's skills with the digests of what was shown. */
    function Built(revision: string, shown: map<string, Bytes>): Bundle
      requires forall s <- floor.skills :: s.name in shown
    {
      Bundle(Manifest(floor.version, floor.repository, revision,
                      seq(|floor.skills|, i requires 0 <= i < |floor.skills| =>
                        Skill(floor.skills[i].name, digest(shown[floor.skills[i].name])))),
             shown)
    }

    /** The listed files of a directory, if all are there and verify. */
    function FromDirectory(m: Manifest, d: Dir): Option<Bundle> {
      if !(NamesOf(m.skills) <= d.files.Keys) then None
      else
        var b := Taken(m, d);
        if Verified(b) then Some(b) else None
    }

    function Taken(m: Manifest, d: Dir): Bundle
      requires NamesOf(m.skills) <= d.files.Keys
    {
      Bundle(m, map name | name in NamesOf(m.skills) :: d.files[name])
    }

    /** The active directory: the selected generation, or the root when nothing is selected. */
    function ActiveDirectory(s: Store): Option<Dir> {
      if s.selection.None? then Some(s.root)
      else if s.selection.value in s.generations then Some(s.generations[s.selection.value])
      else None
    }

    /** Only the root may lack a manifest; it is then the embedded floor. */
    function ActiveManifest(s: Store): Option<Manifest> {
      var d := ActiveDirectory(s);
      if d.None? then None
      else if d.value.manifest.None? then (if s.selection.None? then Some(floor) else None)
      else if ValidManifest(d.value.manifest.value) then d.value.manifest
      else None
    }

    /** The kit the node serves: a verified bundle of the active directory, or nothing. */
    function View(s: Store): Option<Bundle> {
      if ActiveManifest(s).None? then None else FromDirectory(ActiveManifest(s).value, ActiveDirectory(s).value)
    }

    /** The digests of the active files match; this is what a refresh asks of the kit it replaces. */
    predicate Ready(s: Store) {
      ActiveManifest(s).Some? &&
      var m, d := ActiveManifest(s).value, ActiveDirectory(s).value;
      forall k <- m.skills :: k.name in d.files && digest(d.files[k.name]) == k.digest
    }
  }

  // ---- What serving means, spelled out ---------------------------------------------------------------

  /** This directory is the active one: the selected generation, or the root while nothing is selected. */
  predicate IsActive(s: Store, d: Dir) {
    if s.selection.Some? then s.selection.value in s.generations && s.generations[s.selection.value] == d
      else s.root == d
  }

  /** A manifest of this kit: the canonical repository, a revision, and the floor's skill names in order. */
  ghost predicate IsManifest(rules: Rules, m: Manifest) {
    && m.version == 1 && m.repository == "https://github.com/frostyard/snowcat" && rules.isRevision(m.revision)
    && |m.skills| == |rules.floor.skills|
    && (forall i | 0 <= i < |m.skills| ::
          m.skills[i].name == rules.floor.skills[i].name && rules.isDigest(m.skills[i].digest))
    && (forall i, j | 0 <= i < j < |m.skills| :: m.skills[i].name != m.skills[j].name)
  }

  /** The manifest that counts for an active directory: its own if it has one, the floor only for the bare root. */
  ghost predicate Records(rules: Rules, s: Store, d: Dir, m: Manifest) {
    if d.manifest.Some? then m == d.manifest.value && IsManifest(rules, m) else s.selection.None? && m == rules.floor
  }

  /** Every listed skill is in the directory with the listed digest. */
  ghost predicate DigestsMatch(rules: Rules, m: Manifest, d: Dir) {
    forall k <- m.skills :: k.name in d.files && rules.digest(d.files[k.name]) == k.digest
  }

  ghost predicate IsHealthy(rules: Rules, s: Store, m: Manifest) {
    exists d: Dir :: IsActive(s, d) && Records(rules, s, d, m) && DigestsMatch(rules, m, d)
  }

  lemma ActiveMeans(rules: Rules, s: Store)
    ensures forall m: Manifest ::
              rules.ActiveManifest(s) == Some(m) <==> exists d: Dir :: IsActive(s, d) && Records(rules, s, d, m)
    ensures forall d: Dir :: rules.ActiveDirectory(s) == Some(d) <==> IsActive(s, d)
  {
    assert forall m: Manifest :: rules.ValidManifest(m) <==> IsManifest(rules, m);
    hide Rules.ValidManifest, IsManifest;
    if rules.ActiveDirectory(s).Some? {
      var d := rules.ActiveDirectory(s).value;
      forall m: Manifest ensures rules.ActiveManifest(s) == Some(m) <==> Records(rules, s, d, m) {
      }
    }
  }

  /** Ready is a kit whose active directory holds what its manifest lists; the manifest is then the active one. */
  lemma ReadyMeans(rules: Rules, s: Store)
    ensures rules.Ready(s) <==> exists m: Manifest :: IsHealthy(rules, s, m)
    ensures rules.Ready(s) ==> rules.ActiveManifest(s).Some? && IsHealthy(rules, s, rules.ActiveManifest(s).value)
  {
    ActiveMeans(rules, s);
    hide Rules.ActiveManifest, Rules.ActiveDirectory, IsActive, Records;
    if rules.Ready(s) {
      var m, d := rules.ActiveManifest(s).value, rules.ActiveDirectory(s).value;
      assert IsActive(s, d) && Records(rules, s, d, m);
      assert IsHealthy(rules, s, m);
    }
    forall m: Manifest | IsHealthy(rules, s, m) ensures rules.Ready(s) {
      var d: Dir :| IsActive(s, d) && Records(rules, s, d, m) && DigestsMatch(rules, m, d);
      assert rules.ActiveManifest(s) == Some(m) && rules.ActiveDirectory(s) == Some(d);
    }
  }

  /**
   What is served: the active directory's listed files, all of them there with the listed digests and documents
   of their skills; nothing is, when one of that is missing.
   */
  ghost predicate IsServed(rules: Rules, s: Store, b: Bundle) {
    && IsManifest(rules, b.manifest) && b.files.Keys == NamesOf(b.manifest.skills)
    && exists d: Dir ::
         && IsActive(s, d) && Records(rules, s, d, b.manifest) && DigestsMatch(rules, b.manifest, d)
         && forall k <- b.manifest.skills ::
              k.name in d.files && k.name in b.files && b.files[k.name] == d.files[k.name]
              && rules.isDocument(k.name, d.files[k.name])
  }

  lemma ViewMeans(rules: Rules, s: Store, b: Bundle)
    ensures rules.View(s) == Some(b) <==> IsServed(rules, s, b)
  {
    ActiveMeans(rules, s);
    if rules.View(s) == Some(b) {
      ViewIsServed(rules, s, b);
    }
    if IsServed(rules, s, b) {
      ServedIsView(rules, s, b);
    }
  }

  lemma ViewIsServed(rules: Rules, s: Store, b: Bundle)
    requires rules.View(s) == Some(b)
    ensures IsServed(rules, s, b)
  {
    ActiveMeans(rules, s);
    var m, d := rules.ActiveManifest(s).value, rules.ActiveDirectory(s).value;
    hide Rules.ActiveManifest, Rules.ActiveDirectory;
    assert IsActive(s, d) && Records(rules, s, d, m);
    assert b == rules.Taken(m, d) && rules.Verified(b);
    assert forall k <- m.skills :: k.name in NamesOf(m.skills);
  }

  lemma ServedIsView(rules: Rules, s: Store, b: Bundle)
    requires IsServed(rules, s, b)
    ensures rules.View(s) == Some(b)
  {
    ActiveMeans(rules, s);
    var d: Dir :| && IsActive(s, d) && Records(rules, s, d, b.manifest) && DigestsMatch(rules, b.manifest, d)
                  && forall k <- b.manifest.skills ::
                       k.name in d.files && k.name in b.files && b.files[k.name] == d.files[k.name]
                       && rules.isDocument(k.name, d.files[k.name]);
    assert rules.ActiveManifest(s) == Some(b.manifest) && rules.ActiveDirectory(s) == Some(d);
    hide Rules.ActiveManifest, Rules.ActiveDirectory, Records, IsActive;
    NamesCount(b.manifest.skills);
    assert rules.Taken(b.manifest, d).files == b.files;
    assert |b.files| == |b.files.Keys|;
  }

  /** What Git showed makes a kit: the floor is well formed, and every shown file is a document with a good digest. */
  ghost predicate MakesKit(rules: Rules, revision: string, shown: map<string, Bytes>) {
    && rules.floor.version == 1 && rules.floor.repository == "https://github.com/frostyard/snowcat"
    && rules.isRevision(revision)
    && (forall i, j | 0 <= i < j < |rules.floor.skills| :: rules.floor.skills[i].name != rules.floor.skills[j].name)
    && forall k <- rules.floor.skills ::
         k.name in shown && rules.isDigest(rules.digest(shown[k.name])) && rules.isDocument(k.name, shown[k.name])
  }

  /** The kit's files are those shown, its manifest names them with their own digests, at that revision. */
  ghost predicate IsKitOf(rules: Rules, revision: string, shown: map<string, Bytes>, b: Bundle) {
    && b.files == shown && b.manifest.version == 1 && b.manifest.revision == revision
    && b.manifest.repository == "https://github.com/frostyard/snowcat"
    && |b.manifest.skills| == |rules.floor.skills|
    && forall i | 0 <= i < |b.manifest.skills| ::
         b.manifest.skills[i].name == rules.floor.skills[i].name && b.manifest.skills[i].name in shown
         && b.manifest.skills[i].digest == rules.digest(shown[b.manifest.skills[i].name])
  }

  lemma BuiltMeans(rules: Rules, revision: string, shown: map<string, Bytes>)
    requires shown.Keys == NamesOf(rules.floor.skills)
    ensures forall s <- rules.floor.skills :: s.name in shown
    ensures rules.Verified(rules.Built(revision, shown)) <==> MakesKit(rules, revision, shown)
    ensures MakesKit(rules, revision, shown) ==> IsKitOf(rules, revision, shown, rules.Built(revision, shown))
  {
    assert forall s <- rules.floor.skills :: s.name in NamesOf(rules.floor.skills);
    BuiltNames(rules, revision, shown);
    if MakesKit(rules, revision, shown) {
      MadeIsVerified(rules, revision, shown);
    }
    if rules.Verified(rules.Built(revision, shown)) {
      VerifiedIsMade(rules, revision, shown);
    }
  }

  lemma BuiltNames(rules: Rules, revision: string, shown: map<string, Bytes>)
    requires forall s <- rules.floor.skills :: s.name in shown
    ensures var m := rules.Built(revision, shown).manifest;
            && |m.skills| == |rules.floor.skills|
            && forall i | 0 <= i < |m.skills| ::
                 m.skills[i].name == rules.floor.skills[i].name && m.skills[i].name in shown
                 && m.skills[i].digest == rules.digest(shown[m.skills[i].name])
  {
    assert forall i | 0 <= i < |rules.floor.skills| :: rules.floor.skills[i] in rules.floor.skills;
  }

  lemma MadeIsVerified(rules: Rules, revision: string, shown: map<string, Bytes>)
    requires shown.Keys == NamesOf(rules.floor.skills) && MakesKit(rules, revision, shown)
    ensures rules.Verified(rules.Built(revision, shown))
    ensures IsKitOf(rules, revision, shown, rules.Built(revision, shown))
  {
    var b := rules.Built(revision, shown);
    BuiltNames(rules, revision, shown);
    NamesCount(rules.floor.skills);
    assert |shown| == |shown.Keys|;
    hide NamesOf;
    forall k <- b.manifest.skills
      ensures k.name in shown && rules.digest(shown[k.name]) == k.digest && rules.isDigest(k.digest)
              && rules.isDocument(k.name, shown[k.name]) {
      var i :| 0 <= i < |b.manifest.skills| && b.manifest.skills[i] == k;
      assert rules.floor.skills[i] in rules.floor.skills;
    }
    forall i | 0 <= i < |b.manifest.skills| ensures rules.isDigest(b.manifest.skills[i].digest) {
      assert b.manifest.skills[i] in b.manifest.skills;
    }
  }

  lemma VerifiedIsMade(rules: Rules, revision: string, shown: map<string, Bytes>)
    requires forall s <- rules.floor.skills :: s.name in shown
    requires rules.Verified(rules.Built(revision, shown))
    ensures MakesKit(rules, revision, shown)
  {
    var b := rules.Built(revision, shown);
    BuiltNames(rules, revision, shown);
    forall k <- rules.floor.skills
      ensures rules.isDigest(rules.digest(shown[k.name])) && rules.isDocument(k.name, shown[k.name]) {
      var i :| 0 <= i < |rules.floor.skills| && rules.floor.skills[i] == k;
      assert b.manifest.skills[i] in b.manifest.skills;
    }
  }

  /** A generation is named after the revision its manifest records. */
  predicate Named(d: Dir, g: string) { d.manifest.Some? && d.manifest.value.revision == g }

  /** What a refresh may change in one step: staging, a new named generation, or the selection of a named one. */
  predicate Advance(s: Store, s': Store) {
    && s'.root == s.root
    && (forall g <- s.generations :: g in s'.generations && s'.generations[g] == s.generations[g])
    && (forall g <- s'.generations :: g in s.generations || Named(s'.generations[g], g))
    && (s'.selection == s.selection || (s'.selection.Some? && s'.selection.value in s'.generations))
  }

  /** Every listed state follows from the one before it, starting at `s`. */
  ghost predicate Steps(s: Store, states: seq<Store>)
    decreases |states|
  {
    states == [] || (Steps(s, Front(states)) && Advance(Final(s, Front(states)), Last(states)))
  }

  function Final(s: Store, states: seq<Store>): Store {
    if states == [] then s else Last(states)
  }

  /** `s` serves the kit `o` serves, or is about to serve exactly the new bundle. */
  ghost predicate OldOrNew(rules: Rules, o: Store, s: Store, b: Bundle) {
    rules.View(s) == rules.View(o) || (rules.View(s).Some? && rules.View(s).value.manifest == b.manifest)
  }

  /** Nothing about the active kit has changed yet. */
  predicate Untouched(o: Store, s: Store) {
    && s.root == o.root && s.selection == o.selection
    && (forall g <- o.generations :: g in s.generations && s.generations[g] == o.generations[g])
  }

  lemma UntouchedView(rules: Rules, o: Store, s: Store)
    requires Untouched(o, s) && rules.ActiveDirectory(o).Some?
    ensures rules.View(s) == rules.View(o)
  {
    hide Rules.ActiveDirectory, Rules.FromDirectory, Rules.ValidManifest, Untouched;
    UntouchedDirectory(rules, o, s);
  }

  lemma UntouchedDirectory(rules: Rules, o: Store, s: Store)
    requires Untouched(o, s) && rules.ActiveDirectory(o).Some?
    ensures rules.ActiveDirectory(s) == rules.ActiveDirectory(o) && s.selection == o.selection
  {
    hide Rules.FromDirectory, Rules.ValidManifest, Rules.Verified;
  }

  lemma {:induction false} StepsJoin(s: Store, x: seq<Store>, y: seq<Store>)
    requires Steps(s, x) && Steps(Final(s, x), y)
    ensures Steps(s, x + y) && Final(s, x + y) == Final(Final(s, x), y)
    decreases |y|
  {
    if y == [] {
      assert x + y == x;
    } else {
      StepsJoin(s, x, Front(y));
      assert Front(x + y) == x + Front(y) && Last(x + y) == Last(y);
    }
  }

  /** The selected directory's files verify as the new bundle's manifest. */
  lemma SelectedView(rules: Rules, s: Store, m: Manifest)
    requires s.selection.Some? && s.selection.value in s.generations
    requires rules.ValidManifest(m) && s.generations[s.selection.value].manifest == Some(m)
    requires rules.FromDirectory(m, s.generations[s.selection.value]).Some?
    ensures rules.View(s).Some? && rules.View(s).value.manifest == m
  {
  }

  /** The states of a stretch in which only staging changed. */
  ghost predicate Staged(o: Store, states: seq<Store>) {
    Steps(o, states) && (forall s <- states :: Untouched(o, s)) && Untouched(o, Final(o, states))
  }

  lemma StagedMore(o: Store, states: seq<Store>, s: Store)
    requires Staged(o, states) && Advance(Final(o, states), s) && Untouched(Final(o, states), s)
    ensures Staged(o, states + [s]) && Final(o, states + [s]) == s
  {
    assert Front(states + [s]) == states;
  }

  lemma StagedJoin(o: Store, x: seq<Store>, y: seq<Store>)
    requires Staged(o, x) && Staged(Final(o, x), y)
    ensures Staged(o, x + y) && Final(o, x + y) == Final(Final(o, x), y)
  {
    StepsJoin(o, x, y);
  }

  /** The first `n` skills of a bundle, and nothing else, are in place. */
  ghost predicate Installed(d: Dir, b: Bundle, n: nat)
    requires n <= |b.manifest.skills|
  {
    && (forall name :: name in d.files <==> exists k | 0 <= k < n :: b.manifest.skills[k].name == name)
    && (forall name <- d.files :: name in b.files && d.files[name] == b.files[name])
  }

  lemma {:induction false} NamesCount(skills: seq<Skill>)
    requires forall i, j | 0 <= i < j < |skills| :: skills[i].name != skills[j].name
    ensures |NamesOf(skills)| == |skills|
    decreases |skills|
  {
    if skills != [] {
      NamesCount(Front(skills));
      assert NamesOf(skills) == NamesOf(Front(skills)) + {Last(skills).name} by {
        assert forall k | 0 <= k < |skills| - 1 :: Front(skills)[k] == skills[k];
        assert skills == Front(skills) + [Last(skills)];
      }
      assert Last(skills).name !in NamesOf(Front(skills));
    }
  }

  lemma NamesAreFiles(rules: Rules, b: Bundle)
    requires rules.Verified(b)
    ensures NamesOf(b.manifest.skills) == b.files.Keys
  {
    NamesCount(b.manifest.skills);
    SameSize(NamesOf(b.manifest.skills), b.files.Keys);
  }

  lemma TakesBack(rules: Rules, d: Dir, b: Bundle)
    requires NamesOf(b.manifest.skills) == b.files.Keys && Installed(d, b, |b.manifest.skills|)
    ensures NamesOf(b.manifest.skills) <= d.files.Keys && rules.Taken(b.manifest, d) == b
  {
    InstalledNames(d, b);
    hide NamesOf;
    assert rules.Taken(b.manifest, d).files == b.files;
  }

  /** A completely staged directory verifies as the bundle it was filled from. */
  lemma InstalledVerifies(rules: Rules, d: Dir, b: Bundle)
    requires rules.Verified(b) && Installed(d, b, |b.manifest.skills|)
    ensures rules.FromDirectory(b.manifest, d) == Some(b)
  {
    hide Installed, NamesOf;
    NamesAreFiles(rules, b);
    TakesBack(rules, d, b);
    assert rules.Verified(b);
  }

  lemma InstalledNames(d: Dir, b: Bundle)
    requires Installed(d, b, |b.manifest.skills|)
    ensures d.files.Keys == NamesOf(b.manifest.skills)
  {
    forall name <- NamesOf(b.manifest.skills) ensures name in d.files {
      var s :| s in b.manifest.skills && s.name == name;
      var k :| 0 <= k < |b.manifest.skills| && b.manifest.skills[k] == s;
    }
  }

  lemma OneStep(s: Store, s': Store)
    requires Advance(s, s')
    ensures Steps(s, [s']) && Final(s, [s']) == s'
  {
    assert Front([s']) == [];
  }

  lemma SameSize<T>(s: set<T>, t: set<T>)
    requires s <= t && |s| == |t|
    ensures s == t
  {
    assert t == s + (t - s);
    assert |t| == |s| + |t - s|;
  }

  lemma AllUntouched(rules: Rules, o: Store, states: seq<Store>, b: Bundle)
    requires Staged(o, states) && rules.ActiveDirectory(o).Some?
    ensures forall s <- states :: OldOrNew(rules, o, s, b)
  {
    forall s <- states ensures OldOrNew(rules, o, s, b) {
      UntouchedView(rules, o, s);
    }
  }

  lemma OldOrNewStays(rules: Rules, o: Store, s: Store, s': Store, b: Bundle)
    requires OldOrNew(rules, o, s, b) && Untouched(s, s') && rules.ActiveDirectory(s).Some?
    ensures OldOrNew(rules, o, s', b) && rules.View(s') == rules.View(s)
  {
    UntouchedView(rules, s, s');
  }

  class Kit {
    const rules: Rules
    const git: (string, string) -> Bytes // what a commit holds, by revision and skill: commits never change
    var store: Store
    ghost var faults: nat                // file-system and Git steps that failed

    /** The bundle of the canonical skills as Git shows them at one exact commit, if it verifies. */
    method BundleFromGit(revision: string) returns (r: Option<Bundle>, ghost shown: map<string, Bytes>)
      modifies `faults
      ensures faults >= old(faults)
      ensures r.Some? ==> rules.Verified(r.value) && r.value.manifest.revision == revision
      ensures rules.isRevision(revision) && faults == old(faults) ==>
                (forall s <- rules.floor.skills :: s.name in shown)
                && r == (if rules.Verified(rules.Built(revision, shown)) then Some(rules.Built(revision, shown))
                         else None)
      ensures r.Some? || (rules.isRevision(revision) && faults == old(faults)) ==>
                && shown.Keys == NamesOf(rules.floor.skills)
                && (forall name <- shown :: shown[name] == git(revision, name))
                && (r.Some? <==> MakesKit(rules, revision, shown))
                && (r.Some? ==> IsKitOf(rules, revision, shown, r.value))
    {
      hide MakesKit, IsKitOf;
      r, shown := None, map[];
      if !rules.isRevision(revision) {
        return;
      }
      var files: map<string, Bytes> := map[];
      var i := 0;
      while i < |rules.floor.skills|
        invariant 0 <= i <= |rules.floor.skills| && faults == old(faults)
        invariant forall k | 0 <= k < i :: rules.floor.skills[k].name in files
        invariant forall name <- files :: name in NamesOf(rules.floor.skills) && files[name] == git(revision, name)
      {
        assert rules.floor.skills[i] in rules.floor.skills;
        var content := ShowFile(revision, rules.floor.skills[i].name);
        if content.None? {
          return;
        }
        files := files[rules.floor.skills[i].name := content.value];
        i := i + 1;
      }
      shown := files;
      assert forall s <- rules.floor.skills :: s.name in files;
      assert files.Keys == NamesOf(rules.floor.skills);
      BuiltMeans(rules, revision, files);
      var b := rules.Built(revision, files);
      r := if rules.Verified(b) then Some(b) else None;
    }

    method ShowFile(revision: string, name: string) returns (content: Option<Bytes>)
      modifies `faults
      ensures faults == old(faults) + (if content.None? then 1 else 0)
      ensures content.Some? ==> content.value == git(revision, name)
    {
      var fails := Fails();
      content := if fails then None else Some(git(revision, name));
    }

    method Fails() returns (fails: bool)
      modifies `faults
      ensures faults == old(faults) + (if fails then 1 else 0)
    {
      fails := *;
      if fails {
        faults := faults + 1;
      }
    }

    /** A name no staging directory uses. */
    method NewStage() returns (id: nat)
      ensures id !in store.stages
    {
      id := 0;
      ghost var seen: set<nat> := {};
      while id in store.stages
        invariant seen == set k | 0 <= k < id && k in store.stages
        invariant |seen| == id && seen <= store.stages.Keys
        decreases |store.stages.Keys - seen|
      {
        seen := seen + {id};
        id := id + 1;
      }
    }

    /** One skill file: created empty, filled in part, then complete or removed again. */
    method WriteSkill(id: nat, name: string, content: Bytes) returns (ok: bool, ghost states: seq<Store>)
      requires id in store.stages && name !in store.stages[id].files
      modifies this
      ensures Staged(old(store), states) && store == Final(old(store), states)
      ensures faults == old(faults) + (if ok then 0 else 1) && store.generations == old(store).generations
      ensures id in store.stages
              && store.stages[id] == (var before := old(store).stages[id];
                                      if ok then before.(files := before.files[name := content]) else before)
    {
      ghost var o := store;
      states := [];
      var before := store.stages[id];
      var n := PartialLength(content);
      store := store.(stages := store.stages[id := before.(files := before.files[name := []])]);
      StagedMore(o, states, store);
      states := states + [store];
      store := store.(stages := store.stages[id := before.(files := before.files[name := content[..n]])]);
      StagedMore(o, states, store);
      states := states + [store];
      var fails := Fails();
      ok := !fails;
      store := store.(stages := store.stages[id := if ok then before.(files := before.files[name := content])
                                             else before]);
      StagedMore(o, states, store);
      states := states + [store];
    }

    method PartialLength(content: Bytes) returns (n: nat)
      ensures n <= |content|
    {
      n := *;
      if n < 0 || n > |content| {
        n := 0;
      }
    }

    /** Fill a staging directory with a verified bundle, its manifest last. */
    method InstallBundle(b: Bundle, id: nat) returns (ok: bool, ghost states: seq<Store>)
      requires rules.Verified(b) && id in store.stages && store.stages[id] == EMPTY_DIR
      modifies this
      ensures Staged(old(store), states) && store == Final(old(store), states)
      ensures faults >= old(faults) && (!ok ==> faults > old(faults))
      ensures id in store.stages && store.generations == old(store).generations
      ensures ok ==> store.stages[id].manifest == Some(b.manifest)
                     && Installed(store.stages[id], b, |b.manifest.skills|)
    {
      ghost var o := store;
      ok, states := false, [];
      var i := 0;
      while i < |b.manifest.skills|
        invariant 0 <= i <= |b.manifest.skills|
        invariant Staged(o, states) && store == Final(o, states) && id in store.stages
                  && store.generations == o.generations
        invariant Installed(store.stages[id], b, i) && faults == old(faults)
      {
        var skill := b.manifest.skills[i];
        assert skill in b.manifest.skills;
        var done;
        ghost var more;
        done, more := WriteSkill(id, skill.name, b.files[skill.name]);
        StagedJoin(o, states, more);
        states := states + more;
        if !done {
          return;
        }
        i := i + 1;
      }
      var fails := Fails();
      if fails {
        return;
      }
      store := store.(stages := store.stages[id := store.stages[id].(manifest := Some(b.manifest))]);
      StagedMore(o, states, store);
      states := states + [store];
      ok := true;
    }

    /** A new staging directory, filled. */
    method StageBundle(b: Bundle) returns (id: nat, ok: bool, ghost states: seq<Store>)
      requires rules.Verified(b)
      modifies this
      ensures Staged(old(store), states) && store == Final(old(store), states)
      ensures faults >= old(faults) && (!ok ==> faults > old(faults))
      ensures store.generations == old(store).generations
      ensures ok ==> id in store.stages && store.stages[id].manifest == Some(b.manifest)
                     && rules.FromDirectory(b.manifest, store.stages[id]) == Some(b)
    {
      ghost var o := store;
      id, ok, states := 0, false, [];
      var fails := Fails();
      if fails {
        return;
      }
      id := NewStage();
      store := store.(stages := store.stages[id := EMPTY_DIR]);
      StagedMore(o, states, store);
      states := [store];
      ghost var more;
      ok, more := InstallBundle(b, id);
      StagedJoin(o, states, more);
      states := states + more;
      if ok {
        InstalledVerifies(rules, store.stages[id], b);
      }
    }

    /** A generation of this revision exists and is not this bundle's. */
    predicate OtherGeneration(s: Store, b: Bundle) {
      var g := b.manifest.revision;
      g in s.generations && !(s.generations[g].manifest == Some(b.manifest)
                              && rules.FromDirectory(b.manifest, s.generations[g]).Some?)
    }

    /** The generation of this revision: an existing one is only checked, never changed. */
    method PlaceGeneration(b: Bundle, id: nat) returns (ok: bool, ghost states: seq<Store>)
      requires id in store.stages && store.stages[id].manifest == Some(b.manifest)
      requires rules.FromDirectory(b.manifest, store.stages[id]) == Some(b)
      modifies this
      ensures Staged(old(store), states) && store == Final(old(store), states)
      ensures faults >= old(faults) && (!ok ==> faults > old(faults) || OtherGeneration(old(store), b))
      ensures ok ==> var g := b.manifest.revision;
                     && g in store.generations && store.generations[g].manifest == Some(b.manifest)
                     && rules.FromDirectory(b.manifest, store.generations[g]).Some?
    {
      ghost var o := store;
      var g := b.manifest.revision;
      ok, states := false, [];
      if g in store.generations {
        var d := store.generations[g];
        ok := d.manifest == Some(b.manifest) && rules.FromDirectory(b.manifest, d).Some?;
      } else {
        var fails := Fails();
        if !fails {
          store := store.(generations := store.generations[g := store.stages[id]], stages := store.stages - {id});
          StagedMore(o, states, store);
          states := [store];
          ok := true;
        }
      }
    }

    /**
     Replace a healthy active kit by the canonical skills of one exact commit. `states` are all states
     the store passes through; being cut off leaves it in one of them.
     */
    method RefreshKitFromGit(revision: string)
      returns (r: Result<string, string>, ghost states: seq<Store>, ghost fetched: Option<Bundle>,
               ghost shown: map<string, Bytes>)
      modifies this
      ensures r.Err? ==>
                || faults > old(faults) || !rules.isRevision(revision) || !rules.Ready(old(store))
                || (fetched.None? && (forall s <- rules.floor.skills :: s.name in shown)
                    && !rules.Verified(rules.Built(revision, shown)))
                || (fetched.Some? && OtherGeneration(old(store), fetched.value))
      ensures Steps(old(store), states) && store == Final(old(store), states)
      ensures fetched.None? ==> states == [] && r.Err?
      ensures fetched.Some? ==>
                && rules.Verified(fetched.value) && fetched.value.manifest.revision == revision
                && forall s <- states :: OldOrNew(rules, old(store), s, fetched.value)
      ensures r.Err? ==> rules.View(store) == rules.View(old(store))
      ensures r.Ok? ==>
                && fetched.Some? && IsKitOf(rules, revision, shown, fetched.value)
                && (forall name <- shown :: shown[name] == git(revision, name))
                && (exists m: Manifest :: IsHealthy(rules, old(store), m) && r.value == m.revision)
                && IsHealthy(rules, store, fetched.value.manifest) && store.selection.Some?
      ensures r.Err? && faults == old(faults) && rules.isRevision(revision) ==>
                || !MakesKit(rules, revision, shown) || (forall m: Manifest :: !IsHealthy(rules, old(store), m))
                || (fetched.Some? && OtherGeneration(old(store), fetched.value))
      ensures r.Ok? ==> && rules.Ready(old(store)) && r.value == rules.ActiveManifest(old(store)).value.revision
                        && rules.ActiveManifest(store) == Some(fetched.value.manifest) && rules.Ready(store)
                        && (states != [] ==> rules.View(store).Some?)
    {
      hide IsHealthy, MakesKit, IsKitOf, Advance, Rules.FromDirectory, Rules.ValidManifest, Rules.Built;
      states := [];
      ReadyMeans(rules, store);
      var source;
      source, shown := BundleFromGit(revision);
      fetched := source;
      if source.None? {
        return Err("read canonical skills"), states, fetched, shown;
      }
      var b := source.value;
      if !rules.Ready(store) {
        return Err("active worker kit is not ready; repair it before source refresh"), states, fetched, shown;
      }
      var current := rules.ActiveManifest(store).value;
      if store.selection.Some? && current == b.manifest {
        return Ok(current.revision), states, fetched, shown;
      }
      var done;
      done, states := Replace(b);
      ReadyMeans(rules, store);
      r := if done then Ok(current.revision) else Err("stage, retain or activate source worker kit");
    }

    method Replace(b: Bundle) returns (ok: bool, ghost states: seq<Store>)
      requires rules.Verified(b) && rules.Ready(store)
      modifies this
      ensures faults >= old(faults) && (!ok ==> faults > old(faults) || OtherGeneration(old(store), b))
      ensures Steps(old(store), states) && store == Final(old(store), states)
      ensures forall s <- states :: OldOrNew(rules, old(store), s, b)
      ensures !ok ==> rules.View(store) == rules.View(old(store))
      ensures ok ==> rules.View(store).Some? && rules.ActiveManifest(store) == Some(b.manifest) && rules.Ready(store)
                     && store.selection == Some(b.manifest.revision)
    {
      hide Rules.ValidManifest, Rules.FromDirectory, Rules.Ready, Untouched, Advance;
      ghost var o := store;
      var id;
      ok, id, states := Retain(b);
      var fails := Fails();
      ok := ok && !fails;
      if ok {
        ghost var more := Select(b);
        StepsJoin(o, states, more);
        states := states + more;
      }
      ghost var before := store;
      ghost var last := RemoveStage(id);
      OldOrNewStays(rules, o, before, store, b);
      StepsJoin(o, states, last);
      states := states + last;
    }

    /** Everything before the switch: a staged bundle, and the generation of its revision. */
    method Retain(b: Bundle) returns (ok: bool, id: nat, ghost states: seq<Store>)
      requires rules.Verified(b) && rules.Ready(store)
      modifies this
      ensures faults >= old(faults) && (!ok ==> faults > old(faults) || OtherGeneration(old(store), b))
      ensures Steps(old(store), states) && store == Final(old(store), states)
      ensures forall s <- states :: OldOrNew(rules, old(store), s, b)
      ensures rules.View(store) == rules.View(old(store)) && rules.ActiveDirectory(store).Some?
      ensures ok ==> var g := b.manifest.revision;
                     && g in store.generations && store.generations[g].manifest == Some(b.manifest)
                     && rules.FromDirectory(b.manifest, store.generations[g]).Some?
    {
      ghost var o := store;
      id, ok, states := StageBundle(b);
      if ok {
        ghost var more;
        ok, more := PlaceGeneration(b, id);
        StagedJoin(o, states, more);
        states := states + more;
      }
      AllUntouched(rules, o, states, b);
      UntouchedView(rules, o, store);
    }

    /** The atomic switch. */
    method Select(b: Bundle) returns (ghost states: seq<Store>)
      requires rules.ValidManifest(b.manifest)
      requires var g := b.manifest.revision;
               g in store.generations && store.generations[g].manifest == Some(b.manifest)
               && rules.FromDirectory(b.manifest, store.generations[g]).Some?
      modifies `store
      ensures states == [store] && Steps(old(store), states)
      ensures rules.View(store).Some? && rules.View(store).value.manifest == b.manifest
      ensures rules.ActiveManifest(store) == Some(b.manifest) && rules.Ready(store)
      ensures store.selection == Some(b.manifest.revision)
    {
      ghost var before := store;
      store := store.(selection := Some(b.manifest.revision));
      SelectedView(rules, store, b.manifest);
      states := [store];
      OneStep(before, store);
    }

    method RemoveStage(id: nat) returns (ghost states: seq<Store>)
      modifies `store
      ensures states == [store] && Steps(old(store), states) && Untouched(old(store), store)
      ensures rules.ActiveManifest(store) == rules.ActiveManifest(old(store)) || rules.ActiveDirectory(old(store)).None?
      ensures rules.Ready(old(store)) ==> rules.Ready(store)
      ensures store.selection == old(store).selection
    {
      ghost var before := store;
      store := store.(stages := store.stages - {id});
      states := [store];
      OneStep(before, store);
    }
  }
}
