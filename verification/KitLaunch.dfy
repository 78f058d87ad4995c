/**
 Launches and refreshes sharing one worker kit: launches read the active generation without a lock,
 then hold the kit lock shared while they compare revisions and start; a refresh holds it exclusively.
 */
module KitLaunch {
  import opened Prelude
  import opened KitStore

  /**
   Where one launch stands. `dir` is the directory it resolved: a generation, or the root. In the kit's own
   repository the files are `adopted` from the checkout instead, which must hold the very same skills.
   */
  datatype Phase =
    | Waiting
    | Resolved(dir: Option<string>)
    | Reading(dir: Option<string>, manifest: Manifest, files: map<string, Bytes>)
    | Prepared(dir: Option<string>, kit: Bundle, adopted: bool)       // verified, and recorded with its revision
    | Locked(dir: Option<string>, kit: Bundle, adopted: bool)         // holds the lock shared
    | CheckedOnce(dir: Option<string>, kit: Bundle, adopted: bool)    // the active revision was the recorded one
    | CheckedTwice(dir: Option<string>, kit: Bundle, adopted: bool)   // and again after the provider's readiness
    | Running(dir: Option<string>, kit: Bundle, adopted: bool)        // the provider was started, the lock released
    | Failed

  predicate HoldsShared(p: Phase) { p.Locked? || p.CheckedOnce? || p.CheckedTwice? }

  datatype Node = Node(store: Store, refreshing: bool, launches: map<nat, Phase>)

  datatype Event =
    | BeginRefresh                               // the exclusive lock is taken
    | RefreshStep(store: Store)                  // one change to the file system by its holder
    | EndRefresh                                 // released, or the process died
    | Resolve(l: nat)
    | ReadManifest(l: nat)
    | ReadFile(l: nat, name: string)
    | Verify(l: nat)
    | Adopt(l: nat, files: map<string, Bytes>)   // the canonical checkout's skills, if they are the active ones
    | LockShared(l: nat)
    | Check(l: nat)
    | Start(l: nat)
    | Abandon(l: nat)                            // any failure, or the process died

  function DirAt(s: Store, dir: Option<string>): Option<Dir> {
    if dir.None? then Some(s.root) else if dir.value in s.generations then Some(s.generations[dir.value]) else None
  }

  function At(n: Node, l: nat): Phase { if l in n.launches then n.launches[l] else Waiting }

  /** The manifest a resolved directory records; only the root may fall back on the floor. */
  function ManifestAt(rules: Rules, s: Store, dir: Option<string>): Option<Manifest> {
    var d := DirAt(s, dir);
    if d.None? then None
    else if d.value.manifest.None? then (if dir.None? then Some(rules.floor) else None)
    else if rules.ValidManifest(d.value.manifest.value) then d.value.manifest
    else None
  }

  /** The active revision is the one this launch recorded. */
  predicate RevisionIsActive(rules: Rules, s: Store, kit: Bundle) {
    rules.ActiveManifest(s).Some? && rules.ActiveManifest(s).value.revision == kit.manifest.revision
  }

  predicate Enabled(rules: Rules, n: Node, e: Event) {
    match e
    case BeginRefresh => !n.refreshing && forall l <- n.launches :: !HoldsShared(n.launches[l])
    case RefreshStep(store) => n.refreshing && Advance(n.store, store)
    case EndRefresh => n.refreshing
    case Resolve(l) => At(n, l).Waiting? && (n.store.selection.Some? ==> n.store.selection.value in n.store.generations)
    case ReadManifest(l) => At(n, l).Resolved? && ManifestAt(rules, n.store, n.launches[l].dir).Some?
    case ReadFile(l, name) =>
      At(n, l).Reading? && var d := DirAt(n.store, n.launches[l].dir); d.Some? && name in d.value.files
    case Verify(l) => At(n, l).Reading? && rules.Verified(Bundle(At(n, l).manifest, At(n, l).files))
    case Adopt(l, files) => At(n, l).Reading? && rules.Verified(Bundle(At(n, l).manifest, files))
    case LockShared(l) => At(n, l).Prepared? && !n.refreshing
    case Check(l) =>
      (At(n, l).Locked? || At(n, l).CheckedOnce?) && RevisionIsActive(rules, n.store, n.launches[l].kit)
    case Start(l) => At(n, l).CheckedTwice?
    case Abandon(l) => l in n.launches
  }

  function Step(rules: Rules, n: Node, e: Event): Node
    requires Enabled(rules, n, e)
  {
    match e
    case BeginRefresh => n.(refreshing := true)
    case RefreshStep(store) => n.(store := store)
    case EndRefresh => n.(refreshing := false)
    case Resolve(l) => n.(launches := n.launches[l := Resolved(n.store.selection)])
    case ReadManifest(l) =>
      var dir := n.launches[l].dir;
      n.(launches := n.launches[l := Reading(dir, ManifestAt(rules, n.store, dir).value, map[])])
    case ReadFile(l, name) =>
      var p := n.launches[l];
      n.(launches := n.launches[l := p.(files := p.files[name := DirAt(n.store, p.dir).value.files[name]])])
    case Verify(l) =>
      var p := n.launches[l];
      n.(launches := n.launches[l := Prepared(p.dir, Bundle(p.manifest, p.files), false)])
    case Adopt(l, files) =>
      var p := n.launches[l];
      n.(launches := n.launches[l := Prepared(p.dir, Bundle(p.manifest, files), true)])
    case LockShared(l) =>
      var p := n.launches[l];
      n.(launches := n.launches[l := Locked(p.dir, p.kit, p.adopted)])
    case Check(l) =>
      var p := n.launches[l];
      n.(launches := n.launches[l := if p.Locked? then CheckedOnce(p.dir, p.kit, p.adopted)
                                     else CheckedTwice(p.dir, p.kit, p.adopted)])
    case Start(l) =>
      var p := n.launches[l];
      n.(launches := n.launches[l := Running(p.dir, p.kit, p.adopted)])
    case Abandon(l) => n.(launches := n.launches[l := Failed])
  }

  ghost predicate Possible(rules: Rules, n: Node, events: seq<Event>)
    decreases |events|, 0
  {
    events == [] || (Possible(rules, n, Front(events)) && Enabled(rules, Run(rules, n, Front(events)), Last(events)))
  }

  ghost function Run(rules: Rules, n: Node, events: seq<Event>): Node
    requires Possible(rules, n, events)
    decreases |events|, 1
  {
    if events == [] then n else Step(rules, Run(rules, n, Front(events)), Last(events))
  }

  // ---- What every step keeps ----------------------------------------------------------------------

  predicate WellNamed(s: Store) { forall g <- s.generations :: Named(s.generations[g], g) }

  /** Whatever a launch has read is what its one directory holds. */
  predicate Coherent(rules: Rules, s: Store, p: Phase) {
    match p
    case Waiting => true
    case Failed => true
    case Resolved(dir) => DirAt(s, dir).Some? && (dir.Some? ==> s.selection.Some?)
    case Reading(dir, m, files) =>
      && DirAt(s, dir).Some? && (dir.Some? ==> s.selection.Some?) && ManifestAt(rules, s, dir) == Some(m)
      && forall name <- files :: name in DirAt(s, dir).value.files && files[name] == DirAt(s, dir).value.files[name]
    case _ =>
      && DirAt(s, p.dir).Some? && (p.dir.Some? ==> s.selection.Some?)
      && ManifestAt(rules, s, p.dir) == Some(p.kit.manifest)
      && rules.Verified(p.kit)
      && (!p.adopted ==>
            forall name <- p.kit.files :: name in DirAt(s, p.dir).value.files
                                          && p.kit.files[name] == DirAt(s, p.dir).value.files[name])
  }

  predicate Guarded(rules: Rules, n: Node, p: Phase) {
    && (HoldsShared(p) ==> !n.refreshing)
    && (p.CheckedOnce? || p.CheckedTwice? ==> RevisionIsActive(rules, n.store, p.kit))
  }

  ghost predicate Inv(rules: Rules, n: Node) {
    && WellNamed(n.store)
    && (forall l <- n.launches :: Coherent(rules, n.store, n.launches[l]))
    && (forall l <- n.launches :: Guarded(rules, n, n.launches[l]))
  }

  lemma AdvanceKeepsCoherent(rules: Rules, s: Store, s': Store, p: Phase)
    requires Coherent(rules, s, p) && Advance(s, s')
    ensures Coherent(rules, s', p)
  {
    if !p.Waiting? && !p.Failed? {
      assert DirAt(s', p.dir) == DirAt(s, p.dir);
      assert ManifestAt(rules, s', p.dir) == ManifestAt(rules, s, p.dir);
    }
  }

  /** A launch's own step keeps what it has read coherent. */
  lemma LaunchStaysCoherent(rules: Rules, n: Node, e: Event, l: nat)
    requires Inv(rules, n) && Enabled(rules, n, e) && !e.RefreshStep? && l in Step(rules, n, e).launches
    ensures Coherent(rules, n.store, Step(rules, n, e).launches[l])
  {
    hide Rules.Verified, Rules.ValidManifest, Rules.ActiveManifest, Rules.View, Guarded;
    assert l in n.launches ==> Coherent(rules, n.store, n.launches[l]);
  }

  lemma LaunchStaysGuarded(rules: Rules, n: Node, e: Event, l: nat)
    requires Inv(rules, n) && Enabled(rules, n, e) && l in Step(rules, n, e).launches
    ensures Guarded(rules, Step(rules, n, e), Step(rules, n, e).launches[l])
  {
    hide Coherent, Rules.Verified, Rules.ValidManifest, Rules.ActiveManifest, Rules.View, Advance, ManifestAt, DirAt;
    assert l in n.launches ==> Guarded(rules, n, n.launches[l]);
  }

  lemma StepKeepsInv(rules: Rules, n: Node, e: Event)
    requires Inv(rules, n) && Enabled(rules, n, e)
    ensures Inv(rules, Step(rules, n, e))
  {
    hide Coherent, Guarded, Rules.Verified, Rules.ValidManifest, Rules.ActiveManifest, Rules.View, ManifestAt, DirAt;
    var n' := Step(rules, n, e);
    forall l <- n'.launches ensures Coherent(rules, n'.store, n'.launches[l]) && Guarded(rules, n', n'.launches[l]) {
      LaunchStaysGuarded(rules, n, e, l);
      if e.RefreshStep? {
        AdvanceKeepsCoherent(rules, n.store, e.store, n.launches[l]);
      } else {
        LaunchStaysCoherent(rules, n, e, l);
      }
    }
  }

  lemma {:induction false} EveryRunKeepsInv(rules: Rules, n: Node, events: seq<Event>)
    requires Possible(rules, n, events) && WellNamed(n.store) && n.launches == map[]
    ensures Inv(rules, Run(rules, n, events))
    decreases |events|
  {
    if events != [] {
      EveryRunKeepsInv(rules, n, Front(events));
      StepKeepsInv(rules, Run(rules, n, Front(events)), Last(events));
    }
  }

  /**
   In every interleaving of launches and refreshes, crashes included, a provider starts only while the
   active kit has the revision its launch recorded; the kit in its workspace is a verified bundle of one
   directory's manifest, and the files of that directory unless they were adopted from the checkout; and if
   that directory was a generation, it is exactly the kit, or the skills, that the node serves right then.
   */
  lemma StartsOnlyOnTheRecordedRevision(rules: Rules, n: Node, events: seq<Event>)
    requires Possible(rules, n, events) && WellNamed(n.store) && n.launches == map[]
    requires events != [] && Last(events).Start?
    ensures var z := Run(rules, n, Front(events));
            var p := z.launches[Last(events).l];
            && RevisionIsActive(rules, z.store, p.kit)
            && rules.Verified(p.kit)
            && DirAt(z.store, p.dir).Some? && ManifestAt(rules, z.store, p.dir) == Some(p.kit.manifest)
            && (!p.adopted ==> rules.FromDirectory(p.kit.manifest, DirAt(z.store, p.dir).value) == Some(p.kit))
            && (p.dir.Some? ==> rules.ActiveManifest(z.store) == Some(p.kit.manifest))
            && (p.dir.Some? && !p.adopted ==> rules.View(z.store) == Some(p.kit))
  {
    var z := Run(rules, n, Front(events));
    EveryRunKeepsInv(rules, n, Front(events));
    var p := z.launches[Last(events).l];
    assert Coherent(rules, z.store, p) && Guarded(rules, z, p);
    hide Rules.Verified, Rules.ValidManifest, Rules.FromDirectory, Rules.View;
    if !p.adopted {
      KitIsItsDirectory(rules, z.store, p);
    }
    if p.dir.Some? {
      GenerationIsActive(rules, z.store, p);
      if !p.adopted {
        GenerationIsServed(rules, z.store, p);
      }
    }
  }

  /** What a launch verified is what its directory still holds. */
  lemma KitIsItsDirectory(rules: Rules, s: Store, p: Phase)
    requires Coherent(rules, s, p) && p.CheckedTwice? && !p.adopted
    ensures rules.Verified(p.kit) && DirAt(s, p.dir).Some?
    ensures rules.FromDirectory(p.kit.manifest, DirAt(s, p.dir).value) == Some(p.kit)
  {
    NamesAreFiles(rules, p.kit);
    hide NamesOf, ManifestAt, Rules.Verified;
    assert rules.Taken(p.kit.manifest, DirAt(s, p.dir).value).files == p.kit.files;
  }

  /** Generations are named by revision, so the recorded one is the selected one. */
  lemma GenerationIsActive(rules: Rules, s: Store, p: Phase)
    requires Coherent(rules, s, p) && p.CheckedTwice? && p.dir.Some? && WellNamed(s)
             && RevisionIsActive(rules, s, p.kit)
    ensures s.selection == p.dir && rules.ActiveManifest(s) == Some(p.kit.manifest)
  {
    hide Rules.Verified, Rules.ValidManifest, Rules.FromDirectory;
    assert Named(s.generations[p.dir.value], p.dir.value);
  }

  lemma GenerationIsServed(rules: Rules, s: Store, p: Phase)
    requires Coherent(rules, s, p) && p.CheckedTwice? && p.dir.Some? && WellNamed(s)
             && RevisionIsActive(rules, s, p.kit)
    requires !p.adopted
    ensures rules.View(s) == Some(p.kit)
  {
    KitIsItsDirectory(rules, s, p);
    GenerationIsActive(rules, s, p);
    hide Rules.Verified, Rules.ValidManifest, Rules.FromDirectory;
  }

  // ---- A launch that nobody disturbs ---------------------------------------------------------------

  lemma RunMore(rules: Rules, n: Node, events: seq<Event>, e: Event)
    requires Possible(rules, n, events) && Enabled(rules, Run(rules, n, events), e)
    ensures Possible(rules, n, events + [e])
    ensures Run(rules, n, events + [e]) == Step(rules, Run(rules, n, events), e)
  {
    assert Front(events + [e]) == events && Last(events + [e]) == e;
  }

  /** `n`, but with the launch at this phase. */
  function With(n: Node, l: nat, p: Phase): Node { n.(launches := n.launches[l := p]) }

  function ReadEvents(l: nat, skills: seq<Skill>): seq<Event> {
    seq(|skills|, k requires 0 <= k < |skills| => ReadFile(l, skills[k].name))
  }

  /** Reading every listed file, one after the other, reads exactly these. */
  lemma {:induction false} ReadingReads(rules: Rules, n: Node, events: seq<Event>, l: nat, dir: Option<string>,
                                        m: Manifest, skills: seq<Skill>)
    requires Possible(rules, n, events) && Run(rules, n, events) == With(n, l, Reading(dir, m, map[]))
    requires DirAt(n.store, dir).Some? && NamesOf(skills) <= DirAt(n.store, dir).value.files.Keys
    ensures Possible(rules, n, events + ReadEvents(l, skills))
    ensures var d := DirAt(n.store, dir).value;
            Run(rules, n, events + ReadEvents(l, skills))
            == With(n, l, Reading(dir, m, Picked(d.files, NamesOf(skills))))
    decreases |skills|
  {
    if skills == [] {
      assert events + ReadEvents(l, skills) == events && NamesOf(skills) == {};
      assert Picked(DirAt(n.store, dir).value.files, {}) == map[];
    } else {
      var front, last, d := Front(skills), Last(skills), DirAt(n.store, dir).value;
      NamesMore(front, last);
      assert skills == front + [last];
      ReadingReads(rules, n, events, l, dir, m, front);
      ReadOne(rules, n, l, dir, m, Picked(d.files, NamesOf(front)), last.name);
      OneMorePicked(d.files, NamesOf(front), last.name);
      hide Step, Enabled, NamesOf, Picked;
      RunMore(rules, n, events + ReadEvents(l, front), ReadFile(l, last.name));
      assert events + ReadEvents(l, skills) == events + ReadEvents(l, front) + [ReadFile(l, last.name)];
    }
  }

  function Picked(files: map<string, Bytes>, names: set<string>): map<string, Bytes> {
    map name | name in names && name in files :: files[name]
  }

  lemma OneMorePicked(files: map<string, Bytes>, names: set<string>, name: string)
    requires name in files
    ensures Picked(files, names + {name}) == Picked(files, names)[name := files[name]]
  {
  }

  lemma NamesMore(front: seq<Skill>, last: Skill)
    ensures NamesOf(front + [last]) == NamesOf(front) + {last.name}
  {
    assert last in front + [last] && forall k <- front :: k in front + [last];
  }

  lemma ReadOne(rules: Rules, n: Node, l: nat, dir: Option<string>, m: Manifest, files: map<string, Bytes>,
                name: string)
    requires DirAt(n.store, dir).Some? && name in DirAt(n.store, dir).value.files
    ensures var z := With(n, l, Reading(dir, m, files));
            && Enabled(rules, z, ReadFile(l, name))
            && Step(rules, z, ReadFile(l, name))
               == With(n, l, Reading(dir, m, files[name := DirAt(n.store, dir).value.files[name]]))
  {
  }

  /**
   Whenever the node serves a kit, a launch that nobody disturbs gets to start its provider, with exactly that
   kit out of the active directory.
   */
  lemma UndisturbedLaunchStarts(rules: Rules, n: Node, l: nat, kit: Bundle)
    requires rules.View(n.store) == Some(kit) && !n.refreshing && l !in n.launches
    ensures exists events :: Possible(rules, n, events)
                             && Run(rules, n, events) == With(n, l, Running(n.store.selection, kit, false))
  {
    var dir, m := n.store.selection, kit.manifest;
    ServedIsRead(rules, n.store, kit);
    assert Possible(rules, n, []) && Run(rules, n, []) == n;
    RunMore(rules, n, [], Resolve(l));
    var e1 := [] + [Resolve(l)];
    RunMore(rules, n, e1, ReadManifest(l));
    var e2 := e1 + [ReadManifest(l)];
    assert Run(rules, n, e2) == With(n, l, Reading(dir, m, map[]));
    ReadingReads(rules, n, e2, l, dir, m, m.skills);
    var e3 := e2 + ReadEvents(l, m.skills);
    assert Run(rules, n, e3) == With(n, l, Reading(dir, m, kit.files));
    FromReadingItStarts(rules, n, e3, l, dir, kit);
  }

  lemma FromReadingItStarts(rules: Rules, n: Node, events: seq<Event>, l: nat, dir: Option<string>, kit: Bundle)
    requires Possible(rules, n, events) && Run(rules, n, events) == With(n, l, Reading(dir, kit.manifest, kit.files))
    requires rules.Verified(kit) && !n.refreshing && RevisionIsActive(rules, n.store, kit)
    ensures exists more :: Possible(rules, n, more) && Run(rules, n, more) == With(n, l, Running(dir, kit, false))
  {
    VerifyThenLock(rules, n, l, dir, kit);
    CheckThenStart(rules, n, l, dir, kit);
    hide Step, Enabled;
    RunMore(rules, n, events, Verify(l));
    var e1 := events + [Verify(l)];
    RunMore(rules, n, e1, LockShared(l));
    var e2 := e1 + [LockShared(l)];
    RunMore(rules, n, e2, Check(l));
    var e3 := e2 + [Check(l)];
    RunMore(rules, n, e3, Check(l));
    var e4 := e3 + [Check(l)];
    RunMore(rules, n, e4, Start(l));
    assert Run(rules, n, e4 + [Start(l)]) == With(n, l, Running(dir, kit, false));
  }

  lemma VerifyThenLock(rules: Rules, n: Node, l: nat, dir: Option<string>, kit: Bundle)
    requires rules.Verified(kit) && !n.refreshing
    ensures var z := With(n, l, Reading(dir, kit.manifest, kit.files));
            Enabled(rules, z, Verify(l)) && Step(rules, z, Verify(l)) == With(n, l, Prepared(dir, kit, false))
    ensures var z := With(n, l, Prepared(dir, kit, false));
            Enabled(rules, z, LockShared(l)) && Step(rules, z, LockShared(l)) == With(n, l, Locked(dir, kit, false))
  {
  }

  lemma CheckThenStart(rules: Rules, n: Node, l: nat, dir: Option<string>, kit: Bundle)
    requires RevisionIsActive(rules, n.store, kit)
    ensures var z := With(n, l, Locked(dir, kit, false));
            Enabled(rules, z, Check(l)) && Step(rules, z, Check(l)) == With(n, l, CheckedOnce(dir, kit, false))
    ensures var z := With(n, l, CheckedOnce(dir, kit, false));
            Enabled(rules, z, Check(l)) && Step(rules, z, Check(l)) == With(n, l, CheckedTwice(dir, kit, false))
    ensures var z := With(n, l, CheckedTwice(dir, kit, false));
            Enabled(rules, z, Start(l)) && Step(rules, z, Start(l)) == With(n, l, Running(dir, kit, false))
  {
  }

  lemma ServedIsRead(rules: Rules, s: Store, kit: Bundle)
    requires rules.View(s) == Some(kit)
    ensures DirAt(s, s.selection).Some? && ManifestAt(rules, s, s.selection) == Some(kit.manifest)
    ensures rules.Verified(kit) && RevisionIsActive(rules, s, kit)
    ensures var d := DirAt(s, s.selection).value;
            && NamesOf(kit.manifest.skills) <= d.files.Keys
            && kit.files == Picked(d.files, NamesOf(kit.manifest.skills))
  {
  }
}
