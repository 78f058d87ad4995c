/** The worker manager: launching, binding, stopping and cleaning workers against durable records. */
module WorkerManager {
  import opened Prelude
  import opened Texts
  import opened PullRequestTarget
  import opened WorkerRecords
  import NameOrder

  /** A worker's checkout: uncommitted changes, branch head, kit files, and its target marker. */
  datatype Workspace = Workspace(clean: bool, head: Commit, files: map<SkillPath, Bytes>, marker: Option<Target>)

  datatype Error = Invalid | NotReady | NotFound | Conflict(reason: string) | Failure(reason: string)

  /** What a launch is given: the active kit and its files, and the skill files the base commit tracks. */
  datatype Supplies = Supplies(
    revision: string, skills: map<string, string>, contents: map<string, Bytes>, tracked: map<SkillPath, Bytes>)

  /**
   What is seen of a worker: whether its provider runs in its terminal (None when nobody answered), its
   workspace when Git found it clean, and its workspace when its terminal had just been stopped.
   */
  datatype Sight =
    | Looked(id: string, alive: Option<bool>)
    | Inspected(id: string, workspace: Workspace)
    | Downed(id: string, workspace: Workspace)

  const CANONICAL_SLUG := "frostyard/snowcat"

  class Manager {
    const os: Platform
    const nodeId: string
    const digest: Bytes -> string
    const floor: map<string, string>                 // the skill digests locked into this build
    const serves: bool                               // whether a kit directory is configured

    var records: map<string, Record>                 // the record files
    var workspaces: map<string, Workspace>
    var terminals: set<string>                       // workers whose terminal is there
    var providers: set<string>                       // workers whose provider is running
    var retained: map<string, Commit>                // branches in the source repository
    ghost var faults: nat                            // outside steps that failed
    ghost var log: seq<Sight>

    /** Every record file reads back, and is its own worker's. */
    ghost predicate Valid()
      reads `records
    {
      forall id <- records :: Kept(os, id, records[id])
    }

    /** Whether an outside step (Git, tmux, the file system) fails. */
    method Fails() returns (fails: bool)
      modifies `faults
      ensures faults == old(faults) + (if fails then 1 else 0)
    {
      fails := *;
      if fails {
        faults := faults + 1;
      }
    }

    /** The atomic record write; only a record that reads back is ever written. */
    method Write(r: Record) returns (wrote: bool)
      requires Valid() && Kept(os, r.id, r)
      requires r.id in records ==> Continues(records[r.id], r)
      modifies `records, `faults
      ensures Valid() && Evolves(old(records), records)
      ensures records == if wrote then old(records)[r.id := r] else old(records)
      ensures faults == old(faults) + (if wrote then 0 else 1)
    {
      hide ValidRecord, Continues;
      assert forall id <- records :: Continues(records[id], records[id]) by { SelfEvolves(); }
      var fails := Fails();
      wrote := !fails;
      if wrote {
        records := records[r.id := r];
      }
    }

    lemma SelfEvolves()
      ensures forall id <- records :: Continues(records[id], records[id])
    {
      forall id <- records ensures Continues(records[id], records[id]) {
        ContinuesItself(records[id]);
      }
    }

    lemma IsOwn(id: string)
      requires Valid() && id in records
      ensures records[id].id == id
    {
    }

    // ---- Launching -----------------------------------------------------------------------------

    predicate MayName(c: char) {
      'A' <= c <= 'Z' || 'a' <= c <= 'z' || '0' <= c <= '9' || c == '_' || c == '.' || c == '-'
    }

    /** What a request must say, before any defaults. */
    predicate CanLaunch(request: Request) {
      && request.adapter in {"", "host", "oci"} && (request.adapter != "oci" ==> request.runtime == "")
      && (request.adapter == "oci" ==> request.runtime in {"", "podman", "docker"})
      && request.provider in {"codex", "claude", "copilot"}
      && |request.mcpServer| <= 80 && (forall c <- request.mcpServer :: MayName(c))
      && request.role in {"discoverer", "implementer", "reviewer"} && IsRepository(request.repository)
      && request.source != "" && |request.baseRef| <= 160 && !("-" <= request.baseRef)
      && '\0' !in request.baseRef && '\n' !in request.baseRef && '\r' !in request.baseRef
    }

    lemma DefaultsNames()
      ensures IsServerName("snowcat") && IsServerName("snowcat-mcp") && IsBaseRef("HEAD")
    {
    }

    lemma BaseRefsAre(s: string)
      requires s != ""
      ensures IsBaseRef(s) <==> |s| <= 160 && !("-" <= s) && '\0' !in s && '\n' !in s && '\r' !in s
    {
    }

    lemma CanLaunchMeans(request: Request)
      ensures CanLaunch(request) <==> Acceptable(WithDefaults(request))
    {
      DefaultsNames();
      hide IsRepository;
      if request.baseRef != "" {
        BaseRefsAre(request.baseRef);
      }
      hide IsBaseRef;
    }

    /** The request with its defaults filled in, or a refusal; an accepted one is accepted again as it is. */
    method ValidateRequest(request: Request) returns (r: Option<Request>)
      ensures r.Some? <==> Acceptable(WithDefaults(request))
      ensures r.Some? ==> r.value == WithDefaults(request) == WithDefaults(r.value)
      ensures r.Some? <==> CanLaunch(request)
      ensures r.Some? ==>
                && r.value == request.(adapter := r.value.adapter, runtime := r.value.runtime,
                                       baseRef := r.value.baseRef, mcpServer := r.value.mcpServer)
                && r.value.adapter == (if request.adapter == "" then "host" else request.adapter)
                && r.value.runtime == (if request.adapter == "oci" && request.runtime == "" then "podman"
                                       else request.runtime)
                && r.value.baseRef == (if request.baseRef == "" then "HEAD" else request.baseRef)
                && r.value.mcpServer == (if request.mcpServer != "" then request.mcpServer
                                         else if request.provider == "copilot" then "snowcat-mcp" else "snowcat")
    {
      var n := request;
      if n.adapter == "" {
        n := n.(adapter := HOST);
      }
      if n.adapter == OCI && n.runtime == "" {
        n := n.(runtime := "podman");
      }
      if n.baseRef == "" {
        n := n.(baseRef := "HEAD");
      }
      if n.mcpServer == "" {
        n := n.(mcpServer := if n.provider == "copilot" then "snowcat-mcp" else "snowcat");
      }
      assert n == WithDefaults(request);
      CanLaunchMeans(request);
      hide CanLaunch, Acceptable;
      var ok := CheckFields(n);
      r := if ok then Some(n) else None;
    }

    /** The fields one after another, in the order of the checks. */
    method CheckFields(n: Request) returns (ok: bool)
      ensures ok <==> Acceptable(n)
    {
      hide IsServerName, IsRepository, IsBaseRef;
      if n.adapter != HOST && n.adapter != OCI {
        return false;
      }
      if n.adapter == HOST && n.runtime != "" {
        return false;
      }
      if n.adapter == OCI && n.runtime != "podman" && n.runtime != "docker" {
        return false;
      }
      if n.provider != "codex" && n.provider != "claude" && n.provider != "copilot" {
        return false;
      }
      if !IsServerName(n.mcpServer) {
        return false;
      }
      if n.role != "discoverer" && n.role != "implementer" && n.role != "reviewer" {
        return false;
      }
      if !IsRepository(n.repository) {
        return false;
      }
      ok := ValidateBaseInput(n.source, n.baseRef);
    }

    method ValidateBaseInput(source: string, baseRef: string) returns (ok: bool)
      ensures ok <==> source != "" && IsBaseRef(baseRef)
    {
      ok := !(source == "" || baseRef == "" || |baseRef| > 160 || "-" <= baseRef
              || '\0' in baseRef || '\n' in baseRef || '\r' in baseRef);
    }

    /** A random worker ID; a draw that is already taken is not part of this model. */
    method NewWorkerId() returns (r: Option<string>)
      modifies `faults
      ensures faults == old(faults) + (if r.None? then 1 else 0)
      ensures r.Some? ==> IsWorkerId(r.value) && r.value !in records && r.value !in workspaces && r.value !in terminals
    {
      var id := Draw();
      r := if IsWorkerId(id) && id !in records && id !in workspaces && id !in terminals then Some(id) else None;
      if r.None? {
        faults := faults + 1;
      }
    }

    method Draw() returns (s: string)
    {
      s := *;
    }

    /** The launch's own failure record; even that write may fail. */
    method FailLaunch(r: Record, detail: string) returns (e: Result<Record, Error>)
      requires Valid() && Kept(os, r.id, r) && r.status == Allocating
      requires r.id in records && Continues(records[r.id], r)
      modifies `records, `faults
      ensures Valid() && Evolves(old(records), records) && e.Err? && faults >= old(faults)
      ensures records == old(records) || records == old(records)[r.id := r.(status := Failed, detail := detail)]
    {
      hide ValidRecord, Kept, Continues;
      var failed := r.(status := Failed, detail := detail);
      Becomes(os, records[r.id], r, failed);
      var wrote := Write(failed);
      e := Err(Failure(detail));
    }

    /** The record says what was asked for, on this node, on a branch of its own, with no target yet. */
    predicate StartedAs(r: Record, q: Request, posture: string, source: string, baseCommit: string) {
      && r.nodeId == nodeId && r.adapter == q.adapter && r.runtime == q.runtime && r.posture == posture
      && r.provider == q.provider && r.mcpServer == q.mcpServer && r.role == q.role && r.repository == q.repository
      && r.source == source && r.baseCommit == baseCommit && r.workspace == "workspaces/" + r.id + "/checkout"
      && r.branch == "cockpit/" + r.id && r.target.None?
    }

    /** The record a launch begins with. */
    method Allocate(q: Request, id: string, posture: string, source: string, baseCommit: string, now: int)
      returns (r: Option<Record>)
      requires Valid() && Acceptable(q) && IsWorkerId(id) && id !in records && nodeId != "" && source != "" && now != 0
      requires if q.adapter == OCI then posture == "rootless" || posture == "rootful" else posture == ""
      modifies `records, `faults
      ensures Valid() && Evolves(old(records), records) && faults == old(faults) + (if r.None? then 1 else 0)
      ensures if r.Some? then r.value.id == id && Kept(os, id, r.value) && r.value.status == Allocating
              && records == old(records)[id := r.value]
                              && StartedAs(r.value, q, posture, source, baseCommit) && r.value.createdAt == now
              else records == old(records)
    {
      hide IsWorkerId, IsRepository, IsServerName;
      var record := Record(RECORD_VERSION, id, nodeId, q.adapter, q.runtime, posture, q.provider, q.mcpServer, q.role,
                           q.repository, source, "workspaces/" + id + "/checkout", baseCommit, "cockpit/" + id, None,
                           None, Allocating, "allocating isolated Git workspace", now);
      var wrote := Write(record);
      r := if wrote then Some(record) else None;
    }

    /**
     Launch a worker. Whatever fails on the way, every record written reads back, nobody else's record or
     workspace changes, and a terminal that was started is on record as one that must be stopped first or
     as failed.
     */
    method Launch(request: Request, posture: string, source: string, baseCommit: string, now: int, supplies: Supplies)
      returns (r: Result<Record, Error>)
      requires Valid() && nodeId != "" && now != 0
      modifies `records, `workspaces, `terminals, `providers, `faults
      ensures Valid() && Evolves(old(records), records)
      ensures r.Err? ==> faults > old(faults) || !Acceptable(WithDefaults(request)) || source == ""
                         || Unfit(request.repository, supplies)
                         || (if WithDefaults(request).adapter == OCI then posture != "rootless"
                             && posture != "rootful" else posture != "")
      ensures r.Ok? ==> StartedAs(r.value, WithDefaults(request), posture, source, baseCommit)
                        && r.value.createdAt == now && r.value.kit == Some(KitFor(request.repository, supplies))
      ensures r.Ok? ==>
                r.value.id !in old(records) && r.value.status == Running
                && records == old(records)[r.value.id := r.value]
                          && r.value.id in workspaces && r.value.id in terminals && r.value.id in providers
                          && workspaces[r.value.id].head == baseCommit && workspaces[r.value.id].marker.None?
                          && Equipped(KitFor(request.repository, supplies), supplies, workspaces[r.value.id].files)
      ensures r.Ok? ==> r.value.kit.Some? && r.value.id in workspaces
                        && IsFurnished(request.repository, supplies, r.value.kit.value, workspaces[r.value.id].files)
      ensures r.Err? && faults == old(faults) && CanLaunch(request) && source != ""
              && (if request.adapter == "oci" then posture in {"rootless", "rootful"} else posture == "") ==>
                CannotFurnish(request.repository, supplies)
      ensures forall id <- old(workspaces) :: id in workspaces && workspaces[id] == old(workspaces)[id]
      ensures forall id <- terminals :: id in old(terminals) ||
                (id !in old(records) && id in records && records[id].status in {Allocating, Running, Failed})
      ensures forall id <- records :: id in old(records) || records[id].status in {Allocating, Running, Failed}
    {
      hide ValidRecord, Kept, Continues, Acceptable, Evolves, Unfit, KitFor, Equipped, CannotFurnish, IsFurnished,
           CanLaunch;
      EvolvesStays(records);
      UnfitMeans(request.repository, supplies);
      var checked := ValidateRequest(request);
      if checked.None? {
        return Err(Error.Invalid);
      }
      var q := checked.value;
      if (if q.adapter == OCI then posture != "rootless" && posture != "rootful" else posture != "") || source == "" {
        return Err(NotReady);
      }
      var id := NewWorkerId();
      if id.None? {
        return Err(Failure("create worker ID"));
      }
      var begun := Allocate(q, id.value, posture, source, baseCommit, now);
      if begun.None? {
        return Err(Failure("write worker record"));
      }
      ghost var before := records;
      r := Populate(begun.value, supplies);
      EvolvesComposes(old(records), before, records);
      if r.Ok? {
        EquippedMeans(request.repository, supplies, workspaces[r.value.id].files);
      }
    }

    // ---- The worker's kit ------------------------------------------------------------------------

    /** In its canonical repository the kit is the checkout's own. */
    function OwnershipFor(repository: string): Ownership {
      if os.sameFold(repository, CANONICAL_SLUG) then Checkout else Cockpit
    }

    function KitFor(repository: string, s: Supplies): Kit { Kit(s.revision, s.skills, OwnershipFor(repository)) }

    /** No file of this root stands where a skill belongs without being that skill. */
    ghost predicate RootFits(skills: map<string, string>, files: map<SkillPath, Bytes>, root: string) {
      forall name <- skills :: SkillPath(root, name) in files ==> Matches(digest, skills, files, SkillPath(root, name))
    }

    /** Every skill is there, as served. */
    ghost predicate RootServed(skills: map<string, string>, files: map<SkillPath, Bytes>, root: string) {
      forall name <- skills :: Matches(digest, skills, files, SkillPath(root, name))
    }

    /** The files are the ones their digests were taken of. */
    ghost predicate Verified(s: Supplies) {
      forall name <- s.skills :: name in s.contents && digest(s.contents[name]) == s.skills[name]
    }

    /** The kit cannot be given: unverified, in the way of the checkout's files, or not the checkout's own. */
    ghost predicate Unfit(repository: string, s: Supplies) {
      if OwnershipFor(repository) == Checkout then !RootServed(s.skills, s.tracked, ".agents")
      else !Verified(s) || exists root <- PROVIDER_ROOTS :: !RootFits(s.skills, s.tracked, root)
    }

    /** Nothing of the checkout is changed; the kit is in both roots, or is the checkout's. */
    ghost predicate Equipped(kit: Kit, s: Supplies, files: map<SkillPath, Bytes>) {
      if kit.ownership == Checkout then files == s.tracked && RootServed(kit.skills, files, ".agents")
      else Extends(s, s.tracked, files) && forall root <- PROVIDER_ROOTS :: RootServed(kit.skills, files, root)
    }

    /** The file at this path has the digest that the kit names for its skill. */
    ghost predicate HasSkill(s: Supplies, files: map<SkillPath, Bytes>, root: string, name: string)
      requires name in s.skills
    {
      SkillPath(root, name) in files && digest(files[SkillPath(root, name)]) == s.skills[name]
    }

    /**
     What a launched worker has: in Snowcat's own repository, whatever the case of its name, exactly the
     checkout, which held every skill; anywhere else the checkout's files and every skill in both roots.
     */
    ghost predicate IsFurnished(repository: string, s: Supplies, kit: Kit, files: map<SkillPath, Bytes>) {
      var canonical := os.sameFold(repository, "frostyard/snowcat");
      && kit.revision == s.revision && kit.skills == s.skills && (kit.ownership == Checkout <==> canonical)
      && (forall p <- s.tracked :: p in files && files[p] == s.tracked[p])
      && (if canonical then files == s.tracked && forall name <- s.skills :: HasSkill(s, files, ".agents", name)
          else
            && (forall name <- s.skills :: HasSkill(s, files, ".agents", name) && HasSkill(s, files, ".claude", name))
            && forall p <- files :: p in s.tracked
                  || (p.root in {".agents", ".claude"} && p.name in s.skills && p.name in s.contents
                      && files[p] == s.contents[p.name]))
    }

    /**
     When no kit can be given: in Snowcat's own repository when the checkout lacks a skill, anywhere else when
     a file of the kit is not what its digest says, or a tracked file stands in the way of a skill.
     */
    ghost predicate CannotFurnish(repository: string, s: Supplies) {
      if os.sameFold(repository, "frostyard/snowcat") then
        exists name <- s.skills :: !HasSkill(s, s.tracked, ".agents", name)
      else
        || (exists name <- s.skills :: name !in s.contents || digest(s.contents[name]) != s.skills[name])
        || exists p <- s.tracked :: p.root in {".agents", ".claude"} && p.name in s.skills
                                    && digest(s.tracked[p]) != s.skills[p.name]
    }

    lemma UnfitMeans(repository: string, s: Supplies)
      ensures Unfit(repository, s) ==> CannotFurnish(repository, s)
    {
      assert ".agents" == PROVIDER_ROOTS[0] && ".claude" == PROVIDER_ROOTS[1];
    }

    lemma EquippedMeans(repository: string, s: Supplies, files: map<SkillPath, Bytes>)
      requires Equipped(KitFor(repository, s), s, files)
      ensures IsFurnished(repository, s, KitFor(repository, s), files)
    {
      assert ".agents" == PROVIDER_ROOTS[0] && ".claude" == PROVIDER_ROOTS[1];
      if !os.sameFold(repository, "frostyard/snowcat") {
        assert RootServed(s.skills, files, ".agents") && RootServed(s.skills, files, ".claude");
      }
    }

    /** `after` is `before` with some of the kit's files. */
    ghost predicate Extends(s: Supplies, before: map<SkillPath, Bytes>, after: map<SkillPath, Bytes>) {
      && (forall p <- before :: p in after && after[p] == before[p])
      && (forall p <- after :: p in before
            || (p.root in PROVIDER_ROOTS && p.name in s.skills && p.name in s.contents
                && after[p] == s.contents[p.name]))
    }

    /** Nothing but the skill files of this workspace has changed. */
    twostate predicate OnlySkillsChanged(id: string)
      reads `workspaces
    {
      && id in old(workspaces) && id in workspaces
      && workspaces == old(workspaces)[id := old(workspaces)[id].(files := workspaces[id].files)]
    }

    /** The checks before anything of a root is written. */
    method Preflight(skills: map<string, string>, files: map<SkillPath, Bytes>, root: string) returns (fits: bool)
      ensures fits <==> RootFits(skills, files, root)
    {
      var rest := skills.Keys;
      while rest != {}
        invariant rest <= skills.Keys
        invariant forall name <- skills :: name !in rest && SkillPath(root, name) in files ==>
                    Matches(digest, skills, files, SkillPath(root, name))
        decreases rest
      {
        var name :| name in rest;
        var p := SkillPath(root, name);
        if p in files && digest(files[p]) != skills[name] {
          return false;
        }
        rest := rest - {name};
      }
      fits := true;
    }

    /** Write the missing files of one root; existing ones are never replaced. A failure may leave some written. */
    method InstallRoot(id: string, s: Supplies, root: string) returns (ok: bool)
      requires id in workspaces && Verified(s) && root in PROVIDER_ROOTS
      modifies `workspaces, `faults
      ensures OnlySkillsChanged(id)
      ensures faults >= old(faults) && Extends(s, old(workspaces)[id].files, workspaces[id].files)
      ensures !ok ==> faults > old(faults) || !RootFits(s.skills, old(workspaces)[id].files, root)
      ensures ok ==> RootServed(s.skills, workspaces[id].files, root)
      ensures forall p <- workspaces[id].files :: p in old(workspaces)[id].files || p.root == root
    {
      var w := workspaces[id];
      var files, rest := w.files, s.skills.Keys;
      var fits := Preflight(s.skills, files, root);
      if !fits {
        return false;
      }
      while rest != {}
        invariant rest <= s.skills.Keys && faults >= old(faults)
        invariant workspaces == old(workspaces)[id := w.(files := files)]
        invariant Extends(s, w.files, files) && RootFits(s.skills, files, root)
        invariant forall p <- files :: p in w.files || p.root == root
        invariant forall name <- s.skills :: name !in rest ==> SkillPath(root, name) in files
        decreases rest
      {
        var name :| name in rest;
        var p := SkillPath(root, name);
        if p !in files {
          var fails := Fails();
          if fails {
            return false;
          }
          files := files[p := s.contents[name]];
          workspaces := workspaces[id := w.(files := files)];
        }
        rest := rest - {name};
      }
      ok := true;
    }

    /** Both provider roots, one after the other. */
    method InstallKit(id: string, s: Supplies) returns (ok: bool)
      requires id in workspaces && Verified(s)
      modifies `workspaces, `faults
      ensures OnlySkillsChanged(id)
      ensures faults >= old(faults) && Extends(s, old(workspaces)[id].files, workspaces[id].files)
      ensures !ok ==> faults > old(faults) || exists root <- PROVIDER_ROOTS :: !RootFits(s.skills,
                                                                                         old(workspaces)[id].files,
                                                                                         root)
      ensures ok ==> forall root <- PROVIDER_ROOTS :: RootServed(s.skills, workspaces[id].files, root)
    {
      hide RootFits, RootServed, Extends, Verified;
      ghost var before := workspaces[id].files;
      assert ".agents" == PROVIDER_ROOTS[0] && ".claude" == PROVIDER_ROOTS[1] && ".agents"[1] != ".claude"[1];
      ok := InstallRoot(id, s, ".agents");
      if ok {
        ghost var between := workspaces[id].files;
        ok := InstallRoot(id, s, ".claude");
        ExtendsTwice(s, before, between, workspaces[id].files);
        OtherRootStays(s, before, between, ".claude");
        ServedStays(s, between, workspaces[id].files, ".agents");
      }
    }

    lemma ExtendsTwice(s: Supplies, x: map<SkillPath, Bytes>, y: map<SkillPath, Bytes>, z: map<SkillPath, Bytes>)
      requires Extends(s, x, y) && Extends(s, y, z)
      ensures Extends(s, x, z)
    {
    }

    lemma OtherRootStays(s: Supplies, before: map<SkillPath, Bytes>, after: map<SkillPath, Bytes>, root: string)
      requires Extends(s, before, after) && forall p <- after :: p in before || p.root != root
      ensures RootFits(s.skills, before, root) ==> RootFits(s.skills, after, root)
    {
    }

    lemma ServedStays(s: Supplies, before: map<SkillPath, Bytes>, after: map<SkillPath, Bytes>, root: string)
      requires RootServed(s.skills, before, root) && Extends(s, before, after)
      ensures RootServed(s.skills, after, root)
    {
    }

    /** Record which kit the worker owns, then see that its workspace holds it. */
    method Equip(record: Record, s: Supplies) returns (r: Result<Record, Error>)
      requires Valid() && record.id in records && records[record.id] == record && record.status == Allocating
      requires record.id in workspaces && workspaces[record.id].files == s.tracked
      modifies `records, `workspaces, `faults
      ensures Valid() && Evolves(old(records), records) && records.Keys == old(records).Keys
      ensures forall id <- records :: id == record.id || records[id] == old(records)[id]
      ensures record.id in records && records[record.id].status in {Allocating, Failed}
      ensures OnlySkillsChanged(record.id)
      ensures faults >= old(faults) && (r.Err? ==> faults > old(faults) || Unfit(record.repository, s))
      ensures r.Ok? ==> r.value == record.(kit := Some(KitFor(record.repository, s))) && records[record.id] == r.value
                        && Equipped(KitFor(record.repository, s), s, workspaces[record.id].files)
    {
      hide ValidRecord, Kept, Continues, Evolves, Unfit, KitFor, Equipped, OwnershipFor;
      var owned := record.(kit := Some(KitFor(record.repository, s)));
      if OwnershipFor(record.repository) == Cockpit && serves {
        var fits := Prepare(record.repository, s);
        if !fits {
          r := RefuseKit(record, record);
          return;
        }
      }
      var wrote := RecordKit(record, owned);
      if !wrote {
        r := RefuseKit(record, owned);
        return;
      }
      ghost var before := records;
      var ok := Furnish(record.id, record.repository, s);
      if ok {
        r := Ok(owned);
      } else {
        r := RefuseKit(owned, owned);
        EvolvesComposes(old(records), before, records);
      }
    }

    method RecordKit(record: Record, owned: Record) returns (wrote: bool)
      requires Valid() && record.id in records && records[record.id] == record && owned == record.(kit := owned.kit)
      modifies `records, `faults
      ensures Valid() && Evolves(old(records), records) && faults >= old(faults) && (!wrote ==> faults > old(faults))
      ensures records == if wrote then old(records)[record.id := owned] else old(records)
    {
      hide ValidRecord, Kept, Continues, Evolves;
      Reowned(record, owned);
      wrote := Write(owned);
    }

    /** The record with its kit is as good as the record without. */
    lemma Reowned(record: Record, owned: Record)
      requires Valid() && record.id in records && records[record.id] == record
      requires owned == record.(kit := owned.kit)
      ensures Kept(os, owned.id, owned) && Continues(records[owned.id], owned)
    {
      assert Kept(os, record.id, record);
      ContinuesItself(record);
      Becomes(os, record, record, owned);
    }

    /** A launch that could not record, prepare or install its kit. */
    method RefuseKit(record: Record, owned: Record) returns (e: Result<Record, Error>)
      requires Valid() && record.id in records && records[record.id] == record && record.status == Allocating
      requires owned == record.(kit := owned.kit)
      modifies `records, `faults
      ensures Valid() && Evolves(old(records), records) && records.Keys == old(records).Keys
      ensures forall id <- records :: id == record.id || records[id] == old(records)[id]
      ensures records[record.id].status in {Allocating, Failed} && e.Err? && faults >= old(faults)
    {
      hide ValidRecord, Kept, Continues, Evolves;
      Reowned(record, owned);
      e := FailLaunch(owned, "worker kit ownership persistence or installation failed");
    }

    /** A kit directory's bundle is verified, and both roots checked, before anything is recorded. */
    method Prepare(repository: string, s: Supplies) returns (fits: bool)
      requires OwnershipFor(repository) == Cockpit
      modifies `faults
      ensures faults >= old(faults) && (!fits ==> faults > old(faults) || Unfit(repository, s))
    {
      assert ".agents" == PROVIDER_ROOTS[0] && ".claude" == PROVIDER_ROOTS[1];
      fits := VerifyContents(s);
      if fits {
        fits := Preflight(s.skills, s.tracked, ".agents");
      }
      if fits {
        fits := Preflight(s.skills, s.tracked, ".claude");
      }
    }

    method VerifyContents(s: Supplies) returns (ok: bool)
      modifies `faults
      ensures faults >= old(faults)
      ensures ok ==> Verified(s)
      ensures !ok ==> faults > old(faults) || !Verified(s)
    {
      var fails := Fails();
      ok := !fails && forall name <- s.skills :: name in s.contents && digest(s.contents[name]) == s.skills[name];
    }

    /** The kit is installed, or in its canonical repository found in the checkout. */
    method Furnish(id: string, repository: string, s: Supplies) returns (ok: bool)
      requires id in workspaces && workspaces[id].files == s.tracked
      modifies `workspaces, `faults
      ensures OnlySkillsChanged(id)
      ensures faults >= old(faults)
      ensures if ok then Equipped(KitFor(repository, s), s, workspaces[id].files)
              else faults > old(faults) || Unfit(repository, s)
    {
      if OwnershipFor(repository) == Checkout {
        ok := InspectCheckout(id, s);
      } else {
        ok := Provide(id, s);
      }
    }

    /** Install the kit into a workspace Cockpit owns the skills of. */
    method Provide(id: string, s: Supplies) returns (ok: bool)
      requires id in workspaces
      modifies `workspaces, `faults
      ensures OnlySkillsChanged(id)
      ensures faults >= old(faults)
      ensures !ok ==> faults > old(faults) || !Verified(s)
                      || exists root <- PROVIDER_ROOTS :: !RootFits(s.skills, old(workspaces)[id].files, root)
      ensures ok ==> Extends(s, old(workspaces)[id].files, workspaces[id].files)
                     && forall root <- PROVIDER_ROOTS :: RootServed(s.skills, workspaces[id].files, root)
    {
      ok := VerifyContents(s);
      if ok {
        ok := InstallKit(id, s);
      }
    }

    /** The canonical checkout descends from the kit's source and holds exactly its skills. */
    method InspectCheckout(id: string, s: Supplies) returns (ok: bool)
      requires id in workspaces
      modifies `faults
      ensures faults >= old(faults)
      ensures if ok then RootServed(s.skills, workspaces[id].files, ".agents")
              else faults > old(faults) || !RootServed(s.skills, workspaces[id].files, ".agents")
    {
      var fails := Fails();
      var files := workspaces[id].files;
      ok := !fails && forall name <- s.skills ::
                        SkillPath(".agents", name) in files
                          && digest(files[SkillPath(".agents", name)]) == s.skills[name];
      if !ok && !fails {
        assert !RootServed(s.skills, files, ".agents");
      }
    }

    lemma HasMember(paths: seq<SkillPath>)
      requires paths != []
      ensures exists p :: p in paths
    {
      assert paths[0] in paths;
    }

    /** What a launch installs, cleanup removes without finding drift, as long as nobody changes it in between. */
    lemma InstalledKitHasNotDrifted(record: Record, s: Supplies, files: map<SkillPath, Bytes>, names: seq<string>)
      requires record.kit.Some? && record.kit.value.ownership == Cockpit && Equipped(record.kit.value, s, files)
      requires floor.Keys <= record.kit.value.skills.Keys && NameOrder.SameMembers(names, Expected(record).Keys)
      ensures Drifted(digest, Expected(record), files, Visited(names)) == []
      ensures forall name <- record.kit.value.skills, root <- PROVIDER_ROOTS :: SkillPath(root, name) in Visited(names)
    {
      assert Expected(record) == record.kit.value.skills;
      assert ".agents" == PROVIDER_ROOTS[0] && ".claude" == PROVIDER_ROOTS[1];
      DriftedExactly(digest, Expected(record), files, Visited(names));
      forall p <- Visited(names) ensures Matches(digest, Expected(record), files, p) {
        assert p.root in PROVIDER_ROOTS && p.name in names;
        assert RootServed(record.kit.value.skills, files, p.root);
      }
      if Drifted(digest, Expected(record), files, Visited(names)) != [] {
        HasMember(Drifted(digest, Expected(record), files, Visited(names)));
      }
      forall name <- record.kit.value.skills, root <- PROVIDER_ROOTS ensures SkillPath(root, name) in Visited(names) {
        EveryRootIsVisited(names, SkillPath(root, name));
      }
    }

    /** The workspace and the kit of a begun launch. */
    method Populate(record: Record, supplies: Supplies) returns (r: Result<Record, Error>)
      requires Valid() && record.id in records && records[record.id] == record && record.status == Allocating
      requires record.id !in workspaces && record.id !in terminals
      modifies `records, `workspaces, `terminals, `providers, `faults
      ensures Valid() && Evolves(old(records), records) && records.Keys == old(records).Keys
      ensures r.Err? ==> faults > old(faults) || Unfit(record.repository, supplies)
      ensures forall id <- records :: id == record.id || records[id] == old(records)[id]
      ensures r.Ok? ==> r.value == record.(kit := Some(KitFor(record.repository, supplies)), status := Running,
                                           detail := r.value.detail)
                        && records[record.id] == r.value && record.id in workspaces && record.id in terminals
                        && record.id in providers && workspaces[record.id].head == record.baseCommit
                        && workspaces[record.id].marker.None?
                        && Equipped(KitFor(record.repository, supplies), supplies, workspaces[record.id].files)
      ensures forall id <- old(workspaces) :: id in workspaces && workspaces[id] == old(workspaces)[id]
      ensures terminals <= old(terminals) + {record.id} && old(terminals) <= terminals
      ensures records[record.id].status in {Allocating, Running, Failed}
    {
      hide ValidRecord, Kept, Continues, Evolves, Unfit, KitFor, Equipped;
      assert Kept(os, record.id, record);
      ContinuesItself(record);
      EvolvesStays(records);
      var fails := Fails();
      if fails {
        r := FailLaunch(record, "Git workspace allocation failed");
        return;
      }
      workspaces := workspaces[record.id := Workspace(true, record.baseCommit, supplies.tracked, None)];
      var equipped := Equip(record, supplies);
      if equipped.Err? {
        r := equipped;
        return;
      }
      ghost var before := records;
      r := Boot(equipped.value);
      EvolvesComposes(old(records), before, records);
    }

    /** Helper, exclusions and terminal, then the record of the running worker. */
    method Boot(record: Record) returns (r: Result<Record, Error>)
      ensures r.Ok? ==> r.value == record.(status := Running, detail := r.value.detail)
      requires Valid() && record.id in records && records[record.id] == record && record.status == Allocating
      requires record.id in workspaces && record.id !in terminals
      modifies `records, `workspaces, `terminals, `providers, `faults
      ensures Valid() && Evolves(old(records), records) && records.Keys == old(records).Keys
      ensures r.Err? ==> faults > old(faults)
      ensures forall id <- records :: id == record.id || records[id] == old(records)[id]
      ensures r.Ok? ==> r.value.status == Running && r.value.id == record.id && records[record.id] == r.value
                        && record.id in workspaces && record.id in terminals && record.id in providers
      ensures forall id <- old(workspaces) :: id in workspaces && workspaces[id] == old(workspaces)[id]
      ensures terminals <= old(terminals) + {record.id} && old(terminals) <= terminals
      ensures records[record.id].status in {Allocating, Running, Failed}
    {
      hide ValidRecord, Kept, Continues, Evolves;
      assert Kept(os, record.id, record);
      ContinuesItself(record);
      EvolvesStays(records);
      var fails := Fails();
      if fails {
        r := FailLaunch(record, "worker kit, helper or exclusion installation failed");
        return;
      }
      terminals, providers := terminals + {record.id}, providers + {record.id};
      fails := Fails();
      if fails {
        r := FailLaunch(record, "tmux provider launch failed");
        return;
      }
      var running := record.(status := Running, detail := "provider running; terminal and workspace retained");
      Becomes(os, record, record, running);
      var wrote := Write(running);
      r := if wrote then Ok(running) else Err(Failure("write worker record"));
    }

    // ---- Binding --------------------------------------------------------------------------------

    /** The workspace holds a marker that does not read back or is not this worker's. */
    predicate BadMarker(record: Record)
      reads `workspaces
    {
      && record.target.None? && record.id in workspaces && workspaces[record.id].marker.Some?
      && var t := workspaces[record.id].marker.value;
      !ValidTarget(os, t) || t.workerId != record.id || t.repository != record.repository
    }

    predicate BadMarkerOf(id: string)
      reads `records, `workspaces
    {
      id in records && BadMarker(records[id])
    }

    /** Record the target a worker prepared, once; a marker that does not fit is an error. */
    method SyncTarget(record: Record) returns (r: Result<Record, Error>)
      requires Valid() && record.id in records && records[record.id] == record
      modifies `records, `faults
      ensures Valid() && Evolves(old(records), records) && faults >= old(faults)
      ensures r.Err? ==> faults > old(faults) || BadMarker(record)
      ensures r.Ok? ==> records == old(records)[record.id := r.value]
                        && r.value == (if record.target.None? && record.id in workspaces
                                       && workspaces[record.id].marker.Some?
                                       then Bound(record, workspaces[record.id].marker.value) else record)
      ensures r.Err? ==> records == old(records)
      ensures r.Ok? && r.value != record ==>
                && record.target.None? && record.id in workspaces && workspaces[record.id].marker.Some?
                && r.value == record.(target := r.value.target)
                && IsBoundTo(r.value.target, workspaces[record.id].marker.value)
    {
      hide ValidRecord, ValidTarget, Evolves;
      EvolvesStays(records);
      if record.target.Some? {
        return Ok(record);
      }
      if record.id !in workspaces || workspaces[record.id].marker.None? {
        return Ok(record);
      }
      var t := workspaces[record.id].marker.value;
      if !ValidTarget(os, t) {
        return Err(Failure("decode worker target"));
      }
      if t.workerId != record.id || t.repository != record.repository {
        return Err(Error.Conflict("worker target does not match its durable record"));
      }
      var fails := Fails();
      if fails {
        return Err(Error.Conflict("prepared worker target moved or left its branch"));
      }
      r := Bind(record, t);
    }

    /** The record names what the marker does, under the same names. */
    predicate IsBoundTo(target: Option<Binding>, t: Target) {
      && target.Some?
      && var b := target.value;
      && b.itemId == t.itemId && b.kind == t.kind && b.pullRequestUrl == t.pullRequestUrl
      && b.repository == t.targetRepository && b.branch == t.targetBranch && b.head == t.boundHead && b.mode == t.mode
    }

    /** A marker that fits goes on record. */
    method Bind(record: Record, t: Target) returns (r: Result<Record, Error>)
      requires Valid() && record.id in records && records[record.id] == record && record.target.None?
      requires ValidTarget(os, t) && t.workerId == record.id && t.repository == record.repository
      modifies `records, `faults
      ensures Valid() && Evolves(old(records), records) && faults == old(faults) + (if r.Ok? then 0 else 1)
      ensures if r.Ok? then r.value == Bound(record, t) && records == old(records)[record.id := Bound(record, t)]
              else records == old(records)
    {
      hide ValidRecord, ValidTarget, Evolves;
      assert Kept(os, record.id, record);
      BindingKeepsValid(os, record, t);
      var wrote := Write(Bound(record, t));
      r := if wrote then Ok(Bound(record, t)) else Err(Failure("write worker record"));
    }

    /** Only a running provider can have changed this workspace, and it may have exited since. */
    twostate predicate MovedOn(id: string)
      reads `workspaces, `providers
    {
      && workspaces.Keys == old(workspaces).Keys
      && (forall other <- workspaces :: other != id ==> workspaces[other] == old(workspaces)[other])
      && (providers == old(providers) || providers == old(providers) - {id})
      && (id !in old(providers) ==> workspaces == old(workspaces))
    }

    /** A provider that is still running may change its workspace at any moment, and may exit. */
    method Meanwhile(id: string)
      modifies `workspaces, `providers
      ensures MovedOn(id)
    {
      var w, exits := AnyWorkspace();
      if id in providers {
        if id in workspaces {
          workspaces := workspaces[id := w];
        }
        if exits {
          providers := providers - {id};
        }
      }
    }

    method AnyWorkspace() returns (w: Workspace, exits: bool)
    {
      w, exits := *, *;
    }

    /** Nothing but a stop may end this worker: it is being launched, or its provider runs in its terminal. */
    predicate Alive(record: Record)
      reads `terminals, `providers
    {
      record.status == Allocating
      || (record.status == Running && record.id in terminals && record.id in providers)
    }

    predicate AliveIs(id: string)
      reads `records, `terminals, `providers
    {
      id in records && Alive(records[id])
    }

    /** What the terminal says about a running worker, which is remembered but not written back. */
    method Reconcile(record: Record) returns (active: bool)
      modifies `workspaces, `providers, `faults, `log
      ensures MovedOn(record.id) && faults >= old(faults)
      ensures record.status != Running ==> active == (record.status == Allocating) && log == old(log)
      ensures record.status == Running ==>
                log == old(log) + [Looked(record.id, if faults > old(faults) then None else Some(Alive(record)))]
      ensures active ==> Alive(record) && faults == old(faults)
      ensures !active ==> faults > old(faults) || !Alive(record)
    {
      active := record.status == Allocating;
      if record.status == Running {
        Meanwhile(record.id);
        var unavailable := Fails();
        active := !unavailable && record.id in terminals && record.id in providers;
        log := log + [Looked(record.id, if unavailable then None else Some(active))];
      }
    }

    /** The worker was being launched, or the first sight after `before` was of its provider at work. */
    ghost predicate SeenAlive(record: Record, before: seq<Sight>)
      reads `log
    {
      record.status == Allocating
      || (record.status == Running && before < log && log[|before|] == Looked(record.id, Some(true)))
    }

    /** The worker had ended, or the first sight after `before` was of its end, or there was no answer. */
    ghost predicate SeenIdle(record: Record, before: seq<Sight>, failed: bool)
      reads `log
    {
      && record.status != Allocating && record.status != Cleaned
      && (record.status == Running ==>
            && before < log
            && (log[|before|] == Looked(record.id, Some(false))
                || (log[|before|] == Looked(record.id, None) && failed)))
    }

    /** As long as nobody looked, only a launch tells. */
    lemma NothingSeen(record: Record)
      ensures SeenAlive(record, log) ==> record.status == Allocating
    {
    }

    /** Neither the terminal nor the workspace was taken away, and nothing else was touched. */
    twostate predicate LeftAlone()
      reads `workspaces, `terminals, `retained
    {
      terminals == old(terminals) && workspaces.Keys == old(workspaces).Keys && retained == old(retained)
    }

    // ---- Stopping and cleaning ---------------------------------------------------------------------

    /** The terminal and whatever runs in it; the log keeps the workspace they leave behind. */
    method StopTerminal(id: string) returns (ok: bool)
      modifies `terminals, `providers, `faults, `log
      ensures faults == old(faults) + (if ok then 0 else 1)
      ensures terminals == if ok then old(terminals) - {id} else old(terminals)
      ensures providers == if ok then old(providers) - {id} else old(providers)
      ensures log == old(log) + (if ok && id in workspaces then [Downed(id, workspaces[id])] else [])
    {
      var fails := Fails();
      ok := !fails;
      if ok {
        terminals, providers := terminals - {id}, providers - {id};
        log := log + (if id in workspaces then [Downed(id, workspaces[id])] else []);
      }
    }

    method Stop(id: string) returns (r: Result<Record, Error>)
      requires Valid()
      modifies `records, `terminals, `providers, `faults, `log
      ensures Valid() && Evolves(old(records), records)
      ensures r.Err? ==> faults > old(faults) || id !in old(records) || old(records)[id].status == Cleaned
                         || BadMarker(old(records)[id])
      ensures r.Ok? ==> id in old(records) && old(records)[id].status != Cleaned && r.value.status == Stopped
                        && id in records && records[id] == r.value && id !in terminals && id !in providers
      ensures id in old(records) && old(records)[id].status == Cleaned ==> r.Err? && terminals == old(terminals)
      ensures terminals == old(terminals) || terminals == old(terminals) - {id}
    {
      hide ValidRecord, Kept, Continues, Evolves;
      EvolvesStays(records);
      if id !in records {
        return Err(NotFound);
      }
      assert Kept(os, id, records[id]) && records[id].id == id by { IsOwn(id); }
      var synced := SyncTarget(records[id]);
      if synced.Err? {
        return Err(synced.error);
      }
      var record := synced.value;
      ghost var before := records;
      if record.status == Cleaned {
        return Err(Error.Conflict("worker is already cleaned"));
      }
      var ok := StopTerminal(id);
      if !ok {
        return Err(Failure("stop retained worker terminal"));
      }
      var stopped := record.(status := Stopped, detail := "terminal stopped; workspace retained");
      ContinuesItself(record);
      assert record.id == id && records[id] == record && Kept(os, id, record);
      Becomes(os, record, record, stopped);
      var wrote := Write(stopped);
      EvolvesComposes(old(records), before, records);
      r := if wrote then Ok(stopped) else Err(Failure("write worker record"));
    }

    /** The digests a worker's own skill files should have: its recorded kit over this build's lock. */
    function Expected(record: Record): map<string, string> {
      if record.kit.None? then floor else floor + record.kit.value.skills
    }

    /** A skill file of the worker's own: in one of the two roots, of the build's kit or of the recorded one. */
    ghost predicate OwnSkill(record: Record, p: SkillPath) {
      (p.root == ".agents" || p.root == ".claude")
      && (p.name in floor || (record.kit.Some? && p.name in record.kit.value.skills))
    }

    /** It is as the recorded kit has it, or, if that does not name it, as the build's has. */
    ghost predicate AsGiven(record: Record, content: Bytes, name: string) {
      if record.kit.Some? && name in record.kit.value.skills then digest(content) == record.kit.value.skills[name]
      else name in floor && digest(content) == floor[name]
    }

    lemma OwnSkillsAre(record: Record)
      ensures forall p :: OwnSkill(record, p) <==> p.root in PROVIDER_ROOTS && p.name in Expected(record)
      ensures forall p: SkillPath, files: map<SkillPath, Bytes>
                {:trigger Matches(digest, Expected(record), files, p)} ::
                p.name in Expected(record) && p in files ==>
                  (Matches(digest, Expected(record), files, p) <==> AsGiven(record, files[p], p.name))
    {
      assert ".agents" == PROVIDER_ROOTS[0] && ".claude" == PROVIDER_ROOTS[1];
    }

    /** The visited paths are the worker's own skill files. */
    lemma VisitsOwnSkills(record: Record, names: seq<string>)
      requires NameOrder.SameMembers(names, Expected(record).Keys)
      ensures forall p :: p in Visited(names) <==> OwnSkill(record, p)
    {
      OwnSkillsAre(record);
      forall p | OwnSkill(record, p) ensures p in Visited(names) {
        EveryRootIsVisited(names, p);
      }
      forall p <- Visited(names) ensures OwnSkill(record, p) {
        OnlyRootsAreVisited(names, p);
      }
    }

    /**
     Remove the skill files a worker was given, one provider root after the other. A file that matches is
     removed; any other stops the removal or, when drift may be discarded, is removed and reported.
     The first `handled` visited paths are gone afterwards, on a refusal too, and nothing else changes.
     */
    method RemoveOwnedSkills(record: Record, discard: bool)
      returns (r: Result<seq<SkillPath>, Error>, ghost names: seq<string>, ghost handled: nat)
      requires record.id in workspaces
      modifies `workspaces, `faults
      ensures OnlySkillsChanged(record.id) && faults >= old(faults)
      ensures r.Err? ==> faults > old(faults) || (!discard && Drifted(digest, Expected(record),
                                                                      old(workspaces)[record.id].files,
                                                                      Visited(names)) != [])
      ensures handled <= |Visited(names)| && NameOrder.Ascending(names)
              && forall p <- Visited(names) :: p.name in Expected(record)
      ensures var before, after := old(workspaces)[record.id].files, workspaces[record.id].files;
              && after == before - (set p <- Visited(names)[..handled])
              && NoneLost(Expected(record), before, Visited(names)[..handled], discard)
              && (record.kit.Some? && record.kit.value.ownership == Checkout ==> r == Ok([]) && handled == 0)
              && (r.Ok? && !(record.kit.Some? && record.kit.value.ownership == Checkout) ==>
                    && handled == |Visited(names)| && NameOrder.SameMembers(names, Expected(record).Keys)
                    && r.value == Drifted(digest, Expected(record), before, Visited(names)))
      ensures var before, after := old(workspaces)[record.id].files, workspaces[record.id].files;
              && (forall p <- after :: p in before && after[p] == before[p])
              && (forall p <- before :: p !in after ==>
                    OwnSkill(record, p) && (discard || AsGiven(record, before[p], p.name))
                    && !(record.kit.Some? && record.kit.value.ownership == Checkout))
              && (r.Ok? && !(record.kit.Some? && record.kit.value.ownership == Checkout) ==>
                    && (forall p <- after :: !OwnSkill(record, p))
                    && forall p :: p in r.value <==> p in before && OwnSkill(record, p)
                                                     && !AsGiven(record, before[p], p.name))
    {
      names, handled := [], 0;
      assert Visited([]) == [];
      if record.kit.Some? && record.kit.value.ownership == Checkout {
        return Ok([]), names, handled;
      }
      var expected := Expected(record);
      var sorted := NameOrder.Sorted(expected.Keys);
      names := sorted;
      VisitedOnce(sorted);
      r, handled := RemovePaths(record.id, expected, Visited(sorted), discard);
      VisitsOwnSkills(record, names);
      OwnSkillsAre(record);
      DriftedExactly(digest, expected, old(workspaces)[record.id].files, Visited(names));
      hide OwnSkill, AsGiven, Matches, Visited, Expected, Drifted;
      assert r.Ok? ==> Visited(names)[..handled] == Visited(names);
    }

    /** Without leave to discard, every file among these matched. */
    ghost predicate NoneLost(expected: map<string, string>, before: map<SkillPath, Bytes>, paths: seq<SkillPath>,
                             discard: bool) {
      discard || forall p <- paths :: p in before ==> Matches(digest, expected, before, p)
    }

    method RemovePaths(id: string, expected: map<string, string>, paths: seq<SkillPath>, discard: bool)
      returns (r: Result<seq<SkillPath>, Error>, ghost handled: nat)
      requires id in workspaces && Unique(paths) && forall p <- paths :: p.name in expected
      modifies `workspaces, `faults
      ensures faults >= old(faults)
      ensures r.Err? ==> faults > old(faults) || (!discard && Drifted(digest, expected, old(workspaces)[id].files,
                                                                      paths) != [])
      ensures OnlySkillsChanged(id)
      ensures handled <= |paths|
      ensures var before, after := old(workspaces)[id].files, workspaces[id].files;
              && after == before - (set p <- paths[..handled])
              && NoneLost(expected, before, paths[..handled], discard)
              && (r.Ok? ==> handled == |paths| && r.value == Drifted(digest, expected, before, paths))
    {
      hide Drifted;
      var w := workspaces[id];
      var files, drifted, i := w.files, [], 0;
      NothingDrifted(expected, w.files);
      while i < |paths|
        invariant 0 <= i <= |paths|
        invariant files == w.files - (set p <- paths[..i])
        invariant drifted == Drifted(digest, expected, w.files, paths[..i])
        invariant NoneLost(expected, w.files, paths[..i], discard)
        invariant workspaces == old(workspaces)[id := w.(files := files)] && faults >= old(faults)
      {
        var p := paths[i];
        assert p !in paths[..i] && paths[..i + 1] == paths[..i] + [p];
        DriftedMore(expected, w.files, paths[..i], p);
        if p in files {
          var removed, differs := RemoveOne(files[p], expected[p.name], discard);
          if removed.Err? {
            if differs && !discard {
              assert p in paths && p in w.files && !Matches(digest, expected, w.files, p);
              DriftedExactly(digest, expected, w.files, paths);
            }
            return Err(removed.error), i;
          }
          drifted := if differs then drifted + [p] else drifted;
          files := files - {p};
          workspaces := workspaces[id := w.(files := files)];
        }
        i := i + 1;
      }
      assert paths[..i] == paths;
      handled := i;
      r := Ok(drifted);
    }

    /** Read one file, compare it, and remove it if that is allowed. */
    method RemoveOne(content: Bytes, expected: string, discard: bool) returns (r: Result<(), Error>, differs: bool)
      modifies `faults
      ensures faults >= old(faults) && (differs ==> digest(content) != expected)
      ensures r.Err? ==> faults > old(faults) || (!discard && differs)
      ensures r.Ok? ==> differs == (digest(content) != expected) && (discard || !differs)
    {
      differs := false;
      var fails := Fails();
      if fails {
        return Err(Failure("inspect Cockpit-owned skill before cleanup")), differs;
      }
      differs := digest(content) != expected;
      if differs && !discard {
        return Err(Error.Conflict("Cockpit-owned skill path drifted")), differs;
      }
      fails := Fails();
      r := if fails then Err(Failure("remove Cockpit-owned skill")) else Ok(());
    }

    lemma NothingDrifted(expected: map<string, string>, files: map<SkillPath, Bytes>)
      ensures Drifted(digest, expected, files, []) == []
    {
    }

    lemma DriftedMore(expected: map<string, string>, files: map<SkillPath, Bytes>, paths: seq<SkillPath>, p: SkillPath)
      ensures Drifted(digest, expected, files, paths + [p])
              == Drifted(digest, expected, files, paths) + (if p in files && !Matches(digest, expected, files, p)
                                                            then [p] else [])
    {
      assert Front(paths + [p]) == paths;
    }

    lemma VisitedOnce(names: seq<string>)
      requires NameOrder.Ascending(names)
      ensures Unique(Visited(names)) && forall p <- Visited(names) :: p.name in names
    {
      forall i, j | 0 <= i < j < |names| ensures names[i] != names[j] {
        NameOrder.LessIsTotal(names[i], names[j]);
      }
    }

    // ---- Cleaning -----------------------------------------------------------------------------------

    /** Only this worker's workspace, terminal and provider may have changed. */
    twostate predicate OthersKept(id: string)
      reads `workspaces, `terminals, `providers
    {
      && workspaces.Keys - {id} == old(workspaces).Keys - {id}
      && (forall other <- workspaces :: other != id ==> other in old(workspaces)
                                                        && workspaces[other] == old(workspaces)[other])
      && (terminals == old(terminals) || terminals == old(terminals) - {id})
      && (providers == old(providers) || providers == old(providers) - {id})
    }

    /** Git's word that nothing is uncommitted. */
    method InspectClean(id: string) returns (r: Result<(), Error>)
      requires id in workspaces
      modifies `faults, `log
      ensures r.Ok? ==> workspaces[id].clean
      ensures faults >= old(faults) && (r.Err? ==> faults > old(faults) || !workspaces[id].clean)
      ensures log == old(log) + (if r.Ok? then [Inspected(id, workspaces[id])] else [])
    {
      var fails := Fails();
      if fails {
        return Err(Failure("inspect workspace before cleanup"));
      }
      if !workspaces[id].clean {
        return Err(Error.Conflict("workspace has uncommitted or untracked changes"));
      }
      log := log + [Inspected(id, workspaces[id])];
      r := Ok(());
    }

    predicate OwnPath(record: Record) {
      record.adapter == OCI ==> record.workspace == "workspaces/" + record.id + "/checkout"
    }

    /**
     The removal itself. An OCI workspace goes only after its branch was fetched into the source; a host
     worktree only if Git still finds it clean.
     */
    method RemoveWorkspace(record: Record) returns (r: Result<(), Error>)
      requires record.id in workspaces
      modifies `workspaces, `retained, `faults
      ensures r.Err? ==> workspaces == old(workspaces)
      ensures faults >= old(faults)
      ensures r.Err? ==> faults > old(faults) || !OwnPath(record)
                         || (record.adapter != OCI && !old(workspaces)[record.id].clean)
      ensures r.Ok? ==> && workspaces == old(workspaces) - {record.id}
                        && OwnPath(record)
                        && (if record.adapter == OCI then record.branch in retained
                            && retained[record.branch] == old(workspaces)[record.id].head
                            else old(workspaces)[record.id].clean)
      ensures forall b <- old(retained) :: b in retained && (b != record.branch ==> retained[b] == old(retained)[b])
    {
      var w := workspaces[record.id];
      var fails := Fails();
      if record.adapter == OCI {
        if record.workspace != "workspaces/" + record.id + "/checkout" {
          return Err(Error.Conflict("OCI workspace path does not match worker identity"));
        }
        if fails {
          return Err(Failure("retain OCI worker branch in source"));
        }
        retained := retained[record.branch := w.head];
        fails := Fails();
        if fails {
          return Err(Failure("remove clean OCI workspace"));
        }
      } else if fails || !w.clean {
        return Err(Failure("remove clean Git worktree"));
      }
      workspaces := workspaces - {record.id};
      r := Ok(());
    }

    /** Why a workspace may be kept although nothing failed; a running provider may change its contents. */
    twostate predicate Unclearable(record: Record, discard: bool)
      reads `workspaces, `providers
    {
      && record.id in old(workspaces)
      && (record.id in old(providers) || !old(workspaces)[record.id].clean || !OwnPath(record)
          || (!discard && exists p <- old(workspaces)[record.id].files ::
                OwnSkill(record, p) && !AsGiven(record, old(workspaces)[record.id].files[p], p.name)))
    }

    /** Every skill file of the worker's own was as it was given, or may be discarded. */
    ghost predicate NothingDriftedAway(record: Record, discard: bool, files: map<SkillPath, Bytes>) {
      || discard || (record.kit.Some? && record.kit.value.ownership == Checkout)
      || forall p <- files :: OwnSkill(record, p) ==> AsGiven(record, files[p], p.name)
    }

    /** What goes with a removed workspace: its commits are kept elsewhere, and nothing else of value is in it. */
    ghost predicate Forfeits(record: Record, discard: bool, w: Workspace)
      reads `retained
    {
      && NothingDriftedAway(record, discard, w.files) && OwnPath(record)
      && (if record.adapter == OCI then record.branch in retained && retained[record.branch] == w.head else w.clean)
    }

    /**
     The workspace's last two sights, which came after `before`: it was inspected clean, then the terminal
     was stopped, and what was there after the stop could be forfeited. `was` is what an exited provider
     had left: nobody can have changed it since.
     */
    ghost predicate Relinquished(record: Record, discard: bool, before: seq<Sight>, exited: bool, was: Workspace)
      reads `log, `retained
    {
      && |log| == |before| + 2 && before <= log
      && var inspected, downed := log[|before|], log[|before| + 1];
      && inspected.Inspected? && inspected.id == record.id && inspected.workspace.clean
      && downed.Downed? && downed.id == record.id && Forfeits(record, discard, downed.workspace)
      && (exited ==> inspected.workspace == downed.workspace == was)
    }

    /** Some own skill file had drifted when the terminal was stopped. */
    ghost predicate DriftSeen(record: Record)
      reads `log
    {
      log != [] && Last(log).Downed? && !NothingDriftedAway(record, false, Last(log).workspace.files)
    }

    function CleanedDetail(discarded: bool): string {
      if discarded then "Cockpit-owned skill files drifted and were discarded; " + "workspace cleaned; branch retained"
      else "workspace cleaned; branch retained"
    }

    /**
     Clear an existing workspace. When it was removed: it had been inspected clean, its terminal was down
     after that, its commits are kept, and of what was there after the stop no drifted skill file went
     without leave. Only a provider that was still running can have changed it in between.
     */
    method ClearWorkspace(record: Record, discard: bool) returns (r: Result<bool, Error>)
      requires record.id in workspaces
      modifies `workspaces, `terminals, `providers, `retained, `faults, `log
      ensures OthersKept(record.id) && faults >= old(faults)
      ensures r.Err? ==> record.id in workspaces
      ensures r.Err? ==> faults > old(faults) || Unclearable(record, discard)
      ensures r.Ok? ==> && record.id !in workspaces && record.id !in terminals && record.id !in providers
                        && Relinquished(record, discard, old(log), record.id !in old(providers),
                                        old(workspaces)[record.id])
                        && r.value == DriftSeen(record)
      ensures old(log) <= log
      ensures forall b <- old(retained) :: b in retained && (b != record.branch ==> retained[b] == old(retained)[b])
    {
      var down := TakeDown(record.id);
      if down.Err? {
        return Err(down.error);
      }
      var stripped := StripSkills(record, discard);
      if stripped.Err? {
        return Err(stripped.error);
      }
      var removed := RemoveWorkspace(record);
      r := if removed.Err? then Err(removed.error) else stripped;
    }

    /** Found clean, then stopped; in between a provider that still runs may go on working. */
    method TakeDown(id: string) returns (r: Result<(), Error>)
      requires id in workspaces
      modifies `workspaces, `terminals, `providers, `faults, `log
      ensures OthersKept(id) && faults >= old(faults) && id in workspaces && old(log) <= log
      ensures id !in old(providers) ==> workspaces == old(workspaces)
      ensures r.Err? ==> faults > old(faults) || !old(workspaces)[id].clean
      ensures r.Ok? ==> id !in terminals && id !in providers && old(workspaces)[id].clean
                        && log == old(log) + [Inspected(id, old(workspaces)[id]), Downed(id, workspaces[id])]
    {
      var inspected := InspectClean(id);
      if inspected.Err? {
        return Err(inspected.error);
      }
      Meanwhile(id);
      var stopped := StopTerminal(id);
      r := if stopped then Ok(()) else Err(Failure("stop retained worker terminal"));
    }

    /** The worker's own skill files go, unless one drifted without leave to discard it; was there drift? */
    method StripSkills(record: Record, discard: bool) returns (r: Result<bool, Error>)
      requires record.id in workspaces
      modifies `workspaces, `faults
      ensures OnlySkillsChanged(record.id) && faults >= old(faults)
      ensures r.Err? ==> faults > old(faults)
                         || (!discard && exists p <- old(workspaces)[record.id].files ::
                               OwnSkill(record, p)
                               && !AsGiven(record, old(workspaces)[record.id].files[p], p.name))
      ensures r.Ok? ==> NothingDriftedAway(record, discard, old(workspaces)[record.id].files)
                        && (r.value <==> !NothingDriftedAway(record, false, old(workspaces)[record.id].files))
    {
      hide Matches, Expected;
      ghost var files := workspaces[record.id].files;
      var drifted;
      ghost var names, handled;
      drifted, names, handled := RemoveOwnedSkills(record, discard);
      if drifted.Err? {
        if Drifted(digest, Expected(record), files, Visited(names)) != [] {
          HasMember(Drifted(digest, Expected(record), files, Visited(names)));
          DriftedExactly(digest, Expected(record), files, Visited(names));
          OwnSkillsAre(record);
          var p :| p in Drifted(digest, Expected(record), files, Visited(names));
          OnlyRootsAreVisited(names, p);
          assert OwnSkill(record, p) && !AsGiven(record, files[p], p.name);
        }
        return Err(drifted.error);
      }
      AllVisited(record, discard, files, names, handled);
      DriftIsReported(record, files, names, drifted.value);
      r := Ok(drifted.value != []);
    }

    /** The removal reports drift exactly when there was some. */
    lemma DriftIsReported(record: Record, files: map<SkillPath, Bytes>, names: seq<string>, drifted: seq<SkillPath>)
      requires if record.kit.Some? && record.kit.value.ownership == Checkout then drifted == []
               else drifted == Drifted(digest, Expected(record), files, Visited(names))
                    && NameOrder.SameMembers(names, Expected(record).Keys)
      ensures drifted != [] <==> !NothingDriftedAway(record, false, files)
    {
      OwnSkillsAre(record);
      DriftedExactly(digest, Expected(record), files, Visited(names));
      if drifted != [] {
        HasMember(drifted);
        var p :| p in drifted;
        OnlyRootsAreVisited(names, p);
      } else if !NothingDriftedAway(record, false, files) {
        var p :| p in files && OwnSkill(record, p) && !AsGiven(record, files[p], p.name);
        assert !Matches(digest, Expected(record), files, p);
        EveryRootIsVisited(names, p);
      }
    }

    lemma OnlyRootsAreVisited(names: seq<string>, p: SkillPath)
      requires p in Visited(names)
      ensures p.root in PROVIDER_ROOTS && p.name in names
    {
      assert ".agents" == PROVIDER_ROOTS[0] && ".claude" == PROVIDER_ROOTS[1];
    }

    /** Removing all of a worker's skill files without leave to discard means that none had drifted. */
    lemma AllVisited(record: Record, discard: bool, files: map<SkillPath, Bytes>, names: seq<string>, handled: nat)
      requires handled <= |Visited(names)| && NoneLost(Expected(record), files, Visited(names)[..handled], discard)
      requires (record.kit.Some? && record.kit.value.ownership == Checkout)
               || (handled == |Visited(names)| && NameOrder.SameMembers(names, Expected(record).Keys))
      ensures NothingDriftedAway(record, discard, files)
    {
      if handled == |Visited(names)| && NameOrder.SameMembers(names, Expected(record).Keys) {
        assert Visited(names)[..handled] == Visited(names);
        OwnSkillsAre(record);
        forall p <- files | OwnSkill(record, p)
          ensures p in Visited(names) && (!discard ==> Matches(digest, Expected(record), files, p)) {
          EveryRootIsVisited(names, p);
        }
      }
    }

    lemma EveryRootIsVisited(names: seq<string>, p: SkillPath)
      requires p.root in PROVIDER_ROOTS && p.name in names
      ensures p in Visited(names)
    {
      var k :| 0 <= k < |names| && names[k] == p.name;
      var i :| 0 <= i < |PROVIDER_ROOTS| && PROVIDER_ROOTS[i] == p.root;
      assert Visited(names)[if i == 0 then k else |names| + k] == p;
    }

    /**
     Clean up a worker that is no longer active. One seen alive is refused and keeps its terminal, its
     provider and its workspace; only one seen idle, or whose inspection failed, loses any of them.
     */
    method Cleanup(id: string, discard: bool) returns (r: Result<Record, Error>)
      requires Valid()
      modifies `records, `workspaces, `terminals, `providers, `retained, `faults, `log
      ensures Valid() && Evolves(old(records), records) && OthersKept(id)
      ensures r.Err? ==> faults > old(faults) || id !in old(records) || old(BadMarkerOf(id))
                         || (old(AliveIs(id)) && SeenAlive(old(records)[id], old(log)))
                         || Unclearable(old(records)[id], discard)
      ensures id in old(records) && SeenAlive(old(records)[id], old(log)) ==> r.Err? && AliveIs(id) && LeftAlone()
      ensures r.Ok? ==> id in old(records) && id in records && records[id] == r.value && r.value.status == Cleaned
      ensures !LeftAlone() || (r.Ok? && old(records)[id].status != Cleaned) ==>
                id in old(records) && SeenIdle(old(records)[id], old(log), faults > old(faults))
      ensures r.Ok? && old(records)[id].status != Cleaned ==>
                id !in workspaces && id !in terminals
                && r.value.detail == CleanedDetail(id in old(workspaces) && DriftSeen(old(records)[id]))
      ensures id in old(workspaces) && id !in workspaces ==> id in old(records) && Removed(old(records)[id], discard)
    {
      hide ValidRecord, Kept, Continues, Evolves, OwnPath, OwnSkill, AsGiven, Relinquished, DriftSeen, IsBoundTo,
           CleanedDetail, SeenAlive;
      EvolvesStays(records);
      if id !in records {
        return Err(NotFound);
      }
      IsOwn(id);
      NothingSeen(records[id]);
      var synced := SyncTarget(records[id]);
      if synced.Err? {
        return Err(synced.error);
      }
      if synced.value.status == Cleaned {
        return Ok(synced.value);
      }
      ghost var before := records;
      r := CleanSynced(synced.value, old(records)[id], discard);
      EvolvesComposes(old(records), before, records);
    }

    /** Cleaning as seen from the record `was` before its target was synced, which does not matter. */
    method CleanSynced(record: Record, ghost was: Record, discard: bool) returns (r: Result<Record, Error>)
      requires Valid() && record.id in records && records[record.id] == record && record.status != Cleaned
      requires was == record.(target := was.target)
      modifies `records, `workspaces, `terminals, `providers, `retained, `faults, `log
      ensures Valid() && Evolves(old(records), records) && OthersKept(was.id) && faults >= old(faults)
      ensures r.Err? ==> faults > old(faults) || (old(Alive(was)) && SeenAlive(was, old(log)))
                         || Unclearable(was, discard)
      ensures if SeenAlive(was, old(log)) then r.Err? && Alive(was) && LeftAlone() && records == old(records)
              else SeenIdle(was, old(log), faults > old(faults))
      ensures r.Ok? ==> was.id in records && records[was.id] == r.value && r.value.status == Cleaned
                        && was.id !in workspaces && was.id !in terminals
                        && r.value.detail == CleanedDetail(was.id in old(workspaces) && DriftSeen(was))
      ensures was.id in old(workspaces) && was.id !in workspaces ==> Removed(was, discard)
    {
      hide ValidRecord, Kept, Continues, Evolves, Expected, OwnPath, OwnSkill, AsGiven, Relinquished, DriftSeen,
           CleanedDetail, SeenIdle, SeenAlive, OthersKept;
      r := CleanRecorded(record, discard);
      TargetAside(record, was, discard);
    }

    /**
     What the removal of this record's workspace says: seen idle, inspected clean, terminal down, commits
     kept, no drifted skill lost without leave.
     */
    twostate predicate Removed(record: Record, discard: bool)
      reads `workspaces, `terminals, `providers, `retained, `faults, `log
    {
      var looks := if record.status == Running then 1 else 0;
      && old(log) <= log && |old(log)| + looks <= |log|
      && SeenIdle(record, old(log), faults > old(faults))
      && record.id in old(workspaces) && record.id !in terminals && record.id !in providers
      && Relinquished(record, discard, log[..|old(log)| + looks], record.id !in old(providers),
                      old(workspaces)[record.id])
    }

    /** The target does not matter for what may be removed. */
    lemma TargetAside(a: Record, b: Record, discard: bool)
      requires b == a.(target := b.target)
      ensures forall before, exited, was ::
                Relinquished(a, discard, before, exited, was) ==> Relinquished(b, discard, before, exited, was)
      ensures DriftSeen(a) <==> DriftSeen(b)
      ensures (OwnPath(a) <==> OwnPath(b)) && forall p :: OwnSkill(a, p) <==> OwnSkill(b, p)
      ensures forall content, name :: AsGiven(a, content, name) <==> AsGiven(b, content, name)
      ensures forall before :: SeenAlive(a, before) <==> SeenAlive(b, before)
      ensures forall before, failed ::
                SeenIdle(a, before, failed) ==> SeenIdle(b, before, failed) && SeenIdle(b, before, true)
    {
    }

    method CleanRecorded(record: Record, discard: bool) returns (r: Result<Record, Error>)
      requires Valid() && record.id in records && records[record.id] == record && record.status != Cleaned
      modifies `records, `workspaces, `terminals, `providers, `retained, `faults, `log
      ensures Valid() && Evolves(old(records), records) && OthersKept(record.id) && faults >= old(faults)
      ensures r.Err? ==> faults > old(faults) || (old(Alive(record)) && SeenAlive(record, old(log)))
                         || Unclearable(record, discard)
      ensures if SeenAlive(record, old(log)) then r.Err? && Alive(record) && LeftAlone() && records == old(records)
              else SeenIdle(record, old(log), faults > old(faults))
      ensures r.Ok? ==> record.id in records && records[record.id] == r.value && r.value.status == Cleaned
                        && record.id !in workspaces && record.id !in terminals
                        && r.value.detail == CleanedDetail(record.id in old(workspaces) && DriftSeen(record))
      ensures record.id in old(workspaces) && record.id !in workspaces ==> Removed(record, discard)
    {
      hide Kept, Evolves, DriftSeen, CleanedDetail, Expected, Forfeits, Valid;
      EvolvesStays(records);
      var active := Reconcile(record);
      if active {
        return Err(Error.Conflict("stop the worker before cleanup"));
      }
      r := CleanIdle(record, discard);
    }

    /** What cleaning means for a worker that need not be refused. */
    method CleanIdle(record: Record, discard: bool) returns (r: Result<Record, Error>)
      requires Valid() && record.id in records && records[record.id] == record
      requires record.status != Allocating && record.status != Cleaned
      modifies `records, `workspaces, `terminals, `providers, `retained, `faults, `log
      ensures Valid() && Evolves(old(records), records) && OthersKept(record.id) && faults >= old(faults)
      ensures old(log) <= log
      ensures r.Err? ==> faults > old(faults) || Unclearable(record, discard)
      ensures r.Ok? ==> record.id in records && records[record.id] == r.value && r.value.status == Cleaned
                        && record.id !in workspaces && record.id !in terminals
                        && r.value.detail == CleanedDetail(record.id in old(workspaces) && DriftSeen(record))
      ensures record.id in old(workspaces) && record.id !in workspaces ==>
                && record.id !in terminals && record.id !in providers
                && Relinquished(record, discard, old(log), record.id !in old(providers), old(workspaces)[record.id])
    {
      hide Kept, Evolves, DriftSeen, CleanedDetail, Expected, Forfeits, Relinquished;
      EvolvesStays(records);
      var vacated := Vacate(record, discard);
      if vacated.Err? {
        return Err(vacated.error);
      }
      r := MarkCleaned(record, vacated.value);
    }

    /** The workspace is cleared if there is one; the terminal is stopped either way. */
    method Vacate(record: Record, discard: bool) returns (r: Result<bool, Error>)
      requires record.status != Allocating && record.status != Cleaned
      modifies `workspaces, `terminals, `providers, `retained, `faults, `log
      ensures OthersKept(record.id) && faults >= old(faults)
      ensures r.Err? ==> faults > old(faults) || Unclearable(record, discard)
      ensures r.Ok? ==> record.id !in workspaces && record.id !in terminals
      ensures r.Ok? ==> r.value == (record.id in old(workspaces) && DriftSeen(record))
      ensures old(log) <= log
      ensures record.id in old(workspaces) && record.id !in workspaces ==>
                && record.id !in terminals && record.id !in providers
                && Relinquished(record, discard, old(log), record.id !in old(providers), old(workspaces)[record.id])
    {
      if record.id in workspaces {
        r := ClearWorkspace(record, discard);
      } else {
        var stopped := StopTerminal(record.id);
        r := if stopped then Ok(false) else Err(Failure("stop retained worker terminal"));
      }
    }

    method MarkCleaned(record: Record, discarded: bool) returns (r: Result<Record, Error>)
      requires Valid() && record.id in records && records[record.id] == record
      modifies `records, `faults
      ensures Valid() && Evolves(old(records), records) && faults == old(faults) + (if r.Ok? then 0 else 1)
      ensures r.Ok? ==> record.id in records && records[record.id] == r.value && r.value.status == Cleaned
                        && r.value.detail == CleanedDetail(discarded)
    {
      hide ValidRecord, Kept, Continues, Evolves;
      assert Kept(os, record.id, record);
      var cleaned := record.(status := Cleaned, detail := "workspace cleaned; branch retained");
      if discarded {
        cleaned := cleaned.(detail := "Cockpit-owned skill files drifted and were discarded; " + cleaned.detail);
      }
      ContinuesItself(record);
      Becomes(os, record, record, cleaned);
      var wrote := Write(cleaned);
      r := if wrote then Ok(cleaned) else Err(Failure("write worker record"));
    }
  }
}
