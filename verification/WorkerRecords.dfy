/** Durable worker records: which are valid, and how they may change over a worker's life. */
module WorkerRecords {
  import opened Prelude
  import opened Texts
  import opened PullRequestTarget

  type Bytes = seq<bv8>

  const HOST := "host"
  const OCI := "oci"
  const RECORD_VERSION := 1

  datatype Status = Allocating | Running | Failed | Stopped | Cleaned

  datatype Ownership = Cockpit | Checkout

  /** The kit a worker was launched with: revision and skill digests. */
  datatype Kit = Kit(revision: string, skills: map<string, string>, ownership: Ownership)

  /** The pull-request target a record remembers once its worker has prepared one. */
  datatype Binding = Binding(
    itemId: string, kind: string, pullRequestUrl: string, repository: string, branch: string, head: Commit, mode: Mode)

  datatype Record = Record(
    version: int, id: string, nodeId: string, adapter: string, runtime: string, posture: string,
    provider: string, mcpServer: string, role: string, repository: string, source: string,
    workspace: string, baseCommit: string, branch: string, target: Option<Binding>,
    kit: Option<Kit>, status: Status, detail: string, createdAt: int)

  datatype Request = Request(
    adapter: string, runtime: string, provider: string, mcpServer: string, role: string,
    repository: string, source: string, baseRef: string)

  predicate IsServerName(s: string) { 1 <= |s| <= 80 && forall c <- s :: IsNameChar(c) }

  predicate IsProvider(s: string) { s == "codex" || s == "claude" || s == "copilot" }

  predicate IsRole(s: string) { s == "discoverer" || s == "implementer" || s == "reviewer" }

  function WithDefaults(r: Request): Request {
    var adapter := if r.adapter == "" then HOST else r.adapter;
    r.(adapter := adapter,
       runtime := if adapter == OCI && r.runtime == "" then "podman" else r.runtime,
       baseRef := if r.baseRef == "" then "HEAD" else r.baseRef,
       mcpServer := if r.mcpServer != "" then r.mcpServer else if r.provider == "copilot" then "snowcat-mcp"
         else "snowcat")
  }

  predicate Acceptable(r: Request) {
    && (r.adapter == HOST || r.adapter == OCI)
    && (r.adapter == HOST ==> r.runtime == "")
    && (r.adapter == OCI ==> r.runtime == "podman" || r.runtime == "docker")
    && IsProvider(r.provider) && IsServerName(r.mcpServer) && IsRole(r.role) && IsRepository(r.repository)
    && r.source != "" && IsBaseRef(r.baseRef)
  }

  predicate IsBaseRef(s: string) {
    1 <= |s| <= 160 && s[0] != '-' && '\0' !in s && '\n' !in s && '\r' !in s
  }

  /** What the marker of a record's target would be, to validate it like one. */
  function TargetOf(r: Record): Target
    requires r.target.Some?
  {
    var b := r.target.value;
    Target(TARGET_VERSION, r.id, r.repository, b.itemId, b.kind, b.pullRequestUrl, b.head, b.head,
           b.repository, b.branch, if b.mode == Branch then r.branch else "", b.mode)
  }

  /** The check every record must pass to be read back. */
  predicate ValidRecord(os: Platform, r: Record) {
    && r.version == RECORD_VERSION && IsWorkerId(r.id) && r.nodeId != ""
    && (r.adapter == HOST || r.adapter == OCI)
    && (r.adapter == HOST ==> r.runtime == "" && r.posture == "")
    && (r.adapter == OCI ==> (r.runtime == "podman" || r.runtime == "docker")
                             && (r.posture == "rootless" || r.posture == "rootful"))
    && IsProvider(r.provider) && (r.mcpServer != "" ==> IsServerName(r.mcpServer)) && IsRole(r.role)
    && r.createdAt != 0 && r.workspace != "" && r.source != ""
    && (r.target.Some? ==> ValidTarget(os, TargetOf(r)))
  }

  /** Validity does not mention the branch; a branch target is valid only because every record keeps this. */
  predicate OnOwnBranch(r: Record) { r.branch == "cockpit/" + r.id }

  predicate Kept(os: Platform, id: string, r: Record) { r.id == id && ValidRecord(os, r) && OnOwnBranch(r) }

  /** The record after its worker's marker has been read. */
  function Bound(r: Record, t: Target): Record {
    r.(target := Some(Binding(t.itemId, t.kind, t.pullRequestUrl, t.targetRepository, t.targetBranch, t.boundHead,
                              t.mode)))
  }

  /** A valid marker of this worker and repository makes a record that still reads back. */
  lemma BindingKeepsValid(os: Platform, r: Record, t: Target)
    requires Kept(os, r.id, r) && r.target.None?
    requires ValidTarget(os, t) && t.workerId == r.id && t.repository == r.repository
    ensures Kept(os, r.id, Bound(r, t))
  {
    assert TargetOf(Bound(r, t)) == t.(leaseHead := t.boundHead);
  }

  // ---- How a record may change -------------------------------------------------------------------

  predicate Moves(a: Status, b: Status) {
    match a
    case Allocating => true
    case Running => b != Allocating
    case Failed => b == Failed || b == Stopped || b == Cleaned
    case Stopped => b == Stopped || b == Cleaned
    case Cleaned => b == Cleaned
  }

  /** Identity never changes, a target once recorded stays, and status only moves forward. */
  predicate Continues(a: Record, b: Record) {
    && b.id == a.id && b.nodeId == a.nodeId && b.adapter == a.adapter && b.runtime == a.runtime
    && b.posture == a.posture
    && b.provider == a.provider && b.mcpServer == a.mcpServer && b.role == a.role && b.repository == a.repository
    && b.source == a.source && b.workspace == a.workspace && b.baseCommit == a.baseCommit && b.branch == a.branch
    && b.createdAt == a.createdAt
    && (a.target.Some? ==> b.target == a.target)
    && Moves(a.status, b.status)
  }

  predicate Evolves(r: map<string, Record>, r': map<string, Record>) {
    forall id <- r :: id in r' && Continues(r[id], r'[id])
  }

  lemma EvolvesStays(r: map<string, Record>)
    ensures Evolves(r, r)
  {
  }

  lemma EvolvesComposes(r: map<string, Record>, r': map<string, Record>, r'': map<string, Record>)
    requires Evolves(r, r') && Evolves(r', r'')
    ensures Evolves(r, r'')
  {
  }

  lemma ContinuesItself(r: Record)
    ensures Continues(r, r)
  {
  }

  /** A change of status, detail and kit alone keeps a record valid and continues whatever is stored. */
  lemma Becomes(os: Platform, stored: Record, r: Record, r': Record)
    requires Kept(os, r.id, r) && Continues(stored, r)
    requires r' == r.(status := r'.status, detail := r'.detail, kit := r'.kit) && Moves(r.status, r'.status)
    ensures Kept(os, r.id, r') && Continues(stored, r')
  {
    assert r'.target.Some? ==> TargetOf(r') == TargetOf(r);
  }

  /** Over any sequence of operations, each of which evolves the records, so does the whole. */
  lemma {:induction false} HistoriesEvolve(h: seq<map<string, Record>>, m: nat, n: nat)
    requires m <= n < |h| && forall k | 0 <= k < |h| - 1 :: Evolves(h[k], h[k + 1])
    ensures Evolves(h[m], h[n])
    decreases n
  {
    if m < n {
      HistoriesEvolve(h, m, n - 1);
      assert Evolves(h[n - 1], h[n - 1 + 1]);
    }
  }

  /** Cleaned is final, and so is the target. */
  lemma CleanedIsFinal(h: seq<map<string, Record>>, m: nat, n: nat, id: string)
    requires m <= n < |h| && forall k | 0 <= k < |h| - 1 :: Evolves(h[k], h[k + 1])
    requires id in h[m]
    ensures id in h[n] && (h[m][id].status == Cleaned ==> h[n][id].status == Cleaned)
    ensures h[m][id].target.Some? ==> h[n][id].target == h[m][id].target
  {
    HistoriesEvolve(h, m, n);
  }

  // ---- Skill files --------------------------------------------------------------------------------

  /** A provider root and a skill name. */
  datatype SkillPath = SkillPath(root: string, name: string)

  const PROVIDER_ROOTS := [".agents", ".claude"]

  predicate Matches(digest: Bytes -> string, expected: map<string, string>, files: map<SkillPath, Bytes>,
                    p: SkillPath) {
    p in files && p.name in expected && digest(files[p]) == expected[p.name]
  }

  /** Owned paths, in the order they are visited. */
  function Visited(names: seq<string>): seq<SkillPath> {
    seq(|names|, k requires 0 <= k < |names| => SkillPath(".agents", names[k]))
    + seq(|names|, k requires 0 <= k < |names| => SkillPath(".claude", names[k]))
  }

  /** The visited files that are there and do not match. */
  function Drifted(digest: Bytes -> string, expected: map<string, string>, files: map<SkillPath, Bytes>,
                   paths: seq<SkillPath>): seq<SkillPath>
    decreases |paths|
  {
    if paths == [] then []
    else
      var p := Last(paths);
      Drifted(digest, expected, files, Front(paths))
      + (if p in files && !Matches(digest, expected, files, p) then [p] else [])
  }

  lemma {:induction false} DriftedExactly(digest: Bytes -> string, expected: map<string, string>,
                                          files: map<SkillPath, Bytes>, paths: seq<SkillPath>)
    ensures forall p :: p in Drifted(digest, expected, files, paths)
                        <==> p in paths && p in files && !Matches(digest, expected, files, p)
    decreases |paths|
  {
    if paths != [] {
      DriftedExactly(digest, expected, files, Front(paths));
      assert paths == Front(paths) + [Last(paths)];
    }
  }
}
