/** The values a board campaign keeps: its request, its durable record, and what it tracks per worker. */
module CampaignTypes {
  import opened Prelude

  type Repo = string
  type WorkerId = string

  const MAX_TOTAL_CAPACITY := 12
  /** Every retry delay is five minutes; times are whole seconds. */
  const RETRY_DELAY := 300
  const PREFLIGHT_REFRESH_WINDOW := 120
  const DEFAULT_INTERVAL := 30
  const MINIMUM_INTERVAL := 10
  const MAXIMUM_INTERVAL := 300

  datatype Role = Discoverer | Implementer | Reviewer

  /** The order in which a tick serves its lanes. */
  const LAUNCHABLE_ROLES: seq<Role> := [Discoverer, Implementer, Reviewer]

  datatype Lane = Lane(provider: string, mcpServer: string, capacity: int)

  datatype Request = Request(
    adapter: string, runtime: string, intervalSeconds: int,
    discoverer: Lane, implementer: Lane, reviewer: Lane)
  {
    function LaneOf(role: Role): Lane {
      match role
      case Discoverer => discoverer
      case Implementer => implementer
      case Reviewer => reviewer
    }

    function PairOf(role: Role): Pair {
      Pair(LaneOf(role).provider, LaneOf(role).mcpServer)
    }
  }

  /** The provider and MCP server one preflight proof covers. */
  datatype Pair = Pair(provider: string, mcpServer: string)

  /** One lane of one repository: the unit of claimable work, reservations and backoff. */
  datatype LaneKey = LaneKey(repository: Repo, role: Role)

  datatype BackoffKey =
    | LaunchBackoff(lane: LaneKey)
    | SetupBackoff(repository: Repo)
    | PreflightBackoff(pair: Pair)

  datatype Status = Starting | Running | Degraded | Stopping | Stopped | NeverRun

  predicate IsActive(status: Status) {
    status == Starting || status == Running || status == Degraded || status == Stopping
  }

  /** What the record tells the operator. `Reported` is any other sanitised sentence. */
  datatype Detail =
    | NoCampaignYet
    | Interrupted
    | Preparing
    | StopRequested
    | StoppedCleanly
    | StoppedStale
    | Halted
    | Reconciling
    | NoReadyPair
    | Blocked(providers: nat, repositories: nat)
    | Reported(text: string)

  datatype Health = Queued | Healthy | Unhealthy | RefreshNeeded

  datatype RepositoryStatus = RepositoryStatus(repository: Repo, health: Health, baseCommit: string, detail: string)

  datatype ProviderStatus = ProviderStatus(pair: Pair, health: Health, expiresAt: Option<int>)

  /** The part of the record no status change touches. */
  datatype Body = Body(
    id: string, request: Request,
    repositories: seq<RepositoryStatus>, providers: seq<ProviderStatus>,
    workerIds: seq<WorkerId>, workspacesCleaned: nat)

  datatype Record = Record(status: Status, detail: Detail, body: Body)

  /** One repository's claimable counts, by role. */
  datatype Claimable = Claimable(discoverer: nat, implementer: nat, reviewer: nat) {
    function For(role: Role): nat {
      match role
      case Discoverer => discoverer
      case Implementer => implementer
      case Reviewer => reviewer
    }
  }

  /** A ready managed repository and the base commit it is pinned to. */
  datatype Managed = Managed(repository: Repo, base: string)

  // ---- What a tick sees and remembers -------------------------------------------------

  datatype WorkerStatus = Allocating | WorkerRunning | Exited | Failed | WorkerStopped | Cleaned

  datatype Worker = Worker(lane: LaneKey, status: WorkerStatus)

  predicate OccupiesLane(w: Worker) {
    w.status == WorkerRunning || w.status == Allocating
  }

  /** Snowcat's exact correlation of one worker with its attempts. */
  datatype Outcome =
    | Unmatched | ClaimedNow | Completed | BlockedItem | Released | Expired | Ambiguous | Unknown(text: string)

  datatype Probe = Probe(lane: LaneKey, stabilized: bool, claimed: bool)

  /** A probed worker that a tick saw exited or failed. */
  datatype Exit = Exit(worker: WorkerId, status: WorkerStatus, probe: Probe)

  datatype LaneFailure = LaneFailure(lane: LaneKey, detail: string, retryAt: int)

  datatype Retention = Retention(configured: bool, count: nat, age: int)
}
