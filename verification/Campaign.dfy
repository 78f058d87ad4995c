/** The board-campaign controller: its shared record and one reconciliation tick. */
module Campaign {
  import opened Prelude
  import opened CampaignTypes
  import opened CampaignRuns
  import opened CampaignTracking
  import opened CampaignLaunch
  import opened CampaignPreflight
  import opened CampaignTick
  import opened CampaignWorld
  import Life = CampaignLifecycle
  import NameOrder

  function PatchRepository(s: seq<RepositoryStatus>, name: Repo, health: Health,
                           detail: string): seq<RepositoryStatus> {
    if s == [] then []
    else if s[0].repository == name then [s[0].(health := health, detail := detail)] + s[1..]
    else [s[0]] + PatchRepository(s[1..], name, health, detail)
  }

  lemma {:induction false} PatchAt(s: seq<RepositoryStatus>, name: Repo, health: Health, detail: string, i: nat)
    requires i < |s| && s[i].repository == name
    requires forall j :: 0 <= j < i ==> s[j].repository != name
    ensures PatchRepository(s, name, health, detail) == s[i := s[i].(health := health, detail := detail)]
  {
    if i > 0 {
      PatchAt(s[1..], name, health, detail, i - 1);
    }
  }

  const COUNTS_OBSERVED := "claimable counts observed"
  const OBSERVATION_FAILED := "Snowcat queue observation failed; this repository will retry later"
  const LANE_HELD := "lane failed or paused; refill waits"
  const LAUNCH_BACKED_OFF := "launch retry is backed off"
  const REFRESH_FAILED := "implementer base refresh failed; retry is backed off"
  const LAUNCH_FAILED := "launch failed; retry is backed off"

  function Patched(body: Body, name: Repo, health: Health, detail: string): Body {
    body.(repositories := PatchRepository(body.repositories, name, health, detail))
  }

  /** The record after one queue observation. */
  function ObservedBody(body: Body, answer: QueueAnswer): Body {
    if answer.counts.Some? then Patched(body, answer.repository, Healthy, COUNTS_OBSERVED)
    else Patched(body, answer.repository, Unhealthy, OBSERVATION_FAILED)
  }

  function ObservedBodies(body: Body, answers: seq<QueueAnswer>): Body
    decreases |answers|
  {
    if answers == [] then body else ObservedBody(ObservedBodies(body, Front(answers)), Last(answers))
  }

  /** The first entry of each named repository is degraded. */
  function PatchEach(s: seq<RepositoryStatus>, names: set<Repo>): seq<RepositoryStatus> {
    if s == [] then []
    else if s[0].repository in names then
      [s[0].(health := Unhealthy, detail := LANE_HELD)] + PatchEach(s[1..], names - {s[0].repository})
    else [s[0]] + PatchEach(s[1..], names)
  }

  lemma {:induction false} PatchNone(s: seq<RepositoryStatus>)
    ensures PatchEach(s, {}) == s
  {
    if s != [] {
      PatchNone(s[1..]);
    }
  }

  /** In whatever order the repositories are patched, the result is the same. */
  lemma {:induction false} PatchEachMore(s: seq<RepositoryStatus>, names: set<Repo>, x: Repo)
    ensures PatchRepository(PatchEach(s, names), x, Unhealthy, LANE_HELD) == PatchEach(s, names + {x})
  {
    if s != [] {
      var y := s[0].repository;
      if y == x {
        assert names + {x} - {x} == names - {x};
        assert x !in names ==> names - {x} == names;
      } else if y in names {
        PatchEachMore(s[1..], names - {y}, x);
        assert names - {y} + {x} == names + {x} - {y};
      } else {
        PatchEachMore(s[1..], names, x);
      }
    }
  }

  function ReposOf(lanes: set<LaneKey>): set<Repo> { set lane <- lanes :: lane.repository }

  /** The record with every repository of a failed or paused lane degraded. */
  function HeldBody(body: Body, lanes: set<LaneKey>): Body {
    body.(repositories := PatchEach(body.repositories, ReposOf(lanes)))
  }

  /** The record after one repository's turn; `setup` is the refresh of an implementer's base. */
  function TurnBody(body: Body, m: Managed, setup: Option<Option<string>>, r: Option<WorkerId>): Body {
    if setup.Some? && !Usable(setup.value) then Patched(body, m.repository, Unhealthy, REFRESH_FAILED)
    else
      var based := if setup.Some? then Pinned(body, m.repository, setup.value.value) else body;
      if r.Some? then based.(workerIds := based.workerIds + [r.value])
      else Patched(based, m.repository, Unhealthy, LAUNCH_FAILED)
  }

  function WithProvider(body: Body, status: ProviderStatus): Body {
    body.(providers := PutProvider(body.providers, status))
  }

  function PinRepository(s: seq<RepositoryStatus>, name: Repo, base: string): seq<RepositoryStatus> {
    if s == [] then []
    else if s[0].repository == name then [s[0].(baseCommit := base)] + s[1..]
    else [s[0]] + PinRepository(s[1..], name, base)
  }

  /** The first entry of that repository gets the base, and nothing else changes. */
  lemma {:induction false} PinAt(s: seq<RepositoryStatus>, name: Repo, base: string, i: nat)
    requires i < |s| && s[i].repository == name
    requires forall j :: 0 <= j < i ==> s[j].repository != name
    ensures PinRepository(s, name, base) == s[i := s[i].(baseCommit := base)]
  {
    if i > 0 {
      PinAt(s[1..], name, base, i - 1);
    }
  }

  function Pinned(body: Body, name: Repo, base: string): Body {
    body.(repositories := PinRepository(body.repositories, name, base))
  }

  lemma {:induction false} NothingToPin(s: seq<RepositoryStatus>, name: Repo, base: string)
    requires forall r <- s :: r.repository != name
    ensures PinRepository(s, name, base) == s
  {
    if s != [] {
      NothingToPin(s[1..], name, base);
    }
  }

  function PutProvider(s: seq<ProviderStatus>, status: ProviderStatus): seq<ProviderStatus> {
    if s == [] then [status]
    else if s[0].pair == status.pair then [status] + s[1..]
    else [s[0]] + PutProvider(s[1..], status)
  }

  lemma {:induction false} PutAt(s: seq<ProviderStatus>, status: ProviderStatus, i: nat)
    requires i <= |s|
    requires forall j :: 0 <= j < i ==> s[j].pair != status.pair
    requires i < |s| ==> s[i].pair == status.pair
    ensures PutProvider(s, status) == if i < |s| then s[i := status] else s + [status]
  {
    if i > 0 {
      PutAt(s[1..], status, i - 1);
    }
  }

  lemma {:induction false} OldestExists(times: map<WorkerId, int>, ids: set<WorkerId>)
    requires ids != {} && ids <= times.Keys
    ensures exists id <- ids :: forall other <- ids :: times[id] <= times[other]
    decreases ids
  {
    var x :| x in ids;
    if ids == {x} {
      assert forall other <- ids :: times[x] <= times[other];
    } else {
      OldestExists(times, ids - {x});
      var y :| y in ids - {x} && forall other <- ids - {x} :: times[y] <= times[other];
      var best := if times[x] <= times[y] then x else y;
      assert forall other <- ids :: other == x || other in ids - {x};
      assert forall other <- ids :: times[best] <= times[other];
    }
  }

  class Controller {
    const world: World

    // ---- the record and what guards it ----
    var record: Record
    var disk: Option<Record>
    var stateFailed: bool
    var cancelSet: bool
    var cancelled: bool
    var doneOpen: bool

    // ---- what a run remembers ----
    var backoff: map<BackoffKey, int>
    var probes: map<WorkerId, Probe>
    var laneFailures: map<LaneKey, LaneFailure>
    var candidates: map<WorkerId, int>
    var retain: Retention

    // ---- history, for the proofs ----
    ghost var live: nat
    ghost var starts: nat
    ghost var closes: nat
    ghost var fileAtOpen: Option<Record>
    ghost var blank: Body
    ghost var history: seq<Life.Event>
    ghost var own: set<WorkerId>

    ghost function Now(): Life.Life
      reads `record, `disk, `stateFailed, `cancelSet, `cancelled, `live, `doneOpen, `starts, `closes
    {
      Life.Life(record, disk, stateFailed, cancelSet, cancelled, live, doneOpen, starts, closes)
    }

    ghost function Origin(): Life.Life
      reads `fileAtOpen, `blank
    {
      Life.Opened(fileAtOpen, blank)
    }

    /** The controller's state is one its lifecycle events can produce. */
    ghost predicate Reachable()
      reads `record, `disk, `stateFailed, `cancelSet, `cancelled, `live, `doneOpen, `starts, `closes, `fileAtOpen,
            `blank, `history
    {
      && Life.Possible(Origin(), history)
      && Now() == Life.Replay(Origin(), history)
      && Life.Sound(Now())
    }

    /** Record one critical section in the history. */
    ghost method Happened(before: Life.Life, e: Life.Event)
      requires Life.Possible(Origin(), history) && before == Life.Replay(Origin(), history) && Life.Sound(before)
      requires Life.Enabled(before, e) && Now() == Life.Step(before, e)
      modifies `history
      ensures Reachable() && history == old(history) + [e]
    {
      Life.Extend(Origin(), history, e, Now());
      history := history + [e];
    }

    // ---- Opening, starting, stopping --------------------------------------------------------

    /** New: read the state file; an active record becomes interrupted and must persist. */
    constructor Open(world: World, file: Option<Record>, blank: Body, retain: Retention, wrote: bool)
      requires file.Some? && IsActive(file.value.status) ==> wrote
      ensures Reachable() && this.world == world && this.retain == retain
      ensures Now() == Life.Opened(file, blank) && history == []
      ensures probes == map[] && backoff == map[] && laneFailures == map[] && candidates == map[] && own == {}
    {
      this.world, this.retain := world, retain;
      backoff, probes, laneFailures, candidates := map[], map[], map[], map[];
      stateFailed, cancelSet, cancelled, doneOpen := false, false, false, false;
      live, starts, closes, history, own := 0, 0, 0, [], {};
      fileAtOpen, this.blank := file, blank;
      if file.None? {
        record, disk := Record(NeverRun, NoCampaignYet, blank), None;
      } else if IsActive(file.value.status) {
        record := Record(Stopped, Interrupted, file.value.body);
        disk := Some(Record(Stopped, Interrupted, file.value.body));
      } else {
        record, disk := file.value, file;
      }
    }

    /** The atomic state write: a temporary file renamed over the old one, or no change. */
    method Write() returns (wrote: bool)
      modifies `disk
      ensures disk == if wrote then Some(record) else old(disk)
    {
      wrote := *;
      if wrote {
        disk := Some(record);
      }
    }

    /** `said` is the record and on disk; or its write was lost, and the record says that instead. */
    twostate predicate Told(said: Record, wrote: bool)
      reads `record, `disk, `stateFailed, `cancelled, `cancelSet
    {
      if wrote then
        record == said && disk == Some(said) && stateFailed == old(stateFailed) && cancelled == old(cancelled)
      else
        && disk == old(disk) && stateFailed && cancelled == (old(cancelled) || old(cancelSet))
        && record == (if IsActive(said.status) then said.(status := Degraded, detail := Halted)
                      else said.(detail := StoppedStale))
    }

    method HaltLocked()
      modifies `record, `stateFailed, `cancelled
      ensures Now() == Life.Halt(old(Now()))
      ensures Told(old(record), false)
    {
      stateFailed := true;
      if IsActive(record.status) {
        record := record.(status := Degraded, detail := Halted);
      } else {
        record := record.(detail := StoppedStale);
      }
      if cancelSet {
        cancelled := true;
      }
    }

    method PersistLocked() returns (wrote: bool)
      modifies `record, `disk, `stateFailed, `cancelled
      ensures Now() == Life.Persist(old(Now()), wrote)
      ensures Told(old(record), wrote)
    {
      wrote := Write();
      if !wrote {
        HaltLocked();
      }
    }

    /** Nothing is remembered yet. */
    ghost predicate Untracked()
      reads `backoff, `probes, `laneFailures, `candidates, `own
    {
      probes == map[] && backoff == map[] && laneFailures == map[] && candidates == map[] && own == {}
    }

    /** Start with a validated request and at least one enrolled repository. */
    method Start(body: Body) returns (accepted: bool, wrote: bool)
      requires Reachable()
      modifies `record, `disk, `stateFailed, `cancelSet, `cancelled, `doneOpen
      modifies `backoff, `probes, `laneFailures, `candidates, `live, `starts, `own, `history
      ensures Reachable() && Now() == Life.Step(old(Now()), Life.StartCall(body, wrote))
      ensures accepted <==> !IsActive(old(record).status) && wrote
      ensures if IsActive(old(record).status) then record == old(record) && disk == old(disk) && live == old(live)
              else record == Record(Starting, Preparing, body) && disk == (if wrote then Some(record) else old(disk))
                   && live == old(live) + (if wrote then 1 else 0)
                   && (wrote ==> cancelSet && !cancelled && !stateFailed)
      ensures accepted && old(Consistent()) ==> Consistent() && !cancelled && !stateFailed && live == 1
      ensures if accepted then Untracked() else unchanged(`backoff, `probes, `laneFailures, `candidates, `own)
    {
      accepted, wrote := false, false;
      if IsActive(record.status) {
        Happened(Now(), Life.StartCall(body, false));
      } else {
        ghost var v := Track();
        wrote := Begin(body);
        accepted := wrote;
        if wrote {
          SettledGrows(v, Track());
        }
      }
    }

    /** The accepting half of Start: the run begins only if its first record persists. */
    method Begin(body: Body) returns (wrote: bool)
      requires Reachable() && !IsActive(record.status)
      modifies `record, `disk, `stateFailed, `cancelSet, `cancelled, `doneOpen
      modifies `backoff, `probes, `laneFailures, `candidates, `live, `starts, `own, `history
      ensures Reachable() && Now() == Life.Step(old(Now()), Life.StartCall(body, wrote))
      ensures if wrote then Untracked() else unchanged(`backoff, `probes, `laneFailures, `candidates, `own)
    {
      ghost var before := Now();
      wrote := BeginLocked(body);
      Happened(before, Life.StartCall(body, wrote));
    }

    method BeginLocked(body: Body) returns (wrote: bool)
      requires !IsActive(record.status)
      modifies `record, `disk, `stateFailed, `cancelSet, `cancelled, `doneOpen
      modifies `backoff, `probes, `laneFailures, `candidates, `live, `starts, `own
      ensures Now() == Life.Step(old(Now()), Life.StartCall(body, wrote))
      ensures if wrote then Untracked() else unchanged(`backoff, `probes, `laneFailures, `candidates, `own)
    {
      record := Record(Starting, Preparing, body);
      wrote := Write();
      if wrote {
        ForgetEarlierRun();
      }
    }

    /** A new context and empty bookkeeping; the halt latch belonged to the earlier run. */
    method ForgetEarlierRun()
      modifies `stateFailed, `cancelSet, `cancelled, `doneOpen, `backoff, `probes, `laneFailures, `candidates, `live,
               `starts, `own
      ensures !stateFailed && cancelSet && !cancelled && doneOpen && live == old(live) + 1 && starts == old(starts) + 1
      ensures Untracked()
    {
      stateFailed, cancelSet, cancelled, doneOpen := false, true, false, true;
      backoff, probes, laneFailures, candidates := map[], map[], map[], map[];
      live, starts, own := live + 1, starts + 1, {};
    }

    /** The locked half of Stop: an unchecked write, reported to the caller instead of halting. */
    method StopLocked() returns (wrote: bool)
      requires Reachable()
      modifies `record, `disk, `history
      ensures Reachable() && Now() == Life.Step(old(Now()), Life.StopMark(wrote))
      ensures record.body == old(record).body
      ensures if IsActive(old(record).status) then
                && record == old(record).(status := Stopping, detail := StopRequested)
                && disk == (if wrote then Some(record) else old(disk))
              else record == old(record) && disk == old(disk) && wrote
    {
      ghost var before := Now();
      wrote := true;
      if IsActive(record.status) {
        record := record.(status := Stopping, detail := StopRequested);
        wrote := Write();
      }
      Happened(before, Life.StopMark(wrote));
    }

    /** Cancelling the run's context, as Stop does after unlocking and Close does first. */
    method CancelRun()
      requires Reachable()
      modifies `cancelled, `history
      ensures Reachable() && Now() == Life.Step(old(Now()), Life.Cancel)
      ensures cancelled == (old(cancelled) || cancelSet)
    {
      ghost var before := Now();
      if cancelSet {
        cancelled := true;
      }
      Happened(before, Life.Cancel);
    }

    method Stop() returns (wrote: bool)
      requires Reachable()
      modifies `record, `disk, `cancelled, `history
      ensures Reachable()
      ensures Now() == (if !IsActive(old(record).status) then old(Now())
                        else Life.Step(Life.Step(old(Now()), Life.StopMark(wrote)), Life.Cancel))
      ensures if IsActive(old(record).status) then
                && record == old(record).(status := Stopping, detail := StopRequested)
                && disk == (if wrote then Some(record) else old(disk))
                && cancelled == (old(cancelled) || cancelSet)
              else record == old(record) && disk == old(disk) && cancelled == old(cancelled) && wrote
    {
      wrote := true;
      if IsActive(record.status) {
        wrote := StopLocked();
        CancelRun();
      }
    }

    /** The run's deferred last step; it finds `done` open, so closing it cannot panic. */
    method FinalizeStopped() returns (wrote: bool)
      requires Reachable() && live > 0 && cancelled
      modifies `record, `disk, `stateFailed, `cancelSet, `cancelled, `doneOpen, `live, `closes, `history
      ensures Reachable() && Now() == Life.Step(old(Now()), Life.Finalize(wrote))
      ensures record.status == Stopped && live == 0 && closes == old(closes) + 1
      ensures Told(old(record).(status := Stopped, detail := if old(stateFailed) then StoppedStale else StoppedCleanly),
                   wrote)
      ensures !cancelSet && !doneOpen
    {
      ghost var before := Now();
      wrote := FinalizeLocked();
      Happened(before, Life.Finalize(wrote));
    }

    method FinalizeLocked() returns (wrote: bool)
      requires live > 0 && doneOpen
      modifies `record, `disk, `stateFailed, `cancelSet, `cancelled, `doneOpen, `live, `closes
      ensures Now() == Life.Step(old(Now()), Life.Finalize(wrote))
      ensures Told(old(record).(status := Stopped, detail := if old(stateFailed) then StoppedStale else StoppedCleanly),
                   wrote)
      ensures !cancelSet && !doneOpen
    {
      record := record.(status := Stopped, detail := if stateFailed then StoppedStale else StoppedCleanly);
      wrote := PersistLocked();
      cancelSet := false;
      doneOpen := false;
      live, closes := live - 1, closes + 1;
    }

    // ---- Checked writes of a live run ---------------------------------------------------------

    method DegradeCampaign(text: string) returns (wrote: bool)
      requires Reachable() && live > 0
      modifies `record, `disk, `stateFailed, `cancelled, `history
      ensures Reachable() && Now() == Life.Step(old(Now()), Life.Degrade(text, wrote)) && RecordKept()
      ensures history == old(history) + [Life.Degrade(text, wrote)]
      ensures Told(old(record).(status := Degraded, detail := Reported(text)), wrote)
    {
      ghost var before := Now();
      record := record.(status := Degraded, detail := Reported(text));
      wrote := PersistLocked();
      Happened(before, Life.Degrade(text, wrote));
    }

    method SetRunningStatus(ready: bool) returns (wrote: bool)
      requires Reachable() && live > 0
      modifies `record, `disk, `stateFailed, `cancelled, `history
      ensures Reachable() && Now() == Life.Step(old(Now()), Life.SetRunning(ready, wrote))
      ensures if old(record).status == Stopping then record == old(record) && disk == old(disk)
              else Told(if ready then old(record).(status := Running, detail := Reconciling)
                        else old(record).(status := Degraded, detail := NoReadyPair), wrote)
    {
      ghost var before := Now();
      wrote := true;
      if record.status != Stopping {
        if ready {
          record := record.(status := Running, detail := Reconciling);
        } else {
          record := record.(status := Degraded, detail := NoReadyPair);
        }
        wrote := PersistLocked();
      }
      Happened(before, Life.SetRunning(ready, wrote));
    }

    method SetReconciledStatus() returns (wrote: bool)
      requires Reachable() && live > 0
      modifies `record, `disk, `stateFailed, `cancelled, `history
      ensures Reachable() && Now() == Life.Step(old(Now()), Life.SetReconciled(wrote)) && RecordKept()
      ensures history == old(history) + [Life.SetReconciled(wrote)]
      ensures Summed(wrote)
    {
      ghost var before := Now();
      wrote := SummariseLocked();
      Happened(before, Life.SetReconciled(wrote));
    }

    /** A stop mark is left alone; otherwise the summary is said. */
    twostate predicate Summed(wrote: bool)
      reads `record, `disk, `stateFailed, `cancelled, `cancelSet
    {
      if old(record).status == Stopping then record == old(record) && disk == old(disk)
      else Told(Summary(old(record)), wrote)
    }

    /** A stop request in flight is left alone; otherwise the status sums up what is blocked. */
    method SummariseLocked() returns (wrote: bool)
      modifies `record, `disk, `stateFailed, `cancelled
      ensures Now() == Life.Step(old(Now()), Life.SetReconciled(wrote)) && RecordKept()
      ensures Summed(wrote)
    {
      hide Life.ReconciledDetail, Summary;
      wrote := true;
      if record.status != Stopping {
        Summarise();
        wrote := PersistLocked();
      }
    }

    /** What the summary says, before it is written. */
    method Summarise()
      modifies `record
      ensures var detail := Life.ReconciledDetail(old(record).body);
              record == old(record).(status := if detail == Reconciling then Running else Degraded, detail := detail)
      ensures record == Summary(old(record))
    {
      hide Life.CountProviders, Life.CountRepositories, Life.DegradedProviders, Life.DegradedRepositories;
      var p := Life.CountProviders(record.body.providers);
      var r := Life.CountRepositories(record.body.repositories);
      Life.CountsAre(record.body.providers, record.body.repositories);
      if p == 0 && r == 0 {
        record := record.(status := Running, detail := Reconciling);
      } else {
        record := record.(status := Degraded, detail := Blocked(p, r));
      }
    }

    /** The record with its summary: degraded exactly when some provider or repository is, with their numbers. */
    ghost function Summary(record: Record): Record {
      var body := record.body;
      if Life.SomethingBlocked(body) then
        record.(status := Degraded, detail := Blocked(|Life.DegradedProviders(body.providers)|,
                                                      |Life.DegradedRepositories(body.repositories)|))
      else record.(status := Running, detail := Reconciling)
    }

    /** The common shape of every other update: change the body, bump, persist. */
    method UpdateBody(body: Body) returns (wrote: bool)
      requires Reachable() && live > 0
      modifies `record, `disk, `stateFailed, `cancelled, `history
      ensures Reachable() && Now() == Life.Step(old(Now()), Life.Update(body, wrote))
      ensures Told(old(record).(body := body), wrote)
      ensures record.body == body && stateFailed == (old(stateFailed) || !wrote) && (old(cancelled) ==> cancelled)
      ensures stateFailed ==> cancelled
    {
      ghost var before := Now();
      record := record.(body := body);
      wrote := PersistLocked();
      Happened(before, Life.Update(body, wrote));
    }

    /** Only a listed repository is changed, and only then is anything written. */
    method UpdateRepository(name: Repo, health: Health, detail: string) returns (wrote: bool)
      requires Reachable() && live > 0
      modifies `record, `disk, `stateFailed, `cancelled, `history
      ensures Reachable()
      ensures record.body == Patched(old(record).body, name, health, detail)
      ensures stateFailed == (old(stateFailed) || !wrote) && (old(cancelled) ==> cancelled)
      ensures stateFailed ==> cancelled
    {
      wrote := true;
      var s := record.body.repositories;
      var i := 0;
      while i < |s|
        invariant 0 <= i <= |s|
        invariant forall j :: 0 <= j < i ==> s[j].repository != name
        invariant Now() == old(Now()) && history == old(history)
      {
        if s[i].repository == name {
          PatchAt(s, name, health, detail, i);
          wrote := UpdateBody(record.body.(repositories := s[i := s[i].(health := health, detail := detail)]));
          return;
        }
        i := i + 1;
      }
      NothingToPatch(s, name, health, detail);
    }

    static lemma {:induction false} NothingToPatch(s: seq<RepositoryStatus>, name: Repo, health: Health, detail: string)
      requires forall j :: 0 <= j < |s| ==> s[j].repository != name
      ensures PatchRepository(s, name, health, detail) == s
    {
      if s != [] {
        NothingToPatch(s[1..], name, health, detail);
      }
    }

    method UpdateProvider(status: ProviderStatus) returns (wrote: bool)
      requires Reachable() && live > 0
      modifies `record, `disk, `stateFailed, `cancelled, `history
      ensures Reachable()
      ensures record.body == old(record).body.(providers := PutProvider(old(record).body.providers, status))
      ensures stateFailed == (old(stateFailed) || !wrote) && (old(cancelled) ==> cancelled)
    {
      var s := record.body.providers;
      var i := 0;
      while i < |s| && s[i].pair != status.pair
        invariant 0 <= i <= |s|
        invariant forall j :: 0 <= j < i ==> s[j].pair != status.pair
      {
        i := i + 1;
      }
      PutAt(s, status, i);
      wrote := UpdateBody(record.body.(providers := if i < |s| then s[i := status] else s + [status]));
    }

    method AddWorker(id: WorkerId) returns (wrote: bool)
      requires Reachable() && live > 0
      modifies `record, `disk, `stateFailed, `cancelled, `history
      ensures Reachable()
      ensures record.body == old(record).body.(workerIds := old(record).body.workerIds + [id])
      ensures stateFailed == (old(stateFailed) || !wrote) && (old(cancelled) ==> cancelled)
    {
      wrote := UpdateBody(record.body.(workerIds := record.body.workerIds + [id]));
    }

    method RecordCleanup() returns (wrote: bool)
      requires Reachable() && live > 0
      modifies `record, `disk, `stateFailed, `cancelled, `history
      ensures Reachable()
      ensures record.body == old(record).body.(workspacesCleaned := old(record).body.workspacesCleaned + 1)
      ensures stateFailed == (old(stateFailed) || !wrote) && (old(cancelled) ==> cancelled)
    {
      wrote := UpdateBody(record.body.(workspacesCleaned := record.body.workspacesCleaned + 1));
    }

    /** Another goroutine may stop or close the campaign between any two critical sections. */
    method Interfere()
      requires Reachable()
      modifies `record, `disk, `cancelled, `history
      ensures Reachable() && record.body == old(record).body
      ensures old(cancelled) ==> cancelled
    {
      var marks: bool := *;
      var cancels: bool := *;
      if marks {
        var wrote := StopLocked();
      }
      if cancels {
        CancelRun();
      }
    }

    // ---- Probes, claims and exits --------------------------------------------------------------

    /** What the proofs see of the workers, leaving the run's end out. */
    ghost function Track(): View
      reads `own, `probes, `candidates, world
    {
      View(world.workers, world.claimed, own, probes, candidates.Keys, world.attempts, world.cleanups, world.sightings,
           world.misreported, false)
    }

    ghost predicate Consistent()
      reads `own, `probes, `candidates, world
    {
      Tracked(Track()) && CleansOnlySettled(Track())
    }

    /** What the inventory says of the present workers, its misreports on record. */
    ghost predicate ListedNow(listed: map<WorkerId, Worker>)
      reads world
    {
      Reports(world.workers, listed) && Misreported(world.workers, listed) <= world.misreported
    }

    /** The state between listing the workers and launching: `listed` was the inventory, `exits` its exits. */
    ghost predicate MidTick(listed: map<WorkerId, Worker>, exits: seq<Exit>)
      reads `own, `probes, `candidates, world
    {
      InTick(Track(), listed, exits)
    }

    method AddLaunchProbe(id: WorkerId, lane: LaneKey)
      modifies `probes, `own
      ensures probes == old(probes)[id := Probe(lane, false, false)] && own == old(own) + {id}
    {
      probes := probes[id := Probe(lane, false, false)];
      own := own + {id};
    }

    method InspectLaunchProbes(listed: map<WorkerId, Worker>) returns (exits: seq<Exit>)
      requires Consistent() && ListedNow(listed)
      modifies `probes
      ensures probes == Inspected(old(probes), listed)
      ensures ExitsOf(exits, old(probes), listed)
      ensures MidTick(listed, exits)
      ensures InspectedInto(old(probes), listed, probes) && AreExits(exits, old(probes), listed)
    {
      ghost var before := Track();
      var was := probes;
      var found := InspectEach(listed);
      InspectionStabilises(before, listed);
      DriftStays(world.workers, {});
      SinceListed(world.workers, listed, world.workers, world.misreported);
      exits := SortedExits(found, was, listed);
      ExitsAre(exits, was, listed);
    }

    static lemma ExitsAre(exits: seq<Exit>, was: map<WorkerId, Probe>, listed: map<WorkerId, Worker>)
      requires ExitsOf(exits, was, listed)
      ensures AreExits(exits, was, listed)
    {
      forall id | id in was && id in listed && listed[id].status in {Exited, Failed}
        ensures exists e <- exits :: e.worker == id {
        assert id in ExitIds(was, listed);
      }
    }

    method InspectEach(listed: map<WorkerId, Worker>) returns (found: set<WorkerId>)
      modifies `probes
      ensures probes == Inspected(old(probes), listed) && found == ExitIds(old(probes), listed)
    {
      var was := probes;
      found := {};
      var rest := probes.Keys;
      while rest != {}
        invariant rest <= was.Keys
        invariant forall id :: id in probes <==> id in was && (id in rest || id in Inspected(was, listed))
        invariant forall id <- probes :: probes[id] == if id in rest then was[id] else Inspected(was, listed)[id]
        invariant forall id :: id in found <==> id in ExitIds(was, listed) && id !in rest
        decreases rest
      {
        var id :| id in rest;
        rest := rest - {id};
        if id in listed {
          match listed[id].status
          case WorkerRunning => probes := probes[id := was[id].(stabilized := true)];
          case Exited => found := found + {id};
          case Failed => found := found + {id};
          case WorkerStopped => probes := probes - {id};
          case Cleaned => probes := probes - {id};
          case Allocating =>
        }
      }
      assert probes == Inspected(was, listed);
      assert found == ExitIds(was, listed);
    }

    /** Go's sort of the found exits by worker ID. */
    method SortedExits(found: set<WorkerId>, was: map<WorkerId, Probe>, listed: map<WorkerId, Worker>)
      returns (exits: seq<Exit>)
      requires found == ExitIds(was, listed)
      ensures ExitsOf(exits, was, listed)
    {
      var ids := NameOrder.Sorted(found);
      exits := [];
      for i := 0 to |ids|
        invariant |exits| == i
        invariant forall k :: 0 <= k < i ==> exits[k].worker == ids[k]
        invariant forall e <- exits :: e.worker in found && e.probe == was[e.worker]
                                       && e.status == listed[e.worker].status
      {
        assert ids[i] in found;
        exits := exits + [Exit(ids[i], listed[ids[i]].status, was[ids[i]])];
      }
      forall id <- found ensures exists e <- exits :: e.worker == id {
        assert id in ids;
        var k :| 0 <= k < |ids| && ids[k] == id;
        assert exits[k] in exits;
      }
    }

    /**
     Each stabilized, unconfirmed probe is checked once for a first claim, in order, unless the run ends
     first. A checked worker that had claimed by then stops reserving its slot; nobody else is touched.
     */
    method ConfirmPendingClaims(ghost listed: map<WorkerId, Worker>, exits: seq<Exit>)
      returns (pending: seq<WorkerId>, ghost asked: seq<Question>)
      requires Reachable() && MidTick(listed, exits)
      modifies `probes, `record, `disk, `cancelled, `history, world`workers, world`claimed, world`clock, world`calls
      ensures Reachable() && MidTick(listed, exits)
      ensures record.body == old(record).body && (old(cancelled) ==> cancelled)
      ensures world.Onward() && world.calls == old(world.calls) + Correlations(asked)
      ensures NameOrder.Ascending(pending)
      ensures NameOrder.SameMembers(pending, Unconfirmed(old(probes), set e <- exits :: e.worker))
      ensures AskedOf(pending, asked, cancelled)
      ensures ConfirmedBy(old(probes), old(world.claimed), asked, probes, world.claimed)
      ensures ArePending(pending, old(probes), exits) && ConfirmedInto(old(probes), asked, probes)
    {
      hide Reachable, InTick, Drifted, ConfirmedBy, NameOrder.Ascending, Unconfirmed, Confirmed, Matched, ArePending,
           ConfirmedInto;
      ghost var was := probes;
      pending := NameOrder.Sorted(Unconfirmed(probes, set e <- exits :: e.worker));
      asked := [];
      NothingConfirmed(was, world.claimed);
      DriftStays(world.workers, world.claimed);
      var i, done := 0, false;
      while i < |pending| && !done
        invariant 0 <= i == |asked| <= |pending| && (done ==> cancelled)
        invariant Reachable() && MidTick(listed, exits)
        invariant record.body == old(record).body && (old(cancelled) ==> cancelled)
        invariant world.Onward() && world.calls == old(world.calls) + Correlations(asked)
        invariant forall k :: 0 <= k < i ==> asked[k].worker == pending[k]
        invariant probes.Keys == was.Keys && ConfirmedBy(was, old(world.claimed), asked, probes, world.claimed)
        decreases |pending| - i, !done
      {
        var id := pending[i];
        assert id in was by { PendingAreProbes(was, set e <- exits :: e.worker, pending, i); }
        ghost var w, c, p := world.workers, world.claimed, probes;
        ghost var q;
        done, q := ConfirmOne(id, listed, exits);
        DriftComposes(old(world.workers), old(world.claimed), w, c, world.workers, world.claimed);
        if done {
          ConfirmedStays(was, old(world.claimed), asked, probes, c, world.claimed, w, world.workers);
        } else {
          ClaimsGrow(old(world.workers), old(world.claimed), w, c);
          ClaimsGrow(w, c, world.workers, world.claimed);
          ConfirmsMore(was, old(world.claimed), asked, q, p, c, probes, world.claimed);
          CorrelationsMore(asked, q);
          asked := asked + [q];
          i := i + 1;
        }
      }
      PendingAre(was, exits, pending);
      ConfirmedAre(was, old(world.claimed), asked, probes, world.claimed);
      ConfirmedMeans(was, asked);
    }

    static lemma PendingAre(was: map<WorkerId, Probe>, exits: seq<Exit>, pending: seq<WorkerId>)
      requires NameOrder.SameMembers(pending, Unconfirmed(was, set e <- exits :: e.worker))
      ensures ArePending(pending, was, exits)
    {
    }

    static lemma ConfirmedMeans(was: map<WorkerId, Probe>, asked: seq<Question>)
      ensures ConfirmedInto(was, asked, Confirmed(was, Matched(asked)))
    {
    }

    static lemma ConfirmedStays(was: map<WorkerId, Probe>, had: set<WorkerId>, asked: seq<Question>,
                                probes: map<WorkerId, Probe>,
                                claimed: set<WorkerId>, claimed': set<WorkerId>, w: map<WorkerId, Worker>,
                                w': map<WorkerId, Worker>)
      requires ConfirmedBy(was, had, asked, probes, claimed) && Drifted(w, claimed, w', claimed')
      ensures ConfirmedBy(was, had, asked, probes, claimed')
    {
    }

    static lemma PendingAreProbes(was: map<WorkerId, Probe>, exited: set<WorkerId>, pending: seq<WorkerId>, i: nat)
      requires NameOrder.SameMembers(pending, Unconfirmed(was, exited)) && i < |pending|
      ensures pending[i] in was
    {
      assert pending[i] in pending;
    }

    method ConfirmOne(id: WorkerId, ghost listed: map<WorkerId, Worker>, ghost exits: seq<Exit>)
      returns (done: bool, ghost q: Question)
      requires Reachable() && MidTick(listed, exits) && id in probes
      modifies `probes, `record, `disk, `cancelled, `history, world`workers, world`claimed, world`clock, world`calls
      ensures Reachable() && MidTick(listed, exits)
      ensures record.body == old(record).body && (old(cancelled) ==> cancelled)
      ensures world.Onward()
      ensures if done then cancelled && probes == old(probes) && world.calls == old(world.calls)
              else ClaimChecked(id, q)
    {
      hide Reachable, InTick, Drifted;
      Interfere();
      DriftStays(world.workers, world.claimed);
      done, q := cancelled, Question(id, None);
      if !done {
        q := AskOne(id, listed, exits);
      }
    }

    /** One worker was asked about; it is confirmed exactly when the answer showed an attempt. */
    twostate predicate ClaimChecked(id: WorkerId, new q: Question)
      reads `probes, world`claimed, world`calls
    {
      && q.worker == id && world.calls == old(world.calls) + [Correlated(q)]
      && var hit := q.answer.Some? && q.answer.value != Unmatched;
      && (hit ==> id in world.claimed)
      && (q.answer.Some? && id in old(world.claimed) ==> hit)
      && id in old(probes)
      && probes == if hit then old(probes)[id := old(probes)[id].(claimed := true)] else old(probes)
    }

    method AskOne(id: WorkerId, ghost listed: map<WorkerId, Worker>, ghost exits: seq<Exit>) returns (ghost q: Question)
      requires MidTick(listed, exits) && id in probes
      modifies `probes, world`workers, world`claimed, world`clock, world`calls
      ensures MidTick(listed, exits)
      ensures world.Onward() && ClaimChecked(id, q)
    {
      ghost var v := Track();
      var observed := world.ObserveWorker(id);
      q := Question(id, observed);
      InTickDrifts(v, world.workers, world.claimed, listed, exits);
      if observed.Some? && observed.value != Unmatched && id in probes {
        InTickConfirms(Track(), id, listed, exits);
        probes := probes[id := probes[id].(claimed := true)];
      }
    }

    // ---- Backoff ------------------------------------------------------------------------------------

    method SetBackoff(key: BackoffKey)
      modifies `backoff
      ensures backoff == old(backoff)[key := world.clock + RETRY_DELAY]
    {
      backoff := backoff[key := world.clock + RETRY_DELAY];
    }

    predicate InBackoff(key: BackoffKey)
      reads `backoff, world`clock
    {
      key in backoff && backoff[key] > world.clock
    }

    // ---- Exits ----------------------------------------------------------------------------------------

    method FailLane(lane: LaneKey, detail: string)
      modifies `backoff, `laneFailures
      ensures backoff == old(backoff)[LaunchBackoff(lane) := world.clock + RETRY_DELAY]
      ensures laneFailures == old(laneFailures)[lane := LaneFailure(lane, detail, world.clock + RETRY_DELAY)]
    {
      SetBackoff(LaunchBackoff(lane));
      laneFailures := laneFailures[lane := LaneFailure(lane, detail, world.clock + RETRY_DELAY)];
    }

    ghost function Ledger(): Books
      reads `probes, `candidates, `laneFailures, `backoff
    {
      Books(probes, candidates, laneFailures, backoff)
    }

    /** One exited worker: ask Snowcat once, then forget, mark, fail or pause as the answer says. */
    method HandleExit(e: Exit) returns (paused: bool, ghost answer: Option<Outcome>)
      modifies `probes, `candidates, `laneFailures, `backoff
      modifies world`workers, world`claimed, world`clock, world`sightings, world`calls
      ensures world.Onward() && world.calls == old(world.calls) + [Correlated(Question(e.worker, answer))]
      ensures world.sightings == old(world.sightings) + (if answer.Some? then {Sighting(e, answer.value)} else {})
      ensures Ledger() == HandleOne(old(Ledger()), e, answer, world.clock)
      ensures e.status == Exited || e.status == Failed ==> ActedOn(old(Ledger()), Ledger(), e, answer, world.clock)
      ensures paused <==> !Answered(answer)
    {
      var observed := world.ObserveExit(e);
      answer := observed;
      paused := ActOn(e, observed);
      if e.status == Exited || e.status == Failed {
        HandledMeans(old(Ledger()), e, observed, world.clock);
      }
    }

    method ActOn(e: Exit, observed: Option<Outcome>) returns (paused: bool)
      modifies `probes, `candidates, `laneFailures, `backoff
      ensures Ledger() == HandleOne(old(Ledger()), e, observed, world.clock)
      ensures paused <==> !Answered(observed)
    {
      paused := false;
      match observed {
        case None => paused := true;
        case Some(outcome) =>
          match outcome {
            case Completed => Retire(e, e.status == Exited);
            case BlockedItem => Retire(e, e.status == Exited);
            case Released => Retire(e, e.status == Exited);
            case Expired => Retire(e, e.status == Exited);
            case Unmatched =>
              if !e.probe.stabilized {
                Retire(e, false);
                FailLane(e.probe.lane, "provider exited before launch stabilized");
              } else if e.status == Failed {
                Retire(e, false);
                FailLane(e.probe.lane, "retained worker terminal failed without a terminal Snowcat outcome");
              } else {
                Retire(e, true);
              }
            case ClaimedNow =>
              Retire(e, false);
              FailLane(e.probe.lane, "provider exited without a terminal Snowcat outcome");
            case Ambiguous =>
              Retire(e, false);
              FailLane(e.probe.lane, "provider exit did not correlate to one Snowcat attempt");
            case Unknown(_) => paused := true;
          }
      }
    }

    /** Forget the probe and, when nothing about the workspace still matters, mark it once. */
    method Retire(e: Exit, mark: bool)
      modifies `probes, `candidates
      ensures probes == old(probes) - {e.worker}
      ensures candidates == if mark && e.worker !in old(candidates) then old(candidates)[e.worker := world.clock]
              else old(candidates)
    {
      probes := probes - {e.worker};
      if mark && e.worker !in candidates {
        candidates := candidates[e.worker := world.clock];
      }
    }

    method CorrelateExits(exits: seq<Exit>)
      returns (pending: seq<LaneFailure>, ghost answers: Answers, ghost times: seq<int>)
      modifies `probes, `candidates, `laneFailures, `backoff
      modifies world`workers, world`claimed, world`clock, world`sightings, world`calls
      ensures world.Onward() && old(world.sightings) <= world.sightings
      ensures |answers| == |exits| && world.calls == old(world.calls) + Correlations(Asked(exits, answers))
      ensures |answers| == |times| == |exits| && forall t <- times :: old(world.clock) <= t <= world.clock
      ensures forall i :: 0 <= i < |exits| && answers[i].Some? ==>
              Sighting(exits[i], answers[i].value) in world.sightings
      ensures Ledger() == HandleAll(old(Ledger()), exits, answers, times)
      ensures LanesOf(pending) == PausedLanes(exits, answers)
    {
      hide Drifted, HandleOne, HandleAll, PausedLanes, LanesOf, Answered, ActedOn;
      pending, answers, times := [], [], [];
      NothingHandled(Ledger());
      DriftStays(world.workers, world.claimed);
      for i := 0 to |exits|
        invariant world.Onward() && old(world.sightings) <= world.sightings
        invariant |answers| == i && world.calls == old(world.calls) + Correlations(Asked(exits[..i], answers))
        invariant |answers| == |times| == i && forall t <- times :: old(world.clock) <= t <= world.clock
        invariant forall k :: 0 <= k < i && answers[k].Some? ==> Sighting(exits[k], answers[k].value) in world.sightings
        invariant Ledger() == HandleAll(old(Ledger()), exits[..i], answers, times)
        invariant LanesOf(pending) == PausedLanes(exits[..i], answers)
      {
        ghost var w, c := world.workers, world.claimed;
        var paused, answer := HandleExit(exits[i]);
        DriftComposes(old(world.workers), old(world.claimed), w, c, world.workers, world.claimed);
        OneMoreExit(old(Ledger()), exits, i, answers, times, answer, world.clock);
        assert Asked(exits[..i + 1], answers + [answer]) == Asked(exits[..i], answers)
               + [Question(exits[i].worker, answer)];
        CorrelationsMore(Asked(exits[..i], answers), Question(exits[i].worker, answer));
        answers, times := answers + [answer], times + [world.clock];
        var unknown := LaneFailure(exits[i].probe.lane, "worker exit outcome unknown; lane refill is paused", 0);
        LanesOfMore(pending, unknown);
        pending := if paused then pending + [unknown] else pending;
      }
      assert exits[..|exits|] == exits;
    }

    /** Every exit is correlated once; the answers alone decide probes, candidates and lanes. */
    method ReconcileWorkerExits(ghost listed: map<WorkerId, Worker>, exits: seq<Exit>)
      returns (pending: seq<LaneFailure>, ghost answers: Answers)
      requires MidTick(listed, exits)
      modifies `probes, `candidates, `laneFailures, `backoff
      modifies world`workers, world`claimed, world`clock, world`sightings, world`calls
      ensures MidTick(listed, exits) && world.Onward()
      ensures |answers| == |exits| && world.calls == old(world.calls) + Correlations(Asked(exits, answers))
      ensures probes == old(probes) - Forgotten(exits, answers)
      ensures candidates.Keys == old(candidates).Keys + Marked(exits, answers)
      ensures forall id <- candidates :: if id in old(candidates) then candidates[id] == old(candidates)[id]
                                         else old(world.clock) <= candidates[id] <= world.clock
      ensures Failing(old(laneFailures), laneFailures, old(backoff), backoff, FailedLanes(exits, answers),
                      old(world.clock))
      ensures LanesOf(pending) == PausedLanes(exits, answers)
    {
      ghost var v := Track();
      ghost var times;
      pending, answers, times := CorrelateExits(exits);
      HandledExits(old(Ledger()), exits, answers, times, old(world.clock), world.clock);
      InTickHandlesExits(v, Track(), answers, listed, exits);
    }

    // ---- Automatic cleanup -----------------------------------------------------------------------------

    /** Go's unstable sort by eligibility time: oldest first, ties in any order. */
    method OldestFirst() returns (order: seq<WorkerId>)
      ensures Unique(order) && (forall id :: id in order <==> id in candidates) && |order| == |candidates|
      ensures forall i, j :: 0 <= i < j < |order| ==> candidates[order[i]] <= candidates[order[j]]
    {
      order := [];
      var rest := candidates.Keys;
      while rest != {}
        invariant rest <= candidates.Keys
        invariant forall id :: id in order <==> id in candidates && id !in rest
        invariant forall i, j :: 0 <= i < j < |order| ==> candidates[order[i]] <= candidates[order[j]]
        invariant forall i :: 0 <= i < |order| ==> forall id <- rest :: candidates[order[i]] <= candidates[id]
        invariant Unique(order) && |order| + |rest| == |candidates|
        decreases rest
      {
        OldestExists(candidates, rest);
        var id :| id in rest && forall other <- rest :: candidates[id] <= candidates[other];
        order := order + [id];
        rest := rest - {id};
      }
    }

    method DueCandidates() returns (due: seq<WorkerId>)
      ensures Due(retain, candidates, world.clock, due)
    {
      var order := OldestFirst();
      due := [];
      if retain.age > 0 {
        due := OverAge(order);
      } else if |order| > retain.count {
        due := order[..|order| - retain.count];
        forall gone, kept | gone in due && kept in candidates && kept !in due
          ensures candidates[gone] <= candidates[kept] {
          assert kept in order;
        }
      }
    }

    /** The candidates eligible for longer than the age. */
    method OverAge(order: seq<WorkerId>) returns (due: seq<WorkerId>)
      requires Unique(order) && forall id :: id in order <==> id in candidates
      ensures Unique(due) && forall id :: id in due <==> id in candidates && candidates[id] < world.clock - retain.age
    {
      due := [];
      for i := 0 to |order|
        invariant Unique(due)
        invariant forall id :: id in due <==> id in order[..i] && candidates[id] < world.clock - retain.age
      {
        assert order[i] !in order[..i] && order[..i + 1] == order[..i] + [order[i]] && order[i] in order;
        if candidates[order[i]] < world.clock - retain.age {
          due := due + [order[i]];
        }
      }
      assert order[..|order|] == order;
    }

    /** Clean one due workspace; a refused cleanup leaves it tracked. */
    method CleanOne(id: WorkerId) returns (done: bool, cleaned: bool)
      requires Reachable() && live > 0
      modifies `candidates, `record, `disk, `stateFailed, `cancelled, `history
      modifies world`workers, world`claimed, world`clock, world`cleanups, world`calls
      ensures Reachable() && world.Onward()
      ensures record.body == old(record).body.(workspacesCleaned := old(record).body.workspacesCleaned
                                               + (if cleaned then 1 else 0))
      ensures candidates == if cleaned then old(candidates) - {id} else old(candidates)
      ensures world.cleanups == if done then old(world.cleanups) else old(world.cleanups) + [id]
      ensures world.calls == if done then old(world.calls) else old(world.calls) + [CleanedUp(id)]
      ensures done ==> !cleaned && cancelled
      ensures (old(cancelled) ==> cancelled) && (old(stateFailed) ==> stateFailed)
    {
      Interfere();
      done, cleaned := cancelled, false;
      if !done {
        cleaned := world.Cleanup(id);
        if cleaned {
          candidates := candidates - {id};
          var wrote := RecordCleanup();
        }
      }
    }

    /**
     A prefix of the due workspaces was handled, all of them unless the run ended first: Cleanup was
     called once for each, exactly the refused ones stay tracked, and exactly the removed are counted.
     */
    twostate predicate SweptAs(due: seq<WorkerId>, cleaned: seq<bool>)
      reads `candidates, `record, `cancelled, world`cleanups, world`calls
    {
      && |cleaned| <= |due| && (|cleaned| < |due| ==> cancelled)
      && candidates == old(candidates) - Removed(due[..|cleaned|], cleaned)
      && world.cleanups == old(world.cleanups) + due[..|cleaned|]
      && world.calls == old(world.calls) + Cleanings(due[..|cleaned|])
      && record.body == old(record).body.(workspacesCleaned := old(record).body.workspacesCleaned
                                          + |Removed(due[..|cleaned|], cleaned)|)
    }

    method CleanDue(due: seq<WorkerId>) returns (ghost cleaned: seq<bool>)
      requires Reachable() && live > 0 && Unique(due)
      modifies `candidates, `record, `disk, `stateFailed, `cancelled, `history
      modifies world`workers, world`claimed, world`clock, world`cleanups, world`calls
      ensures Reachable() && world.Onward()
      ensures SweptAs(due, cleaned)
      ensures (old(cancelled) ==> cancelled) && (old(stateFailed) ==> stateFailed)
    {
      hide Swept, Count, Cleanings, Drifted, Reachable, Removed;
      cleaned := [];
      var handled, done := 0, false;
      DriftStays(world.workers, world.claimed);
      NothingSwept(candidates);
      while handled < |due| && !done
        invariant 0 <= handled == |cleaned| <= |due| && (done ==> cancelled)
        invariant Reachable() && world.Onward()
        invariant candidates == Swept(old(candidates), due[..handled], cleaned)
        invariant world.cleanups == old(world.cleanups) + due[..handled]
        invariant world.calls == old(world.calls) + Cleanings(due[..handled])
        invariant record.body == old(record).body.(workspacesCleaned := old(record).body.workspacesCleaned
                                                   + Count(cleaned))
        invariant (old(cancelled) ==> cancelled) && (old(stateFailed) ==> stateFailed)
        decreases |due| - handled, !done
      {
        ghost var w, c := world.workers, world.claimed;
        var ok;
        done, ok := CleanOne(due[handled]);
        DriftComposes(old(world.workers), old(world.claimed), w, c, world.workers, world.claimed);
        SweptMore(old(candidates), due, cleaned, ok);
        CleaningsMore(due[..handled], due[handled]);
        if !done {
          cleaned, handled := cleaned + [ok], handled + 1;
        }
      }
      SweepRemovesTheCleaned(old(candidates), due[..handled], cleaned);
    }

    /** Under the retention policy, if one is configured. */
    method SweepCleanupCandidates(ghost listed: map<WorkerId, Worker>, ghost exits: seq<Exit>)
      returns (due: seq<WorkerId>, ghost cleaned: seq<bool>)
      requires Reachable() && live > 0 && MidTick(listed, exits)
      modifies `candidates, `record, `disk, `stateFailed, `cancelled, `history
      modifies world`workers, world`claimed, world`clock, world`cleanups, world`calls
      ensures Reachable() && MidTick(listed, exits) && world.Onward()
      ensures if retain.configured then Due(retain, old(candidates), old(world.clock), due) else due == []
      ensures SweptAs(due, cleaned)
      ensures (old(cancelled) ==> cancelled) && (old(stateFailed) ==> stateFailed)
    {
      hide InTick, Drifted, Due;
      due := [];
      if retain.configured {
        due := DueCandidates();
      }
      ghost var v := Track();
      cleaned := CleanDue(due);
      InTickSweeps(v, Track(), due[..|cleaned|], listed, exits);
    }

    // ---- Reservations --------------------------------------------------------------------------------------

    /** How many stabilized probes of each lane still wait for their first claim. */
    method PendingLaunchCounts() returns (counts: map<LaneKey, nat>)
      ensures forall lane :: ReservedCount(counts, lane) == |Reserved(probes, lane)|
      ensures forall lane :: (if lane in counts then counts[lane] else 0)
                             == |set id | id in probes && probes[id] == Probe(lane, true, false)|
    {
      counts := map[];
      var seen: set<WorkerId> := {};
      var rest := probes.Keys;
      assert forall lane :: ReservedOf(probes, {}, lane) == {};
      while rest != {}
        invariant rest <= probes.Keys && seen == probes.Keys - rest
        invariant forall lane :: ReservedCount(counts, lane) == |ReservedOf(probes, seen, lane)|
        decreases rest
      {
        var id :| id in rest;
        ReservedOfMore(probes, seen, id);
        if probes[id].stabilized && !probes[id].claimed {
          counts := counts[probes[id].lane := ReservedCount(counts, probes[id].lane) + 1];
        }
        rest, seen := rest - {id}, seen + {id};
      }
      forall lane ensures ReservedOf(probes, seen, lane) == Reserved(probes, lane)
                          == set id | id in probes && probes[id] == Probe(lane, true, false) {
      }
    }

    // ---- Observing the queues ----------------------------------------------------------------------------------

    /** One repository's claimable counts; a failed observation degrades only that repository. */
    method ObserveOne(repository: Repo) returns (counts: Option<Claimable>)
      requires Reachable() && live > 0
      modifies `record, `disk, `stateFailed, `cancelled, `history, world`workers, world`claimed, world`clock,
               world`calls
      ensures Reachable() && world.Onward()
      ensures world.calls == old(world.calls) + [ObservedQueue(QueueAnswer(repository, counts))]
      ensures record.body == ObservedBody(old(record).body, QueueAnswer(repository, counts))
      ensures record.body == if counts.Some? then Patched(old(record).body, repository, Healthy, COUNTS_OBSERVED)
                             else Patched(old(record).body, repository, Unhealthy, OBSERVATION_FAILED)
      ensures (old(cancelled) ==> cancelled) && (old(stateFailed) ==> stateFailed)
    {
      hide Reachable;
      Interfere();
      counts := world.ObserveQueue(repository);
      var wrote;
      if counts.Some? {
        wrote := UpdateRepository(repository, Healthy, COUNTS_OBSERVED);
      } else {
        wrote := UpdateRepository(repository, Unhealthy, OBSERVATION_FAILED);
      }
    }

    /** Every repository is asked once, unless the run ends first; only those that answered are observed. */
    method ObserveQueues(repositories: seq<Managed>)
      returns (counts: map<Repo, Claimable>, ghost answers: seq<QueueAnswer>)
      requires Reachable() && live > 0
      modifies `record, `disk, `stateFailed, `cancelled, `history, world`workers, world`claimed, world`clock,
               world`calls
      ensures Reachable() && world.Onward()
      ensures world.calls == old(world.calls) + Observations(answers)
      ensures record.body == ObservedBodies(old(record).body, answers)
              && record.body.request == old(record).body.request
      ensures (old(cancelled) ==> cancelled) && (old(stateFailed) ==> stateFailed)
      ensures counts == Tally(answers)
      ensures AreCounts(answers, counts)
      ensures ObservedOf(repositories, answers, cancelled)
    {
      hide Reachable, Drifted, ObservedBody, ObservedBodies, Tally, Observations, AreCounts;
      counts, answers := map[], [];
      DriftStays(world.workers, world.claimed);
      NothingObserved(record.body);
      var i, done := 0, false;
      while i < |repositories| && !done
        invariant 0 <= i == |answers| <= |repositories| && (done ==> cancelled)
        invariant Reachable() && world.Onward()
        invariant world.calls == old(world.calls) + Observations(answers)
        invariant record.body == ObservedBodies(old(record).body, answers)
        invariant (old(cancelled) ==> cancelled) && (old(stateFailed) ==> stateFailed)
        invariant counts == Tally(answers)
        invariant forall k :: 0 <= k < |answers| ==> answers[k].repository == repositories[k].repository
        decreases |repositories| - i, !done
      {
        done := *;
        done := done && cancelled;
        if !done {
          ghost var w, c := world.workers, world.claimed;
          var r := repositories[i].repository;
          var observed := ObserveOne(r);
          DriftComposes(old(world.workers), old(world.claimed), w, c, world.workers, world.claimed);
          ObservedMore(old(record).body, answers, QueueAnswer(r, observed));
          answers := answers + [QueueAnswer(r, observed)];
          counts := if observed.Some? then counts[r := observed.value] else counts - {r};
          i := i + 1;
        }
      }
      ObservationsKeep(old(record).body, answers);
      TallyIs(answers);
    }

    /** Of several observations of one repository the last counts, if it succeeded. */
    static lemma {:induction false} TallyIs(answers: seq<QueueAnswer>)
      ensures AreCounts(answers, Tally(answers))
      decreases |answers|
    {
      if answers != [] {
        hide AreCounts;
        TallyIs(Front(answers));
        CountsMore(Front(answers), Tally(Front(answers)), Last(answers));
        assert answers == Front(answers) + [Last(answers)];
      }
    }

    static lemma NothingObserved(body: Body)
      ensures ObservedBodies(body, []) == body && Tally([]) == map[] && Observations([]) == []
    {
    }

    static lemma ObservedMore(body: Body, answers: seq<QueueAnswer>, a: QueueAnswer)
      ensures ObservedBodies(body, answers + [a]) == ObservedBody(ObservedBodies(body, answers), a)
      ensures Tally(answers + [a]) == if a.counts.Some? then Tally(answers)[a.repository := a.counts.value]
              else Tally(answers) - {a.repository}
      ensures Observations(answers + [a]) == Observations(answers) + [ObservedQueue(a)]
    {
      assert Front(answers + [a]) == answers && Last(answers + [a]) == a;
    }

    /** Observing changes nothing but the repositories' health. */
    static lemma {:induction false} ObservationsKeep(body: Body, answers: seq<QueueAnswer>)
      ensures ObservedBodies(body, answers) == body.(repositories := ObservedBodies(body, answers).repositories)
      decreases |answers|
    {
      if answers != [] {
        ObservationsKeep(body, Front(answers));
      }
    }

    // ---- Blocked roles and preflights ------------------------------------------------------------------------------

    /** Expired failures are forgotten; the roles of the others, and of paused lanes, are blocked. */
    method BlockedRoles(pending: seq<LaneFailure>) returns (blocked: set<Role>)
      requires Reachable() && live > 0
      modifies `laneFailures, `record, `disk, `stateFailed, `cancelled, `history
      ensures Reachable() && record.body == HeldBody(old(record).body, laneFailures.Keys + LanesOf(pending))
      ensures (old(cancelled) ==> cancelled) && (old(stateFailed) ==> stateFailed)
      ensures laneFailures == Unexpired(old(laneFailures), world.clock)
      ensures blocked == RolesOf(laneFailures.Keys + LanesOf(pending))
      ensures forall lane :: lane in laneFailures <==>
                lane in old(laneFailures) && old(laneFailures)[lane].retryAt > world.clock
      ensures forall lane <- laneFailures :: laneFailures[lane] == old(laneFailures)[lane]
      ensures forall role :: role in blocked <==>
                (exists lane <- laneFailures :: lane.role == role) || (exists f <- pending :: f.lane.role == role)
    {
      hide Reachable, PatchRepository, PatchEach;
      laneFailures := Unexpired(laneFailures, world.clock);
      var lanes := laneFailures.Keys + LanesOf(pending);
      blocked := RolesOf(lanes);
      var rest := lanes;
      PatchNone(record.body.repositories);
      assert lanes - rest == {} && ReposOf({}) == {};
      while rest != {}
        invariant rest <= lanes
        invariant Reachable() && record.body == HeldBody(old(record).body, lanes - rest)
        invariant (old(cancelled) ==> cancelled) && (old(stateFailed) ==> stateFailed)
        invariant laneFailures == Unexpired(old(laneFailures), world.clock)
        decreases rest
      {
        var lane :| lane in rest;
        ghost var names := ReposOf(lanes - rest);
        PatchEachMore(old(record).body.repositories, names, lane.repository);
        rest := rest - {lane};
        assert lanes - rest == (lanes - (rest + {lane})) + {lane};
        assert ReposOf(lanes - rest) == names + {lane.repository};
        var wrote := UpdateRepository(lane.repository, Unhealthy, LANE_HELD);
      }
      assert lanes - rest == lanes;
      BlockedAre(laneFailures, pending);
    }

    static lemma BlockedAre(failures: map<LaneKey, LaneFailure>, pending: seq<LaneFailure>)
      ensures forall role :: role in RolesOf(failures.Keys + LanesOf(pending)) <==>
                (exists lane <- failures :: lane.role == role) || (exists f <- pending :: f.lane.role == role)
    {
      forall f <- pending ensures f.lane in failures.Keys + LanesOf(pending) {
      }
    }

    /** The pairs that serve an unblocked role with claimable work left after reservations. */
    method EligiblePairs(blocked: set<Role>, counts: map<Repo, Claimable>) returns (pairs: set<Pair>)
      ensures EligibleFor(record.body.request, blocked, counts, pairs)
    {
      var request := record.body.request;
      pairs := {};
      ghost var served: set<Role> := {};
      for i := 0 to |LAUNCHABLE_ROLES|
        invariant served == set k | 0 <= k < i :: LAUNCHABLE_ROLES[k]
        invariant forall p :: p in pairs <==>
          exists role <- served :: role !in blocked && request.PairOf(role) == p && HasWork(counts, role)
      {
        served := served + {LAUNCHABLE_ROLES[i]};
        var role := LAUNCHABLE_ROLES[i];
        if role !in blocked {
          var total := 0;
          var rest := counts.Keys;
          while rest != {}
            invariant rest <= counts.Keys && total >= 0
            invariant total > 0 <==> exists r <- counts.Keys - rest :: counts[r].For(role) > 0
            decreases rest
          {
            var r :| r in rest;
            rest := rest - {r};
            total := total + counts[r].For(role);
          }
          if total > 0 {
            pairs := pairs + {request.PairOf(role)};
          }
        }
      }
      assert LAUNCHABLE_ROLES[0] == Discoverer && LAUNCHABLE_ROLES[1] == Implementer && LAUNCHABLE_ROLES[2] == Reviewer;
      assert Discoverer in served && Implementer in served && Reviewer in served;
      forall role: Role ensures role in served {
        match role case Discoverer => case Implementer => case Reviewer =>
      }
    }

    /**
     A pair is ready when its proof outlives the refresh window, or when a refresh that is due (eligible
     work, at least one repository, no backoff) succeeds now. A failed refresh forgets the proof and backs off.
     */
    method EnsureLanePreflight(pair: Pair, anyRepository: bool, expiries: map<Pair, int>, eligible: bool)
      returns (ready: bool, expiries': map<Pair, int>, ghost asked: bool)
      requires Reachable() && live > 0
      modifies `backoff, `record, `disk, `stateFailed, `cancelled, `history
      modifies world`workers, world`claimed, world`clock, world`proofs
      ensures Reachable() && world.Onward() && record.body.request == old(record).body.request
      ensures (old(cancelled) ==> cancelled) && (old(stateFailed) ==> stateFailed)
      ensures var lasts := pair in expiries && expiries[pair] > old(world.clock) + 2 * 60;
              var delayed := PreflightBackoff(pair) in old(backoff)
                             && old(backoff)[PreflightBackoff(pair)] > old(world.clock);
              && (asked <==> !lasts && eligible && anyRepository && !delayed)
              && (!asked ==> ready == lasts && expiries' == expiries && backoff == old(backoff))
      ensures asked && ready ==> pair in expiries' && expiries' == expiries[pair := expiries'[pair]]
                                 && backoff == old(backoff)
      ensures asked && !ready ==> expiries' == expiries - {pair}
                                  && backoff == old(backoff)[PreflightBackoff(pair) := world.clock + RETRY_DELAY]
      ensures var proof := ProofAnswer(pair, if asked && ready then Some(expiries'[pair]) else None);
              world.proofs == old(world.proofs) + (if asked then [proof] else [])
      ensures record.body == if !asked && (ready || (eligible && anyRepository)) then old(record).body
                             else WithProvider(old(record).body,
                                    if !asked then
                                      ProviderStatus(pair, RefreshNeeded,
                                                     if pair in expiries then Some(expiries[pair]) else None)
                                    else if ready then ProviderStatus(pair, Healthy, Some(expiries'[pair]))
                                    else ProviderStatus(pair, Unhealthy, None))
    {
      hide Reachable, PutProvider;
      ready, expiries', asked := false, expiries, false;
      var wrote;
      if Proven(expiries, pair, world.clock) {
        ready := true;
        return;
      }
      if !eligible || !anyRepository {
        var known := if pair in expiries then Some(expiries[pair]) else None;
        wrote := UpdateProvider(ProviderStatus(pair, RefreshNeeded, known));
        return;
      }
      if InBackoff(PreflightBackoff(pair)) {
        return;
      }
      asked := true;
      var proof := world.RefreshPreflight(pair);
      if proof.None? {
        expiries' := expiries - {pair};
        SetBackoff(PreflightBackoff(pair));
        wrote := UpdateProvider(ProviderStatus(pair, Unhealthy, None));
        return;
      }
      expiries' := expiries[pair := proof.value];
      wrote := UpdateProvider(ProviderStatus(pair, Healthy, proof));
      ready := true;
    }

    /** What the preflights of a tick go by, now. */
    ghost function Going(blocked: set<Role>, eligible: set<Pair>, anyRepository: bool,
                         expiries: map<Pair, int>): Preflight
      reads `record, `backoff
    {
      Preflight(record.body.request, blocked, eligible, anyRepository, expiries, backoff)
    }

    /**
     Every unblocked role's pair is looked at once: its proof holds, or a refresh is due and asked for, or
     neither. What a refresh answers decides whether the pair is ready, which proofs are known afterwards,
     and which pairs are held back.
     */
    method EnsurePreflights(blocked: set<Role>, eligible: set<Pair>, anyRepository: bool, expiries: map<Pair, int>)
      returns (ready: set<Pair>, expiries': map<Pair, int>, ghost asked: seq<ProofAnswer>)
      requires Reachable() && live > 0
      modifies `backoff, `record, `disk, `stateFailed, `cancelled, `history
      modifies world`workers, world`claimed, world`clock, world`proofs
      ensures Reachable() && world.Onward() && RecordKept()
      ensures world.proofs == old(world.proofs) + asked
      ensures record.body == old(record).body.(providers := record.body.providers)
      ensures Learned(expiries, asked, expiries') && Delays(old(backoff), asked, backoff, old(world.clock))
      ensures ReadyFor(old(Going(blocked, eligible, anyRepository, expiries)), LAUNCHABLE_ROLES,
                       old(world.clock), world.clock, asked, ready)
    {
      hide Reachable, Drifted, ReadyFor, Learned, Delays;
      ghost var f := Going(blocked, eligible, anyRepository, expiries);
      ready, expiries', asked := {}, expiries, [];
      var checked: set<Pair> := {};
      DriftStays(world.workers, world.claimed);
      NothingReady(f, world.clock);
      for i := 0 to |LAUNCHABLE_ROLES|
        invariant Reachable() && world.Onward() && RecordKept()
        invariant world.proofs == old(world.proofs) + asked
        invariant record.body == old(record).body.(providers := record.body.providers)
        invariant checked == PairsOf(f.request, LAUNCHABLE_ROLES[..i], blocked)
        invariant Learned(expiries, asked, expiries') && Delays(f.backoff, asked, backoff, old(world.clock))
        invariant ReadyFor(f, LAUNCHABLE_ROLES[..i], old(world.clock), world.clock, asked, ready)
      {
        var role := LAUNCHABLE_ROLES[i];
        var pair := record.body.request.PairOf(role);
        ghost var now, known, delays, before, readyBefore := world.clock, expiries', backoff, asked, ready;
        ghost var more: seq<ProofAnswer> := [];
        var looked := role !in blocked && pair !in checked;
        PairsMore(f.request, i, blocked);
        if looked {
          NotAskedYet(f, LAUNCHABLE_ROLES[..i], old(world.clock), now, asked, ready, expiries', backoff, pair);
          checked := checked + {pair};
          ghost var w, c := world.workers, world.claimed;
          var isReady;
          ghost var wasAsked;
          isReady, expiries', wasAsked := EnsureLanePreflight(pair, anyRepository, expiries', pair in eligible);
          DriftComposes(old(world.workers), old(world.claimed), w, c, world.workers, world.claimed);
          more := if wasAsked then [ProofAnswer(pair, if isReady then Some(expiries'[pair]) else None)] else [];
          ready := if isReady then ready + {pair} else ready;
          asked := asked + more;
        }
        LearnedMore(f, before, known, delays, old(world.clock), now, more, expiries', backoff);
        ReadyMore(f, i, old(world.clock), now, world.clock, before, readyBefore, looked, more, ready);
        assert asked == before + more;
      }
      assert LAUNCHABLE_ROLES[..|LAUNCHABLE_ROLES|] == LAUNCHABLE_ROLES;
    }

    // ---- Launching -----------------------------------------------------------------------------------

    /** The facts a launch keeps about the shared record. */
    twostate predicate RecordKept()
      reads `record, `cancelled, `stateFailed
    {
      && record.body.request == old(record).body.request
      && (old(cancelled) ==> cancelled) && (old(stateFailed) ==> stateFailed)
    }

    /** Pin the implementer's base again; failing that, back the lane off and launch nothing. */
    method RefreshImplementationBase(repository: Repo)
      returns (base: Option<string>, ghost wrote: bool, ghost answer: Option<string>)
      requires Reachable() && live > 0 && (stateFailed ==> cancelled)
      modifies `backoff, `record, `disk, `stateFailed, `cancelled, `history
      modifies world`workers, world`claimed, world`clock, world`setups
      ensures Reachable() && world.Onward() && RecordKept()
      ensures world.setups == old(world.setups) + [SetupAnswer(repository, answer)]
      ensures base == if Usable(answer) then answer else None
      ensures base == if answer == Some("") then None else answer
      ensures base.Some? ==> backoff == old(backoff)
                             && record.body == Pinned(old(record).body, repository, base.value)
      ensures base.None? ==> var key := LaunchBackoff(LaneKey(repository, Implementer));
                             && backoff == old(backoff)[key := world.clock + RETRY_DELAY]
                             && record.body == Patched(old(record).body, repository, Unhealthy, REFRESH_FAILED)
      ensures stateFailed <==> old(stateFailed) || !wrote
      ensures stateFailed ==> cancelled
    {
      hide Reachable, PatchRepository;
      var refreshed := world.Setup(repository);
      answer, base := refreshed, None;
      if refreshed.None? || refreshed.value == "" {
        SetBackoff(LaunchBackoff(LaneKey(repository, Implementer)));
        wrote := UpdateRepository(repository, Unhealthy, REFRESH_FAILED);
      } else {
        base := refreshed;
        wrote := UpdateBase(repository, refreshed.value);
      }
    }

    method UpdateBase(repository: Repo, base: string) returns (wrote: bool)
      requires Reachable() && live > 0
      modifies `record, `disk, `stateFailed, `cancelled, `history
      requires stateFailed ==> cancelled
      ensures Reachable() && RecordKept()
      ensures record.body == Pinned(old(record).body, repository, base)
      ensures stateFailed == (old(stateFailed) || !wrote)
      ensures stateFailed ==> cancelled
    {
      var listed := exists r <- record.body.repositories :: r.repository == repository;
      wrote := true;
      if listed {
        wrote := UpdateBody(record.body.(repositories := PinRepository(record.body.repositories, repository, base)));
      } else {
        NothingToPin(record.body.repositories, repository, base);
      }
    }

    /** What one launch attempt, or the refresh that replaced it, changes. */
    twostate predicate LaunchTurn(m: Managed, role: Role, new r: Option<WorkerId>)
      reads `own, `probes, `backoff, `cancelled, `record, world
    {
      var lane := LaneKey(m.repository, role);
      && own == old(own) + (if r.Some? then {r.value} else {})
      && probes == (if r.Some? then old(probes)[r.value := Probe(lane, false, false)] else old(probes))
      && (r.Some? ==> r.value !in old(world.workers) && r.value in world.workers
                      && world.workers[r.value] == Worker(lane, WorkerRunning))
      && (r.Some? ==> backoff == old(backoff))
      && (r.None? ==> BackedOff(old(backoff), backoff, LaunchBackoff(lane), old(world.clock)))
      && Issued(m, role, r, old(world.attempts), world.attempts, old(world.setups), world.setups, cancelled)
      && record.body == TurnBody(old(record).body, m,
                                 if role == Implementer then Some(world.setups[|old(world.setups)|].base) else None, r)
    }

    /** One repository's turn in a lane, after the checks: refresh if the lane needs it, launch, keep books. */
    method TakeTurn(m: Managed, role: Role) returns (r: Option<WorkerId>)
      requires Reachable() && live > 0 && !cancelled && !stateFailed
      modifies `own, `probes, `backoff, `record, `disk, `stateFailed, `cancelled, `history
      modifies world`workers, world`claimed, world`clock, world`setups, world`attempts
      ensures Reachable() && world.Onward() && RecordKept()
      ensures LaunchTurn(m, role, r)
    {
      hide Reachable, PatchRepository, PinRepository;
      var base := Some(m.base);
      ghost var refreshWrote: Option<bool> := None;
      if role == Implementer {
        ghost var wrote, answer;
        base, wrote, answer := RefreshImplementationBase(m.repository);
        refreshWrote := Some(wrote);
      }
      r := None;
      if base.Some? {
        ghost var w, c, b := world.workers, world.claimed, backoff;
        r := IssueLaunch(m.repository, role, base.value, refreshWrote);
        DriftComposes(old(world.workers), old(world.claimed), w, c, world.workers, world.claimed);
      }
    }

    method IssueLaunch(repository: Repo, role: Role, base: string, ghost refreshWrote: Option<bool>)
      returns (r: Option<WorkerId>)
      requires Reachable() && live > 0 && (stateFailed ==> cancelled && role == Implementer
                                                           && refreshWrote == Some(false))
      modifies `own, `probes, `backoff, `record, `disk, `stateFailed, `cancelled, `history
      modifies world`workers, world`claimed, world`clock, world`attempts
      ensures Reachable() && world.Onward() && RecordKept()
      ensures var lane := LaneKey(repository, role);
              && own == old(own) + (if r.Some? then {r.value} else {})
              && probes == (if r.Some? then old(probes)[r.value := Probe(lane, false, false)] else old(probes))
              && (r.Some? ==> r.value !in old(world.workers) && r.value in world.workers
                              && world.workers[r.value] == Worker(lane, WorkerRunning))
              && backoff == (if r.Some? then old(backoff)
                             else old(backoff)[LaunchBackoff(lane) := world.clock + RETRY_DELAY])
      ensures |world.attempts| == |old(world.attempts)| + 1 && old(world.attempts) <= world.attempts
      ensures var a := world.attempts[|old(world.attempts)|];
              && a.lane == LaneKey(repository, role) && a.worker == r && a.base == base
              && a.refreshWrote == refreshWrote
              && (a.afterStop ==> cancelled) && (a.afterLoss ==> a.afterStop && old(stateFailed))
      ensures record.body == if r.Some? then old(record).body.(workerIds := old(record).body.workerIds + [r.value])
                             else Patched(old(record).body, repository, Unhealthy, LAUNCH_FAILED)
    {
      hide Reachable, PatchRepository, Drifted;
      var lane := LaneKey(repository, role);
      Interfere();
      r := world.Launch(lane, base, cancelled, stateFailed, refreshWrote);
      var wrote;
      if r.None? {
        SetBackoff(LaunchBackoff(lane));
        wrote := UpdateRepository(repository, Unhealthy, LAUNCH_FAILED);
      } else {
        wrote := AddWorker(r.value);
        AddLaunchProbe(r.value, lane);
      }
    }

    method LaunchOne(m: Managed, role: Role) returns (r: Option<WorkerId>)
      requires Reachable() && live > 0 && Consistent() && !cancelled && !stateFailed
      modifies `own, `probes, `backoff, `record, `disk, `stateFailed, `cancelled, `history
      modifies world`workers, world`claimed, world`clock, world`setups, world`attempts
      ensures Reachable() && Consistent() && world.Onward() && RecordKept()
      ensures LaunchTurn(m, role, r)
    {
      hide Reachable, Tracked, CleansOnlySettled, Drifted, Issued, BackedOff;
      ghost var v := Track();
      r := TakeTurn(m, role);
      if r.None? {
        TrackDrifts(v, Track());
      } else {
        TrackLaunches(v, Track(), r.value, LaneKey(m.repository, role));
      }
    }

    /** What the launch loop reads and changes. */
    ghost function Stage(): Scene
      reads `own, `backoff, `cancelled, `stateFailed, `probes, `record, world
    {
      Scene(own, world.workers, world.attempts, backoff, world.clock, cancelled || stateFailed, probes,
            record.body.workerIds, record.body.workspacesCleaned)
    }

    /** One repository's turn, checks first: the end of the run, claimable work, backoff. */
    method TurnAt(m: Managed, role: Role, n: nat) returns (t: Turn)
      requires Reachable() && live > 0 && Consistent()
      modifies `own, `probes, `backoff, `record, `disk, `stateFailed, `cancelled, `history
      modifies world`workers, world`claimed, world`clock, world`setups, world`attempts
      ensures Reachable() && Consistent() && world.Onward() && RecordKept()
      ensures TurnTaken(old(Stage()), Stage(), LaneKey(m.repository, role), n, t)
      ensures match t
              case Ended => record.body == old(record).body
              case Nothing => record.body == old(record).body
              case HeldOff => record.body == Patched(old(record).body, m.repository, Unhealthy, LAUNCH_BACKED_OFF)
              case Refused => LaunchTurn(m, role, None)
              case Launch(id) => LaunchTurn(m, role, Some(id))
    {
      hide Reachable, Tracked, CleansOnlySettled, PatchRepository;
      Interfere();
      if cancelled || stateFailed {
        return Ended;
      }
      if n == 0 {
        return Nothing;
      }
      if InBackoff(LaunchBackoff(LaneKey(m.repository, role))) {
        var wrote := UpdateRepository(m.repository, Unhealthy, LAUNCH_BACKED_OFF);
        return HeldOff;
      }
      var r := LaunchOne(m, role);
      t := if r.Some? then Launch(r.value) else Refused;
    }

    /** One turn of the loop, with what it means for the lane so far. */
    method ServeOne(m: Managed, role: Role, n: nat, ghost o: Scene, ghost names: seq<Repo>,
                    ghost counts: map<Repo, nat>,
                    ghost budget: nat, ghost run: LaneRun, ghost p: nat, ghost i: nat, ghost quiet: bool)
      returns (t: Turn, ghost run': LaneRun)
      requires Reachable() && live > 0 && Consistent()
      requires i < |names| && names[i] == m.repository && run.remaining > 0 && n == LeftFor(run, names[i])
      requires Served(o, Stage(), role, names, counts, budget, run)
               && OnBeat(o, Stage(), role, names, counts, run, p, i)
      requires quiet ==> Quiet(o, Stage(), role, names, counts, run, i)
      modifies `own, `probes, `backoff, `record, `disk, `stateFailed, `cancelled, `history
      modifies world`workers, world`claimed, world`clock, world`setups, world`attempts
      ensures Reachable() && Consistent() && world.Onward() && RecordKept()
      ensures t.Launch? ==> n > 0
      ensures run' == After(run, names[i], role, t)
      ensures Served(o, Stage(), role, names, counts, budget, run')
      ensures if t.Ended? then cancelled || stateFailed else OnBeat(o, Stage(), role, names, counts, run', p, i + 1)
      ensures quiet && !t.Launch? && !t.Ended? ==> Quiet(o, Stage(), role, names, counts, run', i + 1)
    {
      ghost var before := Stage();
      t := TurnAt(m, role, n);
      hide Reachable, Tracked, CleansOnlySettled, Balanced, Logged, InStep, WellIssued, Drifted;
      OwnIsListed();
      run' := After(run, names[i], role, t);
      TurnServes(o, before, Stage(), role, names, counts, budget, run, i, t);
      if !t.Ended? {
        TurnStaysOnBeat(o, before, Stage(), role, names, counts, budget, run, p, i, t);
        if quiet && !t.Launch? {
          TurnStaysQuiet(o, before, Stage(), role, names, counts, budget, run, p, i, t);
        }
      }
    }

    lemma OwnIsListed()
      requires Consistent()
      ensures own <= world.workers.Keys
    {
    }

    /** One pass over the repositories, cut short when the capacity is used or the run ends. */
    method LaunchPass(role: Role, repositories: seq<Managed>, left: map<Repo, nat>, remaining: nat, ghost o: Scene,
                      ghost counts: map<Repo, nat>, ghost budget: nat, ghost run: LaneRun, ghost p: nat)
      returns (left': map<Repo, nat>, remaining': nat, launched: bool, ended: bool, ghost run': LaneRun, ghost i: nat)
      requires Reachable() && live > 0 && Consistent()
      requires run.left == left && run.remaining == remaining > 0
      requires Served(o, Stage(), role, Names(repositories), counts, budget, run)
      requires OnBeat(o, Stage(), role, Names(repositories), counts, run, p, 0)
      modifies `own, `probes, `backoff, `record, `disk, `stateFailed, `cancelled, `history
      modifies world`workers, world`claimed, world`clock, world`setups, world`attempts
      ensures Reachable() && Consistent() && world.Onward() && RecordKept()
      ensures run'.left == left' && run'.remaining == remaining'
      ensures if launched then remaining' < remaining else remaining' == remaining
      ensures Served(o, Stage(), role, Names(repositories), counts, budget, run')
      ensures ended ==> cancelled || stateFailed
      ensures !ended ==> OnBeat(o, Stage(), role, Names(repositories), counts, run', p, i)
                         && (remaining' > 0 ==> i == |repositories|)
      ensures !ended && !launched ==> Quiet(o, Stage(), role, Names(repositories), counts, run', |repositories|)
    {
      hide Reachable, Tracked, CleansOnlySettled, Balanced, Logged, InStep, WellIssued, Drifted, Quiet, OnBeat, Served;
      ghost var names := Names(repositories);
      left', remaining', launched, ended, run', i := left, remaining, false, false, run, 0;
      QuietBegins(o, Stage(), role, names, counts, run);
      DriftStays(world.workers, world.claimed);
      var k := 0;
      while k < |repositories| && remaining' > 0
        invariant 0 <= k == i <= |repositories|
        invariant Reachable() && Consistent() && world.Onward() && RecordKept()
        invariant run'.left == left' && run'.remaining == remaining'
        invariant if launched then remaining' < remaining else remaining' == remaining
        invariant Served(o, Stage(), role, names, counts, budget, run')
        invariant OnBeat(o, Stage(), role, names, counts, run', p, i)
        invariant !launched ==> Quiet(o, Stage(), role, names, counts, run', i)
        decreases |repositories| - k
      {
        var m := repositories[k];
        var n := if m.repository in left' then left'[m.repository] else 0;
        ghost var w, c := world.workers, world.claimed;
        var t;
        t, run' := ServeOne(m, role, n, o, names, counts, budget, run', p, i, !launched);
        DriftComposes(old(world.workers), old(world.claimed), w, c, world.workers, world.claimed);
        if t.Ended? {
          ended := true;
          return;
        }
        if t.Launch? {
          left' := left'[m.repository := n - 1];
          remaining', launched := remaining' - 1, true;
        }
        k, i := k + 1, i + 1;
      }
    }

    /**
     One lane's launch loop: passes over the repositories until the capacity is used, the run ends, or a
     whole pass starts nothing. `run` is what it did, and `RanOut` what it came to if it was brief.
     */
    method LaunchLane(role: Role, occupied: nat, repositories: seq<Managed>, counts: map<Repo, nat>)
      returns (ended: bool, ghost run: LaneRun)
      requires Reachable() && live > 0 && Consistent()
      modifies `own, `probes, `backoff, `record, `disk, `stateFailed, `cancelled, `history
      modifies world`workers, world`claimed, world`clock, world`setups, world`attempts
      ensures Reachable() && Consistent() && world.Onward() && RecordKept()
      ensures var budget := Max(0, old(record).body.request.LaneOf(role).capacity - occupied);
              Served(old(Stage()), Stage(), role, Names(repositories), counts, budget, run)
      ensures ended ==> cancelled || stateFailed
      ensures ended || RanOut(old(Stage()), Stage(), role, Names(repositories), counts,
                              Max(0, old(record).body.request.LaneOf(role).capacity - occupied), run)
    {
      hide Reachable, Tracked, CleansOnlySettled, Balanced, Logged, InStep, WellIssued, Drifted, Quiet, OnBeat,
           Served, CountLane;
      hide RanOut;
      ghost var o, names := Stage(), Names(repositories);
      var remaining := record.body.request.LaneOf(role).capacity - occupied;
      var left := counts;
      ghost var budget := Max(0, remaining);
      ghost var p, i: nat := 0, 0;
      ended, run := false, LaneRun(counts, budget, [], []);
      OwnIsListed();
      LoopBegins(o, role, names, counts, budget);
      DriftStays(world.workers, world.claimed);
      var launched := true;
      while remaining > 0 && launched
        invariant Reachable() && Consistent() && world.Onward() && RecordKept()
        invariant run.left == left && run.remaining == Max(0, remaining)
        invariant Served(o, Stage(), role, names, counts, budget, run)
        invariant OnBeat(o, Stage(), role, names, counts, run, p, i)
        invariant remaining > 0 ==> i == 0
        invariant remaining > 0 && !launched ==> Quiet(o, Stage(), role, names, counts, run, |names|)
        decreases remaining, launched
      {
        ghost var w, c := world.workers, world.claimed;
        left, remaining, launched, ended, run, i := LaunchPass(role, repositories, left, remaining, o, counts,
                                                               budget, run, p);
        DriftComposes(old(world.workers), old(world.claimed), w, c, world.workers, world.claimed);
        if ended {
          return;
        }
        if remaining > 0 {
          BeatEnds(o, Stage(), role, names, counts, run, p);
          p, i := p + 1, 0;
        }
      }
      LoopEnds(o, Stage(), role, names, counts, budget, run, p, i);
    }

    // ---- The tick ---------------------------------------------------------------------------------------------------

    /** How many listed workers occupy a lane of this role. */
    method CountActive(listed: map<WorkerId, Worker>, role: Role) returns (n: nat)
      ensures n == |Occupied(listed, role)|
      ensures n == |set id | id in listed && listed[id].lane.role == role
                             && listed[id].status in {WorkerRunning, Allocating}|
    {
      n := 0;
      var rest := listed.Keys;
      ghost var seen: set<WorkerId> := {};
      while rest != {}
        invariant rest <= listed.Keys
        invariant seen == set id | id in listed && id !in rest && listed[id].lane.role == role
                  && OccupiesLane(listed[id])
        invariant n == |seen|
        decreases rest
      {
        var id :| id in rest;
        rest := rest - {id};
        if listed[id].lane.role == role && OccupiesLane(listed[id]) {
          n, seen := n + 1, seen + {id};
        }
      }
      assert seen == Occupied(listed, role) == set id | id in listed && listed[id].lane.role == role
                                                        && listed[id].status in {WorkerRunning, Allocating};
    }

    /** Each observed count less the slots its lane's waiting workers reserve. */
    method Reserve(counts: map<Repo, Claimable>, pending: map<LaneKey, nat>) returns (adjusted: map<Repo, Claimable>)
      requires forall lane :: ReservedCount(pending, lane) == |Reserved(probes, lane)|
      ensures Reserving(counts, adjusted, probes)
      ensures adjusted.Keys == counts.Keys
      ensures forall r <- counts, role: Role ::
                var reserved := set id | id in probes && probes[id] == Probe(LaneKey(r, role), true, false);
                adjusted[r].For(role) == Max(0, counts[r].For(role) - |reserved|)
    {
      adjusted := counts;
      var rest := counts.Keys;
      while rest != {}
        invariant rest <= counts.Keys && adjusted.Keys == counts.Keys
        invariant forall r <- counts :: adjusted[r] == if r in rest then counts[r]
                  else LessReserved(counts[r], r, pending)
        decreases rest
      {
        var r :| r in rest;
        rest := rest - {r};
        adjusted := adjusted[r := LessReserved(counts[r], r, pending)];
      }
      assert forall lane :: ReservedCount(pending, lane) == |Reserved(probes, lane)|;
      forall lane ensures Reserved(probes, lane) == set id | id in probes && probes[id] == Probe(lane, true, false) {
      }
    }

    static function LessReserved(c: Claimable, r: Repo, pending: map<LaneKey, nat>): Claimable {
      Claimable(Adjusted(c.discoverer, ReservedCount(pending, LaneKey(r, Discoverer))),
                Adjusted(c.implementer, ReservedCount(pending, LaneKey(r, Implementer))),
                Adjusted(c.reviewer, ReservedCount(pending, LaneKey(r, Reviewer))))
    }

    /** The launch loops of all lanes whose pair is ready, in the fixed role order. */
    method LaunchAll(ready: set<Pair>, repositories: seq<Managed>, listed: map<WorkerId, Worker>,
                     counts: map<Repo, Claimable>)
      returns (ended: bool, ghost log: seq<Started>)
      requires Reachable() && live > 0 && Consistent()
      modifies `own, `probes, `backoff, `record, `disk, `stateFailed, `cancelled, `history
      modifies world`workers, world`claimed, world`clock, world`setups, world`attempts
      ensures Reachable() && Consistent() && world.Onward() && RecordKept()
      ensures Filled(old(Stage()), Stage(), old(record).body.request, ready, counts, listed, log, LAUNCHABLE_ROLES)
      ensures Exact(old(Stage()), Stage(), old(record).body.request, ready, counts, listed, log, LAUNCHABLE_ROLES,
                    Names(repositories))
      ensures ended ==> cancelled || stateFailed
    {
      hide Reachable, Tracked, CleansOnlySettled, Drifted, Filled, Exact, Served, OnBeat, Quiet, Occupied, CountLane,
           CountRole;
      ghost var o, request := Stage(), record.body.request;
      ended, log := false, [];
      OwnIsListed();
      NothingFilled(o, request, ready, counts, listed);
      DriftStays(world.workers, world.claimed);
      var k := 0;
      while k < |LAUNCHABLE_ROLES| && !ended
        invariant 0 <= k <= |LAUNCHABLE_ROLES|
        invariant Reachable() && Consistent() && world.Onward() && RecordKept()
        invariant Filled(o, Stage(), request, ready, counts, listed, log, LAUNCHABLE_ROLES[..k])
        invariant Exact(o, Stage(), request, ready, counts, listed, log, LAUNCHABLE_ROLES[..k], Names(repositories))
        invariant ended ==> cancelled || stateFailed
        decreases |LAUNCHABLE_ROLES| - k
      {
        ghost var w, c := world.workers, world.claimed;
        RolesAreDistinct(k);
        ended, log := LaunchRole(LAUNCHABLE_ROLES[k], ready, repositories, listed, counts, o, request, log,
                                 LAUNCHABLE_ROLES[..k]);
        DriftComposes(old(world.workers), old(world.claimed), w, c, world.workers, world.claimed);
        k := k + 1;
      }
      FilledMore(o, Stage(), request, ready, counts, listed, log, LAUNCHABLE_ROLES[..k], LAUNCHABLE_ROLES,
                 Names(repositories));
    }

    static lemma RolesAreDistinct(k: nat)
      requires k < |LAUNCHABLE_ROLES|
      ensures LAUNCHABLE_ROLES[k] !in LAUNCHABLE_ROLES[..k]
      ensures LAUNCHABLE_ROLES[..k + 1] == LAUNCHABLE_ROLES[..k] + [LAUNCHABLE_ROLES[k]]
    {
    }

    method LaunchRole(role: Role, ready: set<Pair>, repositories: seq<Managed>, listed: map<WorkerId, Worker>,
                      counts: map<Repo, Claimable>, ghost o: Scene, ghost request: Request, ghost log: seq<Started>,
                      ghost roles: seq<Role>)
      returns (ended: bool, ghost log': seq<Started>)
      requires Reachable() && live > 0 && Consistent()
      requires Filled(o, Stage(), request, ready, counts, listed, log, roles) && role !in roles
               && record.body.request == request
      requires Exact(o, Stage(), request, ready, counts, listed, log, roles, Names(repositories))
      modifies `own, `probes, `backoff, `record, `disk, `stateFailed, `cancelled, `history
      modifies world`workers, world`claimed, world`clock, world`setups, world`attempts
      ensures Reachable() && Consistent() && world.Onward() && RecordKept()
      ensures Filled(o, Stage(), request, ready, counts, listed, log', roles + [role])
      ensures Exact(o, Stage(), request, ready, counts, listed, log', roles + [role], Names(repositories))
      ensures ended ==> cancelled || stateFailed
    {
      hide Reachable, Tracked, CleansOnlySettled, Drifted, Filled, Exact, Served, OnBeat, Quiet, Occupied, CountLane,
           CountRole;
      hide RanOut;
      ended, log' := false, log;
      if record.body.request.PairOf(role) !in ready {
        DriftStays(world.workers, world.claimed);
        LanePassedOver(o, Stage(), request, ready, counts, listed, log, roles, role);
        return;
      }
      ghost var before := Stage();
      var occupied := CountActive(listed, role);
      ghost var run;
      ended, run := LaunchLane(role, occupied, repositories, ForRole(counts, role));
      LaneJoins(o, before, Stage(), request, ready, counts, listed, log, roles, role, Names(repositories),
                Max(0, request.LaneOf(role).capacity - occupied), run);
      ExactJoins(o, before, Stage(), request, ready, counts, listed, log, roles, role, Names(repositories),
                 Max(0, request.LaneOf(role).capacity - occupied), run);
      log' := log + run.log;
    }

    /** What a tick keeps account of. */
    ghost function Balance(): Account
      reads `probes, `candidates, `record, world`calls, world`proofs
    {
      Account(probes, candidates, world.calls, world.proofs, record.body.workspacesCleaned, record.body.workerIds)
    }

    /** Inspect the probes, confirm claims, then observe the queues: in that order. */
    method Survey(listed: map<WorkerId, Worker>, repositories: seq<Managed>)
      returns (counts: map<Repo, Claimable>, exits: seq<Exit>, ghost t: Trace)
      requires Reachable() && live > 0 && Consistent() && ListedNow(listed)
      modifies `probes, `record, `disk, `stateFailed, `cancelled, `history
      modifies world`workers, world`claimed, world`clock, world`calls
      ensures Reachable() && MidTick(listed, exits) && world.Onward() && RecordKept()
      ensures t.actual == old(world.workers) && t.listed == listed && t.exits == exits && counts == Tally(t.observed)
      ensures Surveyed(old(Balance()), Balance(), t, repositories, cancelled)
    {
      hide Reachable, InTick, Drifted, ExitsOf, Inspected, Unconfirmed, Confirmed, ConfirmedBy, Tally,
           NameOrder.Ascending, InspectedInto, AreExits, ArePending, ConfirmedInto, AreCounts, ObservedOf,
           ObservedBodies, Correlations, Observations, Matched, Reports, Misreported, NameOrder.SameMembers;
      ghost var before := Balance();
      exits := InspectLaunchProbes(listed);
      ghost var inspected := probes;
      ghost var asked, observed;
      var pending;
      pending, asked := ConfirmPendingClaims(listed, exits);
      assert probes == Confirmed(inspected, Matched(asked)) by {
        ConfirmedAre(inspected, old(world.claimed), asked, probes, world.claimed);
      }
      ghost var v, w, c, stopped := Track(), world.workers, world.claimed, cancelled;
      counts, observed := ObserveQueues(repositories);
      InTickDrifts(v, world.workers, world.claimed, listed, exits);
      DriftComposes(old(world.workers), old(world.claimed), w, c, world.workers, world.claimed);
      ObservationsKeep(old(record).body, observed);
      t := Trace(old(world.workers), listed, exits, pending, asked, observed, [], map[], 0, [], [],
                 map[], {}, {}, map[], [], {}, Stage(), Stage(), []);
    }

    static lemma ConfirmedAre(was: map<WorkerId, Probe>, had: set<WorkerId>, asked: seq<Question>,
                              probes: map<WorkerId, Probe>, claimed: set<WorkerId>)
      requires ConfirmedBy(was, had, asked, probes, claimed)
      ensures probes == Confirmed(was, Matched(asked))
    {
    }

    /** Correlating the exits, on account. */
    method CloseExits(ghost listed: map<WorkerId, Worker>, exits: seq<Exit>)
      returns (pending: seq<LaneFailure>, ghost answers: Answers)
      requires Reachable() && MidTick(listed, exits)
      modifies `probes, `candidates, `laneFailures, `backoff
      modifies world`workers, world`claimed, world`clock, world`sightings, world`calls
      ensures Reachable() && MidTick(listed, exits) && world.Onward()
      ensures |answers| == |exits| && ExitsAccounted(old(Balance()), Balance(), exits, answers)
      ensures LanesOf(pending) == PausedLanes(exits, answers)
      ensures Failing(old(laneFailures), laneFailures, old(backoff), backoff, FailedLanes(exits, answers),
                      old(world.clock))
    {
      hide Reachable, InTick, Drifted, Failing, Forgotten, Marked, FailedLanes, PausedLanes, Asked, Correlations,
           LanesOf;
      pending, answers := ReconcileWorkerExits(listed, exits);
    }

    /** The sweep, on account. */
    method Tidy(ghost listed: map<WorkerId, Worker>, ghost exits: seq<Exit>)
      returns (due: seq<WorkerId>, ghost cleaned: seq<bool>)
      requires Reachable() && live > 0 && MidTick(listed, exits)
      modifies `candidates, `record, `disk, `stateFailed, `cancelled, `history
      modifies world`workers, world`claimed, world`clock, world`cleanups, world`calls
      ensures Reachable() && MidTick(listed, exits) && world.Onward() && RecordKept()
      ensures SweepAccounted(old(Balance()), Balance(), old(world.clock), due, cleaned, retain, cancelled)
    {
      hide Reachable, InTick, Drifted, Due, Cleanings, Removed;
      due, cleaned := SweepCleanupCandidates(listed, exits);
    }

    /** Correlate the exits, then sweep. */
    method Conclude(listed: map<WorkerId, Worker>, exits: seq<Exit>, ghost t: Trace)
      returns (pending: seq<LaneFailure>, ghost t': Trace)
      requires Reachable() && live > 0 && MidTick(listed, exits) && t.exits == exits
      modifies `probes, `candidates, `laneFailures, `backoff, `record, `disk, `stateFailed, `cancelled, `history
      modifies world`workers, world`claimed, world`clock, world`sightings, world`cleanups, world`calls
      ensures Reachable() && MidTick(listed, exits) && world.Onward() && RecordKept()
      ensures t' == t.(answers := t'.answers, eligible := t'.eligible, at := t'.at, due := t'.due,
                       cleaned := t'.cleaned)
      ensures Concluded(old(Balance()), Balance(), t', retain, cancelled)
      ensures |exits| == |t'.answers| && LanesOf(pending) == PausedLanes(exits, t'.answers)
      ensures Failing(old(laneFailures), laneFailures, old(backoff), backoff, FailedLanes(exits, t'.answers),
                      old(world.clock))
    {
      hide Reachable, InTick, Drifted, Failing, FailedLanes, PausedLanes, LanesOf, MidTick, Track;
      hide Concluded, ExitsAccounted, SweepAccounted;
      ghost var b, answers, cleaned := Balance(), [], [];
      pending, answers := CloseExits(listed, exits);
      ghost var w, c, at, m := world.workers, world.claimed, world.clock, Balance();
      var due;
      due, cleaned := Tidy(listed, exits);
      DriftComposes(old(world.workers), old(world.claimed), w, c, world.workers, world.claimed);
      t' := t.(answers := answers, eligible := m.candidates, at := at, due := due, cleaned := cleaned);
      ExitsThenSweep(b, m, Balance(), t', retain, cancelled);
    }

    /** Decide which pairs may launch: blocked roles first, then the preflights of the others. */
    method Prepare(pending: seq<LaneFailure>, counts: map<Repo, Claimable>, anyRepository: bool,
                   expiries: map<Pair, int>)
      returns (ready: set<Pair>, expiries': map<Pair, int>, blocked: set<Role>, ghost eligible: set<Pair>,
               ghost asked: seq<ProofAnswer>)
      requires Reachable() && live > 0
      modifies `laneFailures, `backoff, `record, `disk, `stateFailed, `cancelled, `history
      modifies world`workers, world`claimed, world`clock, world`proofs
      ensures Reachable() && world.Onward() && RecordKept()
      ensures record.body == old(record).body.(providers := record.body.providers,
                                               repositories := record.body.repositories)
      ensures laneFailures == Unexpired(old(laneFailures), old(world.clock))
      ensures blocked == RolesOf(laneFailures.Keys + LanesOf(pending))
      ensures world.proofs == old(world.proofs) + asked
      ensures Learned(expiries, asked, expiries') && Delays(old(backoff), asked, backoff, old(world.clock))
      ensures EligibleFor(old(record).body.request, blocked, counts, eligible)
      ensures ReadyFor(old(Going(blocked, eligible, anyRepository, expiries)), LAUNCHABLE_ROLES,
                       old(world.clock), world.clock, asked, ready)
    {
      hide Reachable, Drifted, RolesOf, LanesOf, Unexpired, PatchEach, ReadyFor, HasWork, Learned, Delays;
      blocked := BlockedRoles(pending);
      var pairs := EligiblePairs(blocked, counts);
      eligible := pairs;
      assert Going(blocked, eligible, anyRepository, expiries) == old(Going(blocked, eligible, anyRepository,
                                                                            expiries));
      ready, expiries', asked := EnsurePreflights(blocked, pairs, anyRepository, expiries);
    }

    /** The workers, probes and launches, and whether the run is over. */
    ghost function Seen(): View
      reads `own, `probes, `candidates, `cancelled, `stateFailed, world
    {
      Track().(done := cancelled || stateFailed)
    }

    lemma SeenIsTracked()
      ensures Consistent() <==> Tracked(Seen()) && CleansOnlySettled(Seen())
    {
    }

    /** Up to the moment reservations are counted: `adjusted` is what each lane may still launch. */
    method Assess(listed: map<WorkerId, Worker>, repositories: seq<Managed>)
      returns (counts: map<Repo, Claimable>, adjusted: map<Repo, Claimable>, pending: seq<LaneFailure>,
               ghost t: Trace, ghost mid: Account)
      requires Reachable() && live > 0 && Consistent() && ListedNow(listed)
      modifies `probes, `candidates, `laneFailures, `backoff, `record, `disk, `stateFailed, `cancelled, `history
      modifies world`workers, world`claimed, world`clock, world`sightings, world`cleanups, world`calls
      ensures Reachable() && MidTick(listed, t.exits) && world.Onward() && RecordKept()
      ensures t.actual == old(world.workers) && t.listed == listed
      ensures counts == Tally(t.observed) && Reserving(counts, adjusted, probes)
      ensures Surveyed(old(Balance()), mid, t, repositories, cancelled)
              && Concluded(mid, Balance(), t, retain, cancelled)
      ensures |t.exits| == |t.answers| && LanesOf(pending) == PausedLanes(t.exits, t.answers)
      ensures Failing(old(laneFailures), laneFailures, old(backoff), backoff, FailedLanes(t.exits, t.answers),
                      old(world.clock))
    {
      hide Reachable, InTick, Drifted, Surveyed, Concluded, Failing, FailedLanes, PausedLanes, Tally, LanesOf;
      var exits;
      ghost var t0;
      counts, exits, t0 := Survey(listed, repositories);
      ghost var w, c, stopped, since := world.workers, world.claimed, cancelled, world.clock;
      mid := Balance();
      pending, t := Conclude(listed, exits, t0);
      SurveyStays(old(Balance()), mid, t0, t, repositories, stopped, cancelled);
      FailingSince(old(laneFailures), laneFailures, old(backoff), backoff, FailedLanes(t.exits, t.answers), since,
                   old(world.clock));
      DriftComposes(old(world.workers), old(world.claimed), w, c, world.workers, world.claimed);
      var reserved := PendingLaunchCounts();
      adjusted := Reserve(counts, reserved);
    }

    /** The run is over, or its last critical section was the tick's summary. */
    ghost predicate Summarised()
      reads `cancelled, `stateFailed, `history
    {
      cancelled || stateFailed || (history != [] && Last(history).SetReconciled?)
    }

    /** The launch loops, and the summary unless the run ended meanwhile. */
    method LaunchAndSummarise(ready: set<Pair>, repositories: seq<Managed>, listed: map<WorkerId, Worker>,
                              adjusted: map<Repo, Claimable>)
      returns (ghost s: Scene, ghost log: seq<Started>)
      requires Reachable() && live > 0 && Consistent()
      modifies `own, `probes, `backoff, `record, `disk, `stateFailed, `cancelled, `history
      modifies world`workers, world`claimed, world`clock, world`setups, world`attempts
      ensures Reachable() && Consistent() && world.Onward() && RecordKept()
      ensures Filled(old(Stage()), s, old(record).body.request, ready, adjusted, listed, log, LAUNCHABLE_ROLES)
      ensures Exact(old(Stage()), s, old(record).body.request, ready, adjusted, listed, log, LAUNCHABLE_ROLES,
                    Names(repositories))
      ensures Stage() == s.(done := cancelled || stateFailed) && (s.done ==> cancelled || stateFailed)
      ensures Summarised()
    {
      hide Reachable, Tracked, CleansOnlySettled, Drifted, Filled, Exact;
      var ended;
      ended, log := LaunchAll(ready, repositories, listed, adjusted);
      s := Stage();
      if !ended {
        SummariseTick();
      }
    }

    /** The summary changes the status and nothing a tick launches by. */
    method SummariseTick()
      requires Reachable() && live > 0
      modifies `record, `disk, `stateFailed, `cancelled, `history
      ensures Reachable() && RecordKept() && record.body == old(record).body
      ensures history != [] && Last(history).SetReconciled?
    {
      hide Reachable;
      var wrote := SetReconciledStatus();
    }

    /** From there to the end: preflights, launches, summary. */
    method Dispatch(listed: map<WorkerId, Worker>, adjusted: map<Repo, Claimable>, pending: seq<LaneFailure>,
                    repositories: seq<Managed>, expiries: map<Pair, int>)
      returns (expiries': map<Pair, int>, blocked: set<Role>, ready: set<Pair>, ghost eligible: set<Pair>,
               ghost asked: seq<ProofAnswer>, ghost o: Scene, ghost s: Scene, ghost log: seq<Started>)
      requires Reachable() && live > 0 && Consistent()
      modifies `own, `probes, `laneFailures, `backoff, `record, `disk, `stateFailed, `cancelled, `history
      modifies world`workers, world`claimed, world`clock, world`setups, world`attempts, world`proofs
      ensures Reachable() && Consistent() && RecordKept()
      ensures world.Onward() && old(world.clock) <= o.clock
      ensures laneFailures == Unexpired(old(laneFailures), old(world.clock))
      ensures blocked == RolesOf(laneFailures.Keys + LanesOf(pending))
      ensures world.proofs == old(world.proofs) + asked
      ensures Learned(expiries, asked, expiries') && Delays(old(backoff), asked, o.backoff, old(world.clock))
      ensures EligibleFor(old(record).body.request, blocked, adjusted, eligible)
      ensures ReadyFor(old(Going(blocked, eligible, repositories != [], expiries)), LAUNCHABLE_ROLES,
                       old(world.clock), o.clock, asked, ready)
      ensures Launching(o, s, old(record).body.request, blocked, ready, adjusted, listed, log, Names(repositories))
      ensures Drifted(old(world.workers), {}, o.workers, {}) && (old(cancelled || stateFailed) ==> o.done)
      ensures o == old(Stage()).(workers := o.workers, clock := o.clock, backoff := o.backoff, done := o.done)
      ensures Stage() == s.(done := cancelled || stateFailed) && (s.done ==> cancelled || stateFailed)
      ensures Summarised()
    {
      hide Reachable, Tracked, CleansOnlySettled, Drifted, Filled, Exact, ReadyFor, EligibleFor, Learned, Delays;
      hide RolesOf, LanesOf, Unexpired;
      ghost var v := Track();
      ready, expiries', blocked, eligible, asked := Prepare(pending, adjusted, repositories != [], expiries);
      ReadyOnBehalf(old(Going(blocked, eligible, repositories != [], expiries)), old(world.clock), world.clock,
                    asked, ready);
      TrackDrifts(v, Track());
      ForgettingClaims(old(world.workers), old(world.claimed), world.workers, world.claimed);
      ghost var w, c := world.workers, world.claimed;
      o := Stage();
      s, log := LaunchAndSummarise(ready, repositories, listed, adjusted);
      DriftComposes(old(world.workers), old(world.claimed), w, c, world.workers, world.claimed);
    }

    /** All that a tick is about, now. */
    ghost function Present(): Moment
      reads `probes, `candidates, `laneFailures, `backoff, `record, `own, `cancelled, `stateFailed, world
    {
      Moment(Seen(), Stage(), Balance(), laneFailures, record.body.request)
    }

    lemma PresentIsCoherent()
      ensures Coherent(Present())
    {
    }

    /** The tick was over before it began, or the inventory failed and the campaign is reported degraded. */
    twostate predicate NothingStarted()
      reads `probes, `candidates, `record, `cancelled, `stateFailed, `history, world`calls, world`attempts, world`proofs
      reads world`unlisted
    {
      && Balance() == old(Balance()) && world.attempts == old(world.attempts)
      && (old(cancelled || stateFailed)
          || (world.unlisted > old(world.unlisted) && history != [] && Last(history).Degrade?))
    }

    /**
     One reconciliation tick. Unless it was over before it began, or the inventory failed, `trace` accounts
     for every step of it, down to the summary that ends it: which lanes failed, which roles they block,
     which pairs are ready, and exactly what is launched.
     */
    method Reconcile(repositories: seq<Managed>, expiries: map<Pair, int>)
      returns (expiries': map<Pair, int>, ghost input: TickInput, ghost trace: Option<Trace>)
      requires Reachable() && live > 0 && Consistent()
      modifies `own, `probes, `candidates, `laneFailures, `backoff, `record, `disk, `stateFailed, `cancelled, `history
      modifies world`workers, world`claimed, world`clock, world`sightings, world`cleanups, world`setups, world`attempts
      modifies world`calls, world`proofs, world`misreported, world`unlisted
      ensures Reachable() && Consistent() && RecordKept()
      ensures Tick(old(record).body.request, old(Seen()), Seen(), input)
      ensures trace.None? ==> NothingStarted()
      ensures trace.Some? ==> input == trace.value.Input() && Summarised()
                              && TickTraced(old(Present()), Present(), trace.value, repositories, retain)
      ensures if trace.None? then expiries' == expiries
              else trace.value.known == expiries && Learned(expiries, trace.value.proved, expiries')
    {
      hide Reachable, Tick, Tracked, CleansOnlySettled, Drifted, TickTraced, Begun, Coherent, Learned;
      ghost var b := Present();
      PresentIsCoherent();
      SeenIsTracked();
      expiries', trace := expiries, None;
      if cancelled || stateFailed {
        DriftStays(world.workers, world.claimed);
        input := NothingDone(b.view);
        return;
      }
      var listed := Inventory();
      if listed.None? {
        input := WithoutInventory(b.view);
      } else {
        ghost var t;
        expiries', t := ReconcileWith(listed.value, repositories, expiries, b);
        input, trace := t.Input(), Some(t);
      }
    }

    /** List the workers; of all that a tick starts from, only they and the clock have moved by then. */
    method Inventory() returns (listed: Option<map<WorkerId, Worker>>)
      requires Reachable() && live > 0 && Consistent() && !cancelled && !stateFailed
      modifies `record, `disk, `cancelled, `history
      modifies world`workers, world`claimed, world`clock, world`misreported, world`unlisted
      ensures Reachable() && Consistent() && RecordKept()
      ensures listed.None? ==> Between(old(Seen()), Seen()) && Balance() == old(Balance())
                               && world.unlisted > old(world.unlisted)
      ensures listed.Some? ==> Begun(old(Present()), Present(), listed.value)
    {
      hide Reachable, Tracked, CleansOnlySettled, Drifted, Reports, Misreported;
      ghost var v := Track();
      SeenIsTracked();
      listed := world.ListWorkers();
      TrackDrifts(v, Track());
      Interfere();
    }

    /** The inventory failed: the campaign is reported degraded, and the tick is over. */
    method WithoutInventory(ghost b: View) returns (ghost input: TickInput)
      requires Reachable() && live > 0 && Tracked(b) && Between(b, Seen())
      modifies `record, `disk, `stateFailed, `cancelled, `history
      ensures Reachable() && RecordKept() && Balance() == old(Balance())
      ensures history != [] && Last(history).Degrade?
      ensures Tick(record.body.request, b, Seen(), input)
    {
      hide Reachable, Tracked, Drifted, Tick;
      var wrote := DegradeCampaign("managed worker inventory failed");
      input := NothingDone(b);
    }

    /** A tick that got no further than the inventory. */
    ghost method NothingDone(b: View) returns (input: TickInput)
      requires Tracked(b) && Between(b, Seen())
      ensures Tick(record.body.request, b, Seen(), input)
    {
      input := TickInput(world.workers, world.workers, map[]);
      QuietTick(record.body.request, b, Seen());
    }

    /** The tick from the inventory on. */
    method ReconcileWith(listed: map<WorkerId, Worker>, repositories: seq<Managed>, expiries: map<Pair, int>,
                         ghost b: Moment)
      returns (expiries': map<Pair, int>, ghost t: Trace)
      requires Reachable() && live > 0 && Consistent() && Coherent(b) && Begun(b, Present(), listed)
      modifies `own, `probes, `candidates, `laneFailures, `backoff, `record, `disk, `stateFailed, `cancelled, `history
      modifies world`workers, world`claimed, world`clock, world`sightings, world`cleanups, world`setups, world`attempts
      modifies world`calls, world`proofs
      ensures Reachable() && Consistent() && RecordKept() && Summarised()
      ensures Tick(b.request, b.view, Seen(), t.Input())
      ensures TickTraced(b, Present(), t, repositories, retain)
      ensures t.known == expiries && Learned(expiries, t.proved, expiries')
    {
      hide Reachable, Tracked, CleansOnlySettled, Begun, Halfway, Sent, Tick, TickTraced, Coherent, Learned;
      var adjusted, pending;
      ghost var t0, surveyed;
      adjusted, pending, t0, surveyed := AssessTick(listed, repositories, b);
      ghost var mid := Present();
      PresentIsCoherent();
      expiries', t := DispatchTick(listed, adjusted, pending, repositories, expiries, t0);
      PresentIsCoherent();
      StagesCompose(b, mid, Present(), surveyed, t0, t, repositories, retain);
    }

    method AssessTick(listed: map<WorkerId, Worker>, repositories: seq<Managed>, ghost b: Moment)
      returns (adjusted: map<Repo, Claimable>, pending: seq<LaneFailure>, ghost t: Trace, ghost surveyed: Account)
      requires Reachable() && live > 0 && Consistent() && Begun(b, Present(), listed)
      modifies `probes, `candidates, `laneFailures, `backoff, `record, `disk, `stateFailed, `cancelled, `history
      modifies world`workers, world`claimed, world`clock, world`sightings, world`cleanups, world`calls
      ensures Reachable() && Consistent() && RecordKept()
      ensures Halfway(b, Present(), surveyed, t, repositories, retain) && t.listed == listed && t.adjusted == adjusted
      ensures |t.exits| == |t.answers| && LanesOf(pending) == PausedLanes(t.exits, t.answers)
    {
      hide Reachable, Drifted, InTick, Tracked, CleansOnlySettled, Reserving, Stabilised, Reports, Misreported;
      hide Surveyed, Concluded, Failing, FailedLanes, PausedLanes, Tally, LanesOf;
      ghost var w, c, since := world.workers, world.claimed, world.clock;
      var counts;
      ghost var t0;
      counts, adjusted, pending, t0, surveyed := Assess(listed, repositories);
      t := t0.(adjusted := adjusted);
      MidTickIsConsistent(listed, t.exits);
      MidDrifts(b.view, w, c);
      SurveyStays(b.account, surveyed, t0, t, repositories, cancelled, cancelled || stateFailed);
      ConclusionStays(surveyed, Balance(), t0, t, retain, cancelled, cancelled || stateFailed);
      FailingSince(b.failures, laneFailures, b.scene.backoff, backoff, FailedLanes(t.exits, t.answers), since,
                   b.scene.clock);
      TrackIsSeen();
    }

    lemma MidDrifts(b: View, actual: map<WorkerId, Worker>, claimed: set<WorkerId>)
      requires Drifted(b.workers, b.claimed, actual, claimed) && Drifted(actual, claimed, world.workers, world.claimed)
      ensures Drifted(b.workers, b.claimed, world.workers, world.claimed)
      ensures Drifted(b.workers, {}, actual, {}) && Drifted(actual, {}, world.workers, {})
    {
    }

    lemma TrackIsSeen()
      ensures (Tracked(Track()) <==> Tracked(Seen())) && (Stabilised(Track()) <==> Stabilised(Seen()))
    {
    }

    lemma MidTickIsConsistent(listed: map<WorkerId, Worker>, exits: seq<Exit>)
      requires MidTick(listed, exits)
      ensures Consistent() && Stabilised(Track()) && Tracked(Track())
    {
    }

    method DispatchTick(listed: map<WorkerId, Worker>, adjusted: map<Repo, Claimable>, pending: seq<LaneFailure>,
                        repositories: seq<Managed>, expiries: map<Pair, int>, ghost t0: Trace)
      returns (expiries': map<Pair, int>, ghost t: Trace)
      requires Reachable() && live > 0 && Consistent() && t0.listed == listed && t0.adjusted == adjusted
      requires |t0.exits| == |t0.answers| && LanesOf(pending) == PausedLanes(t0.exits, t0.answers)
      modifies `own, `probes, `laneFailures, `backoff, `record, `disk, `stateFailed, `cancelled, `history
      modifies world`workers, world`claimed, world`clock, world`setups, world`attempts, world`proofs
      ensures Reachable() && Consistent() && RecordKept() && Summarised()
      ensures Sent(old(Present()), Present(), t, repositories)
      ensures t == t0.WithDispatch(t) && t.known == expiries && Learned(expiries, t.proved, expiries')
    {
      hide Reachable, Drifted, Tracked, CleansOnlySettled, Launching, Unexpired, RolesOf, LanesOf, PausedLanes;
      hide ReadyFor, EligibleFor, Learned, Delays;
      var blocked, ready;
      ghost var eligible, asked, o, s, log;
      expiries', blocked, ready, eligible, asked, o, s, log :=
        Dispatch(listed, adjusted, pending, repositories, expiries);
      t := t0.(blocked := blocked, eligiblePairs := eligible, known := expiries, proved := asked, ready := ready,
               opening := o, closing := s, started := log);
      SeenIsTracked();
    }

    // ---- The run -------------------------------------------------------------------------------------

    /** Time passes, workers move, and the operator may stop the campaign. */
    method Wait()
      requires Reachable() && live > 0 && Consistent()
      modifies `record, `disk, `cancelled, `history, world`workers, world`claimed, world`clock
      ensures Reachable() && Consistent() && RecordKept() && Between(old(Seen()), Seen())
    {
      hide Reachable, Tracked, CleansOnlySettled, Drifted;
      ghost var v := Track();
      Interfere();
      world.Drift();
      TrackDrifts(v, Track());
    }

    /**
     What the run does besides ticking: waiting, setting repositories up, proving providers. The record's
     repositories and providers change, and a failed listing of the repositories degrades the campaign.
     */
    method Elsewhere()
      requires Reachable() && live > 0 && Consistent()
      modifies `backoff, `record, `disk, `stateFailed, `cancelled, `history, world`workers, world`claimed, world`clock
      ensures Reachable() && Consistent() && RecordKept() && Between(old(Seen()), Seen())
    {
      hide Reachable, Tracked, CleansOnlySettled, Drifted;
      Wait();
      ChangeRecord();
    }

    method ChangeRecord()
      requires Reachable() && live > 0
      modifies `backoff, `record, `disk, `stateFailed, `cancelled, `history
      ensures Reachable() && RecordKept()
    {
      hide Reachable;
      var key, repositories, providers, delayed, listed, changed := Anything();
      var wrote;
      if delayed {
        SetBackoff(key);
      }
      if !listed {
        wrote := DegradeCampaign("managed repository listing failed");
      }
      if changed {
        wrote := UpdateBody(record.body.(repositories := repositories, providers := providers));
      }
    }

    method Anything()
      returns (key: BackoffKey, repositories: seq<RepositoryStatus>, providers: seq<ProviderStatus>,
               delayed: bool, listed: bool, changed: bool)
    {
      key, repositories, providers := *, *, *;
      delayed, listed, changed := *, *, *;
    }

    /** The repositories that are ready, and the provider proofs at hand. */
    method SetUp() returns (repositories: seq<Managed>, expiries: map<Pair, int>)
    {
      repositories, expiries := *, *;
    }

    /** The states seen so far, the present one last, form a campaign that began as `b`. */
    ghost predicate Followed(request: Request, b: View, vs: seq<View>, steps: seq<Option<TickInput>>)
      reads `own, `probes, `candidates, `cancelled, `stateFailed, `record, world
    {
      && |vs| == |steps| + 1 && CampaignRuns.Campaign(request, vs, steps)
      && vs[0] == b && vs[|vs| - 1] == Seen() && record.body.request == request
    }

    lemma FollowsOn(request: Request, b: View, vs: seq<View>, steps: seq<Option<TickInput>>, v: View,
                    step: Option<TickInput>)
      requires |vs| == |steps| + 1 && CampaignRuns.Campaign(request, vs, steps) && vs[0] == b && vs[|vs| - 1] == v
      requires Next(request, v, Seen(), step) && record.body.request == request
      ensures Followed(request, b, vs + [Seen()], steps + [step])
    {
      CampaignGoesOn(request, vs, steps, Seen(), step);
    }

    /** The run's first steps: setup, then the status they lead to. */
    method Settle(ghost request: Request, ghost b: View)
      returns (repositories: seq<Managed>, expiries: map<Pair, int>, ghost vs: seq<View>,
               ghost steps: seq<Option<TickInput>>)
      requires Reachable() && live > 0 && Consistent()
      requires b == Seen() && record.body.request == request
      modifies `backoff, `record, `disk, `stateFailed, `cancelled, `history, world`workers, world`claimed, world`clock
      ensures Reachable() && Consistent() && Followed(request, b, vs, steps) && |steps| >= 1
    {
      hide Reachable, Tracked, CleansOnlySettled, Drifted, CampaignRuns.Campaign, Tick;
      CampaignBegins(request, b);
      Elsewhere();
      FollowsOn(request, b, [b], [], b, None);
      vs, steps := [b] + [Seen()], [] + [None];
      repositories, expiries := SetUp();
      if !cancelled {
        ghost var v := Seen();
        BecomeReady(repositories != [] && expiries != map[]);
        FollowsOn(request, b, vs, steps, v, None);
        vs, steps := vs + [Seen()], steps + [None];
      }
    }

    method BecomeReady(ready: bool)
      requires Reachable() && live > 0 && Consistent()
      modifies `record, `disk, `stateFailed, `cancelled, `history
      ensures Reachable() && Consistent() && RecordKept() && Between(old(Seen()), Seen())
    {
      hide Reachable, Tracked, CleansOnlySettled, Drifted;
      SeenIsTracked();
      Interfere();
      var wrote := SetRunningStatus(ready);
      SeenIsTracked();
      DriftStays(world.workers, world.claimed);
    }

    /** One tick and the wait after it. */
    method TickAndWait(repositories: seq<Managed>, expiries: map<Pair, int>, ghost request: Request, ghost b: View,
                       ghost vs: seq<View>, ghost steps: seq<Option<TickInput>>)
      returns (expiries': map<Pair, int>, ghost vs': seq<View>, ghost steps': seq<Option<TickInput>>,
               ghost mid: Moment, ghost trace: Option<Trace>)
      requires Reachable() && live > 0 && Consistent() && Followed(request, b, vs, steps)
      modifies `own, `probes, `candidates, `laneFailures, `backoff, `record, `disk, `stateFailed, `cancelled, `history
      modifies world`workers, world`claimed, world`clock, world`sightings, world`cleanups, world`setups, world`attempts
      modifies world`calls, world`proofs, world`misreported, world`unlisted
      ensures Reachable() && Consistent() && Followed(request, b, vs', steps')
      ensures (old(cancelled) ==> cancelled) && |steps'| == |steps| + 2 && vs' == vs + [mid.view, Seen()]
      ensures trace.None? ==> old(cancelled || stateFailed) || world.unlisted > old(world.unlisted)
      ensures trace.Some? ==> TickTraced(old(Present()), mid, trace.value, repositories, retain)
                              && trace.value.known == expiries && Learned(expiries, trace.value.proved, expiries')
    {
      hide Reachable, Tracked, CleansOnlySettled, Drifted, CampaignRuns.Campaign, Tick, TickTraced, Summarised, Learned;
      ghost var input;
      ghost var v := Seen();
      expiries', input, trace := Reconcile(repositories, expiries);
      mid := Present();
      FollowsOn(request, b, vs, steps, v, Some(input));
      vs', steps' := vs + [Seen()], steps + [Some(input)];
      v := Seen();
      Elsewhere();
      FollowsOn(request, b, vs', steps', v, None);
      vs', steps' := vs' + [Seen()], steps' + [None];
    }

    /** The run's context is done: it finalizes. */
    method Finish(ghost request: Request, ghost b: View, ghost vs: seq<View>, ghost steps: seq<Option<TickInput>>)
      returns (ghost vs': seq<View>, ghost steps': seq<Option<TickInput>>)
      requires Reachable() && live > 0 && Consistent() && cancelled && Followed(request, b, vs, steps)
      modifies `record, `disk, `stateFailed, `cancelSet, `cancelled, `doneOpen, `live, `closes, `history
      ensures Reachable() && Followed(request, b, vs', steps') && |steps'| == |steps| + 1
      ensures record.status == Stopped && live == 0 && closes == old(closes) + 1
    {
      hide Reachable, Tracked, CleansOnlySettled, Drifted, CampaignRuns.Campaign;
      ghost var v := Seen();
      var wrote := FinalizeStopped();
      DriftStays(world.workers, world.claimed);
      FollowsOn(request, b, vs, steps, v, None);
      vs', steps' := vs + [Seen()], steps + [None];
    }

    /**
     A run of the campaign, followed for at most `ticks` ticks. It is one of the campaigns the run theorems
     speak of; once its context is done it finalizes, whatever else happened.
     */
    method Run(ticks: nat) returns (finished: bool, ghost vs: seq<View>, ghost steps: seq<Option<TickInput>>)
      requires Reachable() && live > 0 && Consistent()
      modifies this, world
      ensures Reachable() && closes == old(closes) + (if finished then 1 else 0)
      ensures Followed(old(record).body.request, old(Seen()), vs, steps)
      ensures finished ==> live == 0 && record.status == Stopped
      ensures !finished ==> live == old(live) && |steps| > ticks
    {
      hide Reachable, Consistent, Followed;
      ghost var request, b := record.body.request, Seen();
      var repositories, expiries;
      repositories, expiries, vs, steps := Settle(request, b);
      var done := 0;
      while done < ticks && !cancelled
        invariant 0 <= done <= ticks && |steps| > done
        invariant Reachable() && live == old(live) && Consistent() && Followed(request, b, vs, steps)
        invariant closes == old(closes)
        decreases ticks - done
      {
        ghost var mid, trace;
        expiries, vs, steps, mid, trace := TickAndWait(repositories, expiries, request, b, vs, steps);
        var more;
        repositories, more := SetUp();
        done := done + 1;
      }
      finished := cancelled;
      if cancelled {
        vs, steps := Finish(request, b, vs, steps);
      }
    }

    static lemma CampaignBegins(request: Request, v: View)
      ensures CampaignRuns.Campaign(request, [v], [])
    {
    }
  }
}
