/**
 The life of a board campaign as one shared record that Start, Stop, Close and the run goroutine
 change under a mutex. Each event below is one critical section; a run of the controller is any
 sequence of them, so a theorem over all sequences is a theorem over all interleavings.
 */
module CampaignLifecycle {
  import opened Prelude
  import opened CampaignTypes

  /**
   `live` counts run goroutines that have not finalized, `starts` and `closes` count runs begun and
   `done` channels closed; `doneOpen` says whether the current channel may still be closed.
   `cancelSet` is "the cancel function is not nil", `cancelled` is the current context's state.
   */
  datatype Life = Life(
    record: Record, disk: Option<Record>, stateFailed: bool,
    cancelSet: bool, cancelled: bool,
    live: nat, doneOpen: bool, starts: nat, closes: nat)

  /** `wrote` is the result of the state write the event performs, when it performs one. */
  datatype Event =
    | StartCall(body: Body, wrote: bool)
    | StopMark(wrote: bool)
    | Cancel
    | Degrade(text: string, wrote: bool)
    | SetRunning(ready: bool, wrote: bool)
    | SetReconciled(wrote: bool)
    | Update(body: Body, wrote: bool)
    | Finalize(wrote: bool)

  // ---- One critical section -----------------------------------------------------------

  function WithStatus(l: Life, status: Status, detail: Detail): Life {
    l.(record := l.record.(status := status, detail := detail))
  }

  /** A failed write: latch, report, cancel the run. */
  function Halt(l: Life): Life {
    var marked := if IsActive(l.record.status) then WithStatus(l, Degraded, Halted)
                  else WithStatus(l, l.record.status, StoppedStale);
    marked.(stateFailed := true, cancelled := l.cancelled || l.cancelSet)
  }

  function Persist(l: Life, wrote: bool): Life {
    if wrote then l.(disk := Some(l.record)) else Halt(l)
  }

  function CountProviders(providers: seq<ProviderStatus>): (n: nat)
    ensures n <= |providers|
    ensures n == 0 <==> forall p <- providers :: p.health != Unhealthy
  {
    if providers == [] then 0
    else
      var rest := CountProviders(providers[1..]);
      assert providers == [providers[0]] + providers[1..];
      rest + (if providers[0].health == Unhealthy then 1 else 0)
  }

  function CountRepositories(repositories: seq<RepositoryStatus>): (n: nat)
    ensures n <= |repositories|
    ensures n == 0 <==> forall r <- repositories :: r.health != Unhealthy
  {
    if repositories == [] then 0
    else
      var rest := CountRepositories(repositories[1..]);
      assert repositories == [repositories[0]] + repositories[1..];
      rest + (if repositories[0].health == Unhealthy then 1 else 0)
  }

  ghost function DegradedProviders(s: seq<ProviderStatus>): set<int> {
    set k | 0 <= k < |s| && s[k].health == Unhealthy
  }

  ghost function DegradedRepositories(s: seq<RepositoryStatus>): set<int> {
    set k | 0 <= k < |s| && s[k].health == Unhealthy
  }

  /** The numbers count the degraded entries. */
  lemma CountsAre(p: seq<ProviderStatus>, r: seq<RepositoryStatus>)
    ensures CountProviders(p) == |DegradedProviders(p)| && CountRepositories(r) == |DegradedRepositories(r)|
  {
    ProvidersAre(p, |p|);
    RepositoriesAre(r, |r|);
    assert p[..|p|] == p && r[..|r|] == r;
  }

  lemma {:induction false} ProvidersAre(s: seq<ProviderStatus>, n: nat)
    requires n <= |s|
    ensures CountProviders(s[..n]) == |DegradedProviders(s[..n])|
  {
    if n > 0 {
      ProvidersAre(s, n - 1);
      var front, last := s[..n - 1], [s[n - 1]];
      assert s[..n] == front + last;
      ProvidersAdd(front, last);
      assert DegradedProviders(front + last)
             == DegradedProviders(front) + (if last[0].health == Unhealthy then {n - 1} else {});
    }
  }

  lemma {:induction false} RepositoriesAre(s: seq<RepositoryStatus>, n: nat)
    requires n <= |s|
    ensures CountRepositories(s[..n]) == |DegradedRepositories(s[..n])|
  {
    if n > 0 {
      RepositoriesAre(s, n - 1);
      var front, last := s[..n - 1], [s[n - 1]];
      assert s[..n] == front + last;
      RepositoriesAdd(front, last);
      assert DegradedRepositories(front + last)
             == DegradedRepositories(front) + (if last[0].health == Unhealthy then {n - 1} else {});
    }
  }

  /** The numbers add up, entry by entry, and an entry counts exactly when it is degraded. */
  lemma {:induction false} ProvidersAdd(x: seq<ProviderStatus>, y: seq<ProviderStatus>)
    ensures CountProviders(x + y) == CountProviders(x) + CountProviders(y)
    ensures |x| == 1 ==> CountProviders(x) == if x[0].health == Unhealthy then 1 else 0
  {
    if x == [] {
      assert x + y == y;
    } else {
      assert (x + y)[1..] == x[1..] + y;
      ProvidersAdd(x[1..], y);
    }
  }

  lemma {:induction false} RepositoriesAdd(x: seq<RepositoryStatus>, y: seq<RepositoryStatus>)
    ensures CountRepositories(x + y) == CountRepositories(x) + CountRepositories(y)
    ensures |x| == 1 ==> CountRepositories(x) == if x[0].health == Unhealthy then 1 else 0
  {
    if x == [] {
      assert x + y == y;
    } else {
      assert (x + y)[1..] == x[1..] + y;
      RepositoriesAdd(x[1..], y);
    }
  }

  function ReconciledDetail(body: Body): Detail {
    var p, r := CountProviders(body.providers), CountRepositories(body.repositories);
    if p == 0 && r == 0 then Reconciling else Blocked(p, r)
  }

  function Step(l: Life, e: Event): Life {
    match e
    case StartCall(body, wrote) =>
      if IsActive(l.record.status) then l
      else
        var begun := l.(record := Record(Starting, Preparing, body));
        if !wrote then begun
        else begun.(disk := Some(begun.record), stateFailed := false, cancelSet := true, cancelled := false,
                    live := l.live + 1, doneOpen := true, starts := l.starts + 1)
    case StopMark(wrote) =>
      if !IsActive(l.record.status) then l
      else
        var marked := WithStatus(l, Stopping, StopRequested);
        if wrote then marked.(disk := Some(marked.record)) else marked
    case Cancel => l.(cancelled := l.cancelled || l.cancelSet)
    case Degrade(text, wrote) => Persist(WithStatus(l, Degraded, Reported(text)), wrote)
    case SetRunning(ready, wrote) =>
      if l.record.status == Stopping then l
      else if ready then Persist(WithStatus(l, Running, Reconciling), wrote)
      else Persist(WithStatus(l, Degraded, NoReadyPair), wrote)
    case SetReconciled(wrote) =>
      if l.record.status == Stopping then l
      else
        var detail := ReconciledDetail(l.record.body);
        Persist(WithStatus(l, if detail == Reconciling then Running else Degraded, detail), wrote)
    case Update(body, wrote) => Persist(l.(record := l.record.(body := body)), wrote)
    case Finalize(wrote) =>
      var stopped := WithStatus(l, Stopped, if l.stateFailed then StoppedStale else StoppedCleanly);
      var written := Persist(stopped, wrote);
      written.(cancelSet := false, doneOpen := false, live := if l.live > 0 then l.live - 1 else 0,
               closes := l.closes + 1)
  }

  predicate RunSide(e: Event) {
    e.Degrade? || e.SetRunning? || e.SetReconciled? || e.Update? || e.Finalize?
  }

  /** Run-side events need a live run; a run finalizes only after its context is done. */
  predicate Enabled(l: Life, e: Event) {
    && (RunSide(e) ==> l.live > 0)
    && (e.Finalize? ==> l.cancelled)
  }

  function Replay(origin: Life, events: seq<Event>): Life
    decreases |events|
  {
    if events == [] then origin else Step(Replay(origin, Front(events)), Last(events))
  }

  ghost predicate Possible(origin: Life, events: seq<Event>)
    decreases |events|
  {
    events == [] || (Possible(origin, Front(events)) && Enabled(Replay(origin, Front(events)), Last(events)))
  }

  /** What New builds from the state file: an active record becomes interrupted, and must persist. */
  function Opened(disk: Option<Record>, blank: Body): Life {
    var record :=
      match disk
      case None => Record(NeverRun, NoCampaignYet, blank)
      case Some(r) => if IsActive(r.status) then Record(Stopped, Interrupted, r.body) else r;
    Life(record, if disk.Some? && IsActive(disk.value.status) then Some(record) else disk,
         false, false, false, 0, false, 0, 0)
  }

  // ---- At most one run ----------------------------------------------------------------

  ghost predicate Sound(l: Life) {
    && l.live <= 1
    && (l.live == 1 ==> IsActive(l.record.status) && l.cancelSet && l.doneOpen)
    && (l.live == 0 ==> !l.cancelSet && !l.doneOpen)
    && (l.live == 1 && l.stateFailed ==> l.cancelled)
    && l.closes + l.live == l.starts
  }

  lemma StepKeepsSound(l: Life, e: Event)
    requires Sound(l) && Enabled(l, e)
    ensures Sound(Step(l, e))
  {
  }

  /** One more possible event keeps a history possible, and its state is one step further. */
  lemma Extend(origin: Life, events: seq<Event>, e: Event, after: Life)
    requires Possible(origin, events) && Sound(Replay(origin, events)) && Enabled(Replay(origin, events), e)
    requires after == Step(Replay(origin, events), e)
    ensures Possible(origin, events + [e]) && Replay(origin, events + [e]) == after && Sound(after)
  {
    assert Front(events + [e]) == events && Last(events + [e]) == e;
    StepKeepsSound(Replay(origin, events), e);
  }

  /**
   In every interleaving: at most one run is alive, a live run's record is active, every run closes
   `done` exactly once, and no channel is closed twice (a finalizing run always finds it open).
   */
  lemma {:induction false} AtMostOneRun(disk: Option<Record>, blank: Body, events: seq<Event>)
    requires Possible(Opened(disk, blank), events)
    ensures Sound(Replay(Opened(disk, blank), events))
    decreases |events|
  {
    if events != [] {
      AtMostOneRun(disk, blank, Front(events));
      StepKeepsSound(Replay(Opened(disk, blank), Front(events)), Last(events));
    }
  }

  // ---- The final detail tells the truth -------------------------------------------------

  /** The event replaced the record and began a run. */
  predicate BeginsRun(l: Life, e: Event) {
    e.StartCall? && !IsActive(l.record.status) && e.wrote
  }

  /** The event attempted a checked post-start write and the write failed. */
  predicate LosesWrite(l: Life, e: Event) {
    match e
    case Degrade(_, wrote) => !wrote
    case Update(_, wrote) => !wrote
    case Finalize(wrote) => !wrote
    case SetRunning(_, wrote) => !wrote && l.record.status != Stopping
    case SetReconciled(wrote) => !wrote && l.record.status != Stopping
    case _ => false
  }

  /** Some checked write of the latest run failed. */
  ghost predicate LostAWrite(origin: Life, events: seq<Event>)
    decreases |events|
  {
    events != [] &&
    var before := Replay(origin, Front(events));
    if BeginsRun(before, Last(events)) then false
    else LosesWrite(before, Last(events)) || LostAWrite(origin, Front(events))
  }

  /** The latest accepted Start lost its own first write. */
  ghost predicate StartWriteFailed(origin: Life, events: seq<Event>)
    decreases |events|
  {
    events != [] &&
    var before := Replay(origin, Front(events));
    if Last(events).StartCall? && !IsActive(before.record.status) then !Last(events).wrote
    else StartWriteFailed(origin, Front(events))
  }

  lemma LatchStep(l: Life, e: Event)
    ensures Step(l, e).stateFailed <==> !BeginsRun(l, e) && (LosesWrite(l, e) || l.stateFailed)
  {
  }

  /** The halt latch is exactly the history "this run lost a write"; a fresh start clears it. */
  lemma {:induction false} LatchIsLostWrite(disk: Option<Record>, blank: Body, events: seq<Event>)
    requires Possible(Opened(disk, blank), events)
    ensures Replay(Opened(disk, blank), events).stateFailed <==> LostAWrite(Opened(disk, blank), events)
    decreases |events|
  {
    if events != [] {
      LatchIsLostWrite(disk, blank, Front(events));
      LatchStep(Replay(Opened(disk, blank), Front(events)), Last(events));
    }
  }

  /**
   A record is active exactly when its run is alive, or when the latest accepted Start failed its
   first write: that one path leaves `starting` behind with no run to ever finish it.
   */
  lemma {:induction false} ActiveExactlyWhenRunningOrOrphaned(disk: Option<Record>, blank: Body, events: seq<Event>)
    requires Possible(Opened(disk, blank), events)
    ensures var l := Replay(Opened(disk, blank), events);
            IsActive(l.record.status) <==> l.live == 1 || StartWriteFailed(Opened(disk, blank), events)
    decreases |events|
  {
    if events != [] {
      hide Step, Sound, Enabled;
      AtMostOneRun(disk, blank, Front(events));
      ActiveExactlyWhenRunningOrOrphaned(disk, blank, Front(events));
      OrphanHasNoRun(disk, blank, Front(events));
      ActiveStep(Replay(Opened(disk, blank), Front(events)), Last(events),
                 StartWriteFailed(Opened(disk, blank), Front(events)));
    }
  }

  lemma ActiveStep(l: Life, e: Event, orphan: bool)
    requires Sound(l) && Enabled(l, e) && (orphan ==> l.live == 0)
    requires IsActive(l.record.status) <==> l.live == 1 || orphan
    ensures var after := Step(l, e);
            IsActive(after.record.status) <==>
              after.live == 1 || (if e.StartCall? && !IsActive(l.record.status) then !e.wrote else orphan)
  {
  }

  lemma {:induction false} OrphanHasNoRun(disk: Option<Record>, blank: Body, events: seq<Event>)
    requires Possible(Opened(disk, blank), events)
    ensures StartWriteFailed(Opened(disk, blank), events) ==>
              var l := Replay(Opened(disk, blank), events);
              l.live == 0 && IsActive(l.record.status)
    decreases |events|
  {
    if events != [] {
      AtMostOneRun(disk, blank, Front(events));
      OrphanHasNoRun(disk, blank, Front(events));
      OrphanOrRun(disk, blank, Front(events));
    }
  }

  lemma {:induction false} OrphanOrRun(disk: Option<Record>, blank: Body, events: seq<Event>)
    requires Possible(Opened(disk, blank), events)
    ensures var l := Replay(Opened(disk, blank), events);
            !IsActive(l.record.status) ==> l.live == 0
    decreases |events|
  {
    AtMostOneRun(disk, blank, events);
  }

  /** An orphaned record is for ever: whatever is called, no run begins until the process restarts. */
  lemma {:induction false} OrphanedStartIsFinal(disk: Option<Record>, blank: Body, events: seq<Event>, more: seq<Event>)
    requires Possible(Opened(disk, blank), events + more)
    requires StartWriteFailed(Opened(disk, blank), events)
    ensures var l := Replay(Opened(disk, blank), events + more);
            IsActive(l.record.status) && l.live == 0 && l.starts == Replay(Opened(disk, blank), events).starts
    decreases |more|
  {
    if more == [] {
      assert events + more == events;
      OrphanHasNoRun(disk, blank, events);
    } else {
      assert Front(events + more) == events + Front(more);
      OrphanedStartIsFinal(disk, blank, events, Front(more));
      assert Last(events + more) == Last(more);
    }
  }

  /**
   Once a run has finalized, and until a next one begins, the stopped record reports the stale-state
   reason exactly when some checked write of that run failed, its last one included.
   */
  lemma {:induction false} StoppedDetailIsTruthful(disk: Option<Record>, blank: Body, events: seq<Event>)
    requires Possible(Opened(disk, blank), events)
    requires Replay(Opened(disk, blank), events).closes > 0
    requires Replay(Opened(disk, blank), events).record.status == Stopped
    ensures var l := Replay(Opened(disk, blank), events);
            l.record.detail == (if LostAWrite(Opened(disk, blank), events) then StoppedStale else StoppedCleanly)
    decreases |events|
  {
    hide Step, Sound, Enabled;
    var before := Replay(Opened(disk, blank), Front(events));
    AtMostOneRun(disk, blank, Front(events));
    LatchIsLostWrite(disk, blank, events);
    LatchIsLostWrite(disk, blank, Front(events));
    DetailStep(before, Last(events));
    if !Last(events).Finalize? {
      StoppedDetailIsTruthful(disk, blank, Front(events));
    }
  }

  lemma DetailStep(l: Life, e: Event)
    requires Sound(l) && Enabled(l, e) && Step(l, e).closes > 0 && Step(l, e).record.status == Stopped
    ensures var after := Step(l, e);
            if e.Finalize? then after.record.detail == (if after.stateFailed then StoppedStale else StoppedCleanly)
            else l.closes > 0 && l.record == after.record && l.stateFailed == after.stateFailed
  {
  }

  /**
   Finalizing always leaves Stopped, whatever the writes did; and the state file holds that record
   exactly when the final write succeeded.
   */
  lemma FinalizeStops(l: Life, wrote: bool)
    requires Sound(l) && Enabled(l, Finalize(wrote))
    ensures var after := Step(l, Finalize(wrote));
            && after.record.status == Stopped && after.live == 0 && after.closes == l.closes + 1
            && (after.record.detail == StoppedStale <==> l.stateFailed || !wrote)
            && (wrote ==> after.disk == Some(after.record))
            && (!wrote ==> after.disk == l.disk)
  {
  }

  /**
   In every interleaving: a run that finalizes leaves a stopped record and no run, and the state file holds
   that record exactly when the final write succeeded; otherwise it still holds what was there before.
   */
  lemma EveryFinalizeStops(disk: Option<Record>, blank: Body, events: seq<Event>, wrote: bool)
    requires Possible(Opened(disk, blank), events + [Finalize(wrote)])
    ensures var before, after := Replay(Opened(disk, blank), events),
            Replay(Opened(disk, blank), events + [Finalize(wrote)]);
            && after.record.status == Stopped && after.live == 0 && after.closes == before.closes + 1
            && after.disk == (if wrote then Some(after.record) else before.disk)
            && (after.record.detail == StoppedStale <==> LostAWrite(Opened(disk, blank), events + [Finalize(wrote)]))
  {
    var all := events + [Finalize(wrote)];
    assert Front(all) == events && Last(all) == Finalize(wrote);
    AtMostOneRun(disk, blank, events);
    LatchIsLostWrite(disk, blank, all);
    LatchIsLostWrite(disk, blank, events);
    FinalizeStops(Replay(Opened(disk, blank), events), wrote);
  }

  // ---- Restart --------------------------------------------------------------------------

  /**
   Whatever the state file holds when a process opens it, so wherever its predecessor died: it begins sound
   and idle on the configuration it finds, an active record reads as interrupted, and the first Start is
   accepted.
   */
  lemma AnyCrashReopensIdle(disk: Option<Record>, blank: Body, body: Body)
    ensures var reopened := Opened(disk, blank);
            && Sound(reopened) && reopened.live == 0 && !IsActive(reopened.record.status)
            && reopened.disk == (if disk.Some? then Some(reopened.record) else None)
            && (disk.None? ==> reopened.record == Record(NeverRun, NoCampaignYet, blank))
            && (disk.Some? && !IsActive(disk.value.status) ==> reopened.record == disk.value)
            && (disk.Some? && IsActive(disk.value.status) ==>
                  reopened.record == Record(Stopped, Interrupted, disk.value.body))
            && Possible(reopened, [StartCall(body, true)]) && Replay(reopened, [StartCall(body, true)]).live == 1
  {
    var reopened := Opened(disk, blank);
    assert Front([StartCall(body, true)]) == [];
    assert Possible(reopened, []) && Replay(reopened, []) == reopened;
  }

  // ---- What a live run's status says --------------------------------------------------------

  /** Some provider or repository is degraded. */
  predicate SomethingBlocked(body: Body) {
    (exists p <- body.providers :: p.health == Unhealthy) || (exists r <- body.repositories :: r.health == Unhealthy)
  }

  /** The event ends whatever was said of the run before: an accepted Start, a Degrade, a lost write, the end. */
  predicate Overrides(l: Life, e: Event) {
    (e.StartCall? && !IsActive(l.record.status)) || e.Degrade? || e.Finalize? || LosesWrite(l, e)
  }

  /** Since the last stop mark there was no degrade and no lost write. */
  ghost predicate StopStands(origin: Life, events: seq<Event>)
    decreases |events|
  {
    events != [] &&
    var before, e := Replay(origin, Front(events)), Last(events);
    (e.StopMark? && IsActive(before.record.status)) || (!Overrides(before, e) && StopStands(origin, Front(events)))
  }

  /** The last word on the run, updates of its body aside, is that it reconciles with nothing in its way. */
  ghost predicate GoesOn(origin: Life, events: seq<Event>)
    decreases |events|
  {
    events != [] &&
    var before, e := Replay(origin, Front(events)), Last(events);
    !Overrides(before, e) && !(e.StopMark? && IsActive(before.record.status))
    && (if e.SetRunning? && !StopStands(origin, Front(events)) then e.ready
        else if e.SetReconciled? && !StopStands(origin, Front(events)) then !SomethingBlocked(before.record.body)
        else GoesOn(origin, Front(events)))
  }

  /** Nothing has been said of the run since it began. */
  ghost predicate NothingSaid(origin: Life, events: seq<Event>)
    decreases |events|
  {
    events != [] &&
    var before, e := Replay(origin, Front(events)), Last(events);
    BeginsRun(before, e)
    || (!Overrides(before, e) && !e.StopMark? && !e.SetRunning? && !e.SetReconciled?
        && NothingSaid(origin, Front(events)))
  }

  lemma StatusStep(l: Life, e: Event, stops: bool, goes: bool, silent: bool)
    requires Sound(l) && Enabled(l, e)
    requires l.live == 1 ==>
               && (l.record.status == Stopping <==> stops) && (l.record.status == Running <==> goes)
               && (l.record.status == Starting <==> silent)
    requires l.record.status == Stopping ==> l.record.detail == StopRequested
    ensures var a, marked := Step(l, e), e.StopMark? && IsActive(l.record.status);
            && (a.record.status == Stopping ==> a.record.detail == StopRequested)
            && (a.live == 1 ==>
                  && (a.record.status == Stopping <==> marked || (!Overrides(l, e) && stops))
                  && (a.record.status == Running <==>
                        && !Overrides(l, e) && !marked
                        && (if e.SetRunning? && !stops then e.ready
                            else if e.SetReconciled? && !stops then !SomethingBlocked(l.record.body)
                            else goes))
                  && (a.record.status == Starting <==>
                        BeginsRun(l, e)
                        || (!Overrides(l, e) && !e.StopMark? && !e.SetRunning? && !e.SetReconciled? && silent)))
  {
  }

  /**
   What the status of a live run says, in every interleaving: `stopping` exactly while a stop mark stands,
   so that no status update can take it back; `running` exactly while the last word was that nothing is in
   the way; `starting` until anything is said; and otherwise it is degraded.
   */
  lemma {:induction false} StatusTellsExactly(disk: Option<Record>, blank: Body, events: seq<Event>)
    requires Possible(Opened(disk, blank), events)
    ensures var l, o := Replay(Opened(disk, blank), events), Opened(disk, blank);
            && (l.record.status == Stopping ==> l.record.detail == StopRequested)
            && (l.live == 1 ==>
                  && (l.record.status == Stopping <==> StopStands(o, events))
                  && (l.record.status == Running <==> GoesOn(o, events))
                  && (l.record.status == Starting <==> NothingSaid(o, events)))
    decreases |events|
  {
    if events != [] {
      hide Step, Sound, Enabled, Overrides, BeginsRun, SomethingBlocked;
      var o := Opened(disk, blank);
      AtMostOneRun(disk, blank, Front(events));
      StatusTellsExactly(disk, blank, Front(events));
      StatusStep(Replay(o, Front(events)), Last(events), StopStands(o, Front(events)), GoesOn(o, Front(events)),
                 NothingSaid(o, Front(events)));
    }
  }

  // ---- Where the code falls short of its own contract ------------------------------------

  /** The event writes a status of its own over whatever was reported. */
  predicate ReportsAnew(l: Life, e: Event) {
    match e
    case StartCall(_, _) => !IsActive(l.record.status)
    case StopMark(_) => IsActive(l.record.status)
    case Degrade(_, wrote) => wrote
    case SetRunning(_, wrote) => wrote && l.record.status != Stopping
    case SetReconciled(wrote) => wrote && l.record.status != Stopping
    case Finalize(_) => true
    case _ => false
  }

  /** The last lost write has not been reported over since. */
  ghost predicate HaltReported(origin: Life, events: seq<Event>)
    decreases |events|
  {
    events != [] &&
    var before, e := Replay(origin, Front(events)), Last(events);
    if LosesWrite(before, e) then !e.Finalize?
    else !ReportsAnew(before, e) && HaltReported(origin, Front(events))
  }

  /**
   A live run reports that it halted exactly while nothing was reported after its last lost write: a stop
   mark, a successful degrade, or a successful status update outside `stopping` takes the reason away,
   though the writes are still lost and the run is over.
   */
  lemma {:induction false} HaltedIsReportedExactlyWhen(disk: Option<Record>, blank: Body, events: seq<Event>)
    requires Possible(Opened(disk, blank), events)
    ensures var l := Replay(Opened(disk, blank), events);
            l.live == 1 ==> (l.record.detail == Halted <==> HaltReported(Opened(disk, blank), events))
    decreases |events|
  {
    if events != [] {
      hide Step, Sound, Enabled, LosesWrite, ReportsAnew;
      AtMostOneRun(disk, blank, Front(events));
      HaltedIsReportedExactlyWhen(disk, blank, Front(events));
      ReportStep(Replay(Opened(disk, blank), Front(events)), Last(events),
                 HaltReported(Opened(disk, blank), Front(events)));
    }
  }

  lemma ReportStep(l: Life, e: Event, reported: bool)
    requires Sound(l) && Enabled(l, e) && (l.live == 1 ==> (l.record.detail == Halted <==> reported))
    ensures var after := Step(l, e);
            after.live == 1 ==>
              (after.record.detail == Halted <==>
                 if LosesWrite(l, e) then !e.Finalize? else !ReportsAnew(l, e) && reported)
  {
  }

  function SampleBody(): Body {
    var lane := Lane("codex", "snowcat", 1);
    Body("campaign-1", Request("host", "", 30, lane, lane, lane), [], [], [], 0)
  }

  /** A concrete run in which a halted campaign reports `running`. */
  lemma HaltedReasonCanBeOverwritten()
    ensures exists events ::
              && Possible(Opened(None, SampleBody()), events)
              && var l := Replay(Opened(None, SampleBody()), events);
              l.live == 1 && l.stateFailed && l.record.status == Running && l.record.detail == Reconciling
  {
    var o := Opened(None, SampleBody());
    var e0, e1, e2 := StartCall(SampleBody(), true), Update(SampleBody(), false), SetReconciled(true);
    var s0, s1, s2 := [e0], [e0, e1], [e0, e1, e2];
    assert Front(s2) == s1 && Front(s1) == s0 && Front(s0) == [];
    assert Replay(o, s0) == Step(o, e0);
    assert Replay(o, s1) == Step(Step(o, e0), e1);
    assert Replay(o, s2) == Step(Replay(o, s1), e2);
    assert Possible(o, []) && Replay(o, []) == o;
    assert Possible(o, s0);
    assert Possible(o, s1);
    assert Possible(o, s2);
  }

  /** A concrete orphan: Start loses its first write, and the next one is turned away though nothing runs. */
  lemma StartCanBeOrphaned()
    ensures var o, events := Opened(None, SampleBody()), [StartCall(SampleBody(), false),
                                                          StartCall(SampleBody(), true)];
            && Possible(o, events) && StartWriteFailed(o, events)
            && var l := Replay(o, events);
            l.record.status == Starting && l.live == 0 && l.starts == 0 && l.disk == None
  {
    var o, e0, e1 := Opened(None, SampleBody()), StartCall(SampleBody(), false), StartCall(SampleBody(), true);
    var s0, s1 := [e0], [e0, e1];
    assert Front(s1) == s0 && Front(s0) == [];
    assert Possible(o, []) && Replay(o, []) == o;
    assert Possible(o, s0) && Replay(o, s0) == Step(o, e0) && StartWriteFailed(o, s0);
    assert Possible(o, s1) && Replay(o, s1) == Step(Step(o, e0), e1);
  }
}
