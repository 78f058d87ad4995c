/**
 What one tick did, step by step: the questions it asked and the answers it got, and how probes,
 cleanup candidates and the record follow from them.
 */
module CampaignTick {
  import opened Prelude
  import opened CampaignTypes
  import opened CampaignRuns
  import opened CampaignTracking
  import opened CampaignLaunch
  import opened CampaignPreflight
  import NameOrder

  datatype Trace = Trace(
    actual: map<WorkerId, Worker>,       // the workers when the inventory was taken
    listed: map<WorkerId, Worker>,       // the inventory
    exits: seq<Exit>,                    // probed workers it showed as ended
    pending: seq<WorkerId>,              // workers to be asked about for a first claim
    asked: seq<Question>,
    observed: seq<QueueAnswer>,
    answers: Answers,                    // the exits' correlations
    eligible: map<WorkerId, int>,        // cleanup candidates when the sweep began
    at: int,
    due: seq<WorkerId>,
    cleaned: seq<bool>,
    adjusted: map<Repo, Claimable>,      // the observed counts less the reservations
    blocked: set<Role>,
    eligiblePairs: set<Pair>,            // pairs with an unblocked role that has work left
    known: map<Pair, int>,               // the proofs at hand
    proved: seq<ProofAnswer>,            // the refreshes asked for, with their answers
    ready: set<Pair>,
    opening: Scene,                      // when the launch loops began
    closing: Scene,                      // and ended
    started: seq<Started>)
  {
    function Input(): TickInput { TickInput(actual, listed, Tally(observed)) }

    /** This trace with the stages from the blocked roles on filled in. */
    function WithDispatch(t: Trace): Trace {
      this.(blocked := t.blocked, eligiblePairs := t.eligiblePairs, known := t.known, proved := t.proved,
            ready := t.ready, opening := t.opening, closing := t.closing, started := t.started)
    }

    /** What its preflights went by, given the delays. */
    function Preflights(request: Request, repositories: seq<Managed>, backoff: map<BackoffKey, int>): Preflight {
      Preflight(request, blocked, eligiblePairs, repositories != [], known, backoff)
    }
  }

  /** What the steps of a tick change, besides the workers themselves. */
  datatype Account = Account(
    probes: map<WorkerId, Probe>, candidates: map<WorkerId, int>, calls: seq<Call>, proofs: seq<ProofAnswer>,
    cleaned: nat, ids: seq<WorkerId>)

  /** A prefix of the pending workers was asked about, all of them unless the run is done. */
  ghost predicate AskedOf(pending: seq<WorkerId>, asked: seq<Question>, done: bool) {
    && |asked| <= |pending| && (|asked| < |pending| ==> done)
    && forall k :: 0 <= k < |asked| ==> asked[k].worker == pending[k]
  }

  /** A prefix of the repositories was observed, all of them unless the run is done. */
  ghost predicate ObservedOf(repositories: seq<Managed>, observed: seq<QueueAnswer>, done: bool) {
    && |observed| <= |repositories| && (|observed| < |repositories| ==> done)
    && forall k :: 0 <= k < |observed| ==> observed[k].repository == repositories[k].repository
  }

  /** First: probes inspected, pending claims confirmed, then queues observed. */
  ghost predicate Surveyed(b: Account, a: Account, t: Trace, repositories: seq<Managed>, done: bool) {
    var inspected := Inspected(b.probes, t.listed);
    && ExitsOf(t.exits, b.probes, t.listed)
    && NameOrder.Ascending(t.pending)
    && NameOrder.SameMembers(t.pending, Unconfirmed(inspected, set e <- t.exits :: e.worker))
    && AskedOf(t.pending, t.asked, done) && ObservedOf(repositories, t.observed, done)
    && a == b.(probes := Confirmed(inspected, Matched(t.asked)),
               calls := b.calls + Correlations(t.asked) + Observations(t.observed))
  }

  /** Then: every exit correlated once and acted on, and the due workspaces cleaned. */
  ghost predicate Concluded(b: Account, a: Account, t: Trace, retain: Retention, done: bool) {
    && |t.answers| == |t.exits|
    && t.eligible.Keys == b.candidates.Keys + Marked(t.exits, t.answers)
    && (forall id <- b.candidates :: t.eligible[id] == b.candidates[id])
    && (if retain.configured then Due(retain, t.eligible, t.at, t.due) else t.due == [])
    && |t.cleaned| <= |t.due| && (|t.cleaned| < |t.due| ==> done)
    && var handled := t.due[..|t.cleaned|];
    a == b.(probes := b.probes - Forgotten(t.exits, t.answers),
            candidates := t.eligible - Removed(handled, t.cleaned),
            calls := b.calls + Correlations(Asked(t.exits, t.answers)) + Cleanings(handled),
            cleaned := b.cleaned + |Removed(handled, t.cleaned)|)
  }

  /** What handling the exits does to the account. */
  ghost predicate ExitsAccounted(b: Account, m: Account, exits: seq<Exit>, answers: Answers) {
    && |answers| == |exits|
    && m == b.(probes := b.probes - Forgotten(exits, answers), candidates := m.candidates,
               calls := b.calls + Correlations(Asked(exits, answers)))
    && m.candidates.Keys == b.candidates.Keys + Marked(exits, answers)
    && (forall id <- b.candidates :: m.candidates[id] == b.candidates[id])
  }

  /** What the sweep does to it, at time `at`. */
  ghost predicate SweepAccounted(m: Account, a: Account, at: int, due: seq<WorkerId>, cleaned: seq<bool>,
                                 retain: Retention, done: bool) {
    && (if retain.configured then Due(retain, m.candidates, at, due) else due == [])
    && |cleaned| <= |due| && (|cleaned| < |due| ==> done)
    && var handled := due[..|cleaned|];
    a == m.(candidates := m.candidates - Removed(handled, cleaned), calls := m.calls + Cleanings(handled),
            cleaned := m.cleaned + |Removed(handled, cleaned)|)
  }

  lemma ExitsThenSweep(b: Account, m: Account, a: Account, t: Trace, retain: Retention, done: bool)
    requires ExitsAccounted(b, m, t.exits, t.answers) && t.eligible == m.candidates
    requires SweepAccounted(m, a, t.at, t.due, t.cleaned, retain, done)
    ensures Concluded(b, a, t, retain, done)
  {
  }

  /** Last: from what the reservations leave, launches; every started worker has a probe and is on the record. */
  ghost predicate Dispatched(b: Account, a: Account, t: Trace) {
    && Reserving(Tally(t.observed), t.adjusted, b.probes)
    && a == b.(probes := Probed(b.probes, t.started), ids := b.ids + Ids(t.started), proofs := b.proofs + t.proved)
  }

  /** The whole tick, none of its steps left out. */
  ghost predicate Accounted(b: Account, a: Account, t: Trace, repositories: seq<Managed>, retain: Retention,
                            done: bool) {
    exists surveyed, concluded ::
      && Surveyed(b, surveyed, t, repositories, done)
      && Concluded(surveyed, concluded, t, retain, done)
      && Dispatched(concluded, a, t)
  }

  /**
   Which roles are blocked, and which lanes hold back when the launch loops begin. A lane that failed in this
   tick is both for a full retry delay; an earlier failure blocks until its time is up, and no longer.
   */
  ghost predicate Blocking(failures: map<LaneKey, LaneFailure>, failures': map<LaneKey, LaneFailure>,
                           backoff: map<BackoffKey, int>, t: Trace, since: int, now: int) {
    && |t.exits| == |t.answers|
    && var failed := FailedLanes(t.exits, t.answers);
    && t.blocked == RolesOf(failures'.Keys + PausedLanes(t.exits, t.answers))
    && failures'.Keys <= failures.Keys + failed
    && (forall lane <- failures' :: failures'[lane].retryAt > since)
    && (forall lane <- failures :: lane !in failed && failures[lane].retryAt > now ==> lane in failures')
    && (forall lane <- failed :: now < since + RETRY_DELAY ==> lane in failures')
    && (forall lane <- failed :: var key := LaunchBackoff(lane);
          key in t.opening.backoff && t.opening.backoff[key] >= since + RETRY_DELAY)
    && (forall lane: LaneKey :: lane !in failed ==> SameLane(backoff, t.opening.backoff, lane))
  }

  lemma FailingSince(f0: map<LaneKey, LaneFailure>, f1: map<LaneKey, LaneFailure>,
                     b0: map<BackoffKey, int>, b1: map<BackoffKey, int>, failed: set<LaneKey>, since: int, earlier: int)
    requires Failing(f0, f1, b0, b1, failed, since) && earlier <= since
    ensures Failing(f0, f1, b0, b1, failed, earlier)
  {
  }

  lemma BlockingFollows(f0: map<LaneKey, LaneFailure>, f1: map<LaneKey, LaneFailure>, f2: map<LaneKey, LaneFailure>,
                        b0: map<BackoffKey, int>, b1: map<BackoffKey, int>, t: Trace, since: int, at: int, now: int)
    requires |t.exits| == |t.answers| && since <= at <= now
    requires Failing(f0, f1, b0, b1, FailedLanes(t.exits, t.answers), since)
    requires f2 == Unexpired(f1, at) && t.blocked == RolesOf(f2.Keys + PausedLanes(t.exits, t.answers))
    requires forall lane: LaneKey :: SameLane(b1, t.opening.backoff, lane)
    ensures Blocking(f0, f2, b0, t, since, now)
  {
    hide FailedLanes, PausedLanes, RolesOf;
    var failed := FailedLanes(t.exits, t.answers);
    forall lane: LaneKey | lane !in failed ensures SameLane(b0, t.opening.backoff, lane) {
      assert SameLane(b0, b1, lane) && SameLane(b1, t.opening.backoff, lane);
    }
    forall lane <- failed ensures LaunchBackoff(lane) in t.opening.backoff
                                  && t.opening.backoff[LaunchBackoff(lane)] >= since + RETRY_DELAY {
      assert SameLane(b1, t.opening.backoff, lane);
    }
  }

  // ---- The stages of a tick ------------------------------------------------------------------------

  /** All of the controller and its surroundings that a tick is about, at one moment. */
  datatype Moment = Moment(
    view: View, scene: Scene, account: Account, failures: map<LaneKey, LaneFailure>, request: Request)

  /** The inventory was taken `n`ow; since `b` nothing but the workers and the clock moved. */
  ghost predicate Begun(b: Moment, n: Moment, listed: map<WorkerId, Worker>) {
    && Tracked(b.view) && !b.view.done
    && n.view.own == b.view.own && n.view.attempts == b.view.attempts
    && Drifted(b.view.workers, b.view.claimed, n.view.workers, n.view.claimed)
    && Reports(n.view.workers, listed)
    && n.view.misreported == b.view.misreported + Misreported(n.view.workers, listed)
    && n.account == b.account && n.failures == b.failures && n.request == b.request
    && n.scene.backoff == b.scene.backoff && b.scene.clock <= n.scene.clock
  }

  /** The state in which reservations are counted and the lanes' counts adjusted. */
  ghost predicate Halfway(b: Moment, mid: Moment, surveyed: Account, t: Trace, repositories: seq<Managed>,
                          retain: Retention) {
    && Tracked(b.view) && Tracked(mid.view) && Stabilised(mid.view)
    && mid.view.own == b.view.own && mid.view.attempts == b.view.attempts && !b.view.done
    && Drifted(b.view.workers, {}, t.actual, {}) && Drifted(t.actual, {}, mid.view.workers, {})
    && Drifted(b.view.workers, b.view.claimed, mid.view.workers, mid.view.claimed)
    && Reports(t.actual, t.listed) && mid.view.misreported == b.view.misreported + Misreported(t.actual, t.listed)
    && Surveyed(b.account, surveyed, t, repositories, mid.view.done)
    && Concluded(surveyed, mid.account, t, retain, mid.view.done)
    && Reserving(Tally(t.observed), t.adjusted, mid.view.probes) && mid.account.probes == mid.view.probes
    && |t.exits| == |t.answers|
    && Failing(b.failures, mid.failures, b.scene.backoff, mid.scene.backoff, FailedLanes(t.exits, t.answers),
               b.scene.clock)
    && b.scene.clock <= mid.scene.clock && mid.request == b.request
  }

  /** Roles blocked, pairs proved and lanes launched since `mid`. */
  ghost predicate Sent(mid: Moment, a: Moment, t: Trace, repositories: seq<Managed>) {
    && |t.exits| == |t.answers|
    && a.failures == Unexpired(mid.failures, mid.scene.clock)
    && t.blocked == RolesOf(a.failures.Keys + PausedLanes(t.exits, t.answers))
    && EligibleFor(mid.request, t.blocked, t.adjusted, t.eligiblePairs)
    && ReadyFor(t.Preflights(mid.request, repositories, mid.scene.backoff), LAUNCHABLE_ROLES,
                mid.scene.clock, t.opening.clock, t.proved, t.ready)
    && Delays(mid.scene.backoff, t.proved, t.opening.backoff, mid.scene.clock)
    && Drifted(mid.scene.workers, {}, t.opening.workers, {}) && mid.scene.clock <= t.opening.clock
    && t.opening == mid.scene.(workers := t.opening.workers, clock := t.opening.clock, backoff := t.opening.backoff,
                               done := t.opening.done)
    && (mid.scene.done ==> t.opening.done)
    && Launching(t.opening, t.closing, mid.request, t.blocked, t.ready, t.adjusted, t.listed, t.started,
                 Names(repositories))
    && a.scene == t.closing.(done := a.scene.done) && (t.closing.done ==> a.scene.done)
    && a.account == mid.account.(probes := a.scene.probes, ids := a.scene.ids, cleaned := a.scene.tidied,
                                 proofs := mid.account.proofs + t.proved)
    && Drifted(mid.view.workers, mid.view.claimed, a.view.workers, a.view.claimed)
    && a.view.misreported == mid.view.misreported
    && Tracked(a.view) && CleansOnlySettled(a.view)
  }

  /** The pairs whose refresh failed wait for a full retry delay. */
  ghost predicate PairsHeldBack(proved: seq<ProofAnswer>, backoff: map<BackoffKey, int>, since: int) {
    forall a <- proved :: a.expiresAt.None? ==>
      PreflightBackoff(a.pair) in backoff && backoff[PreflightBackoff(a.pair)] >= since + RETRY_DELAY
  }

  /** A moment's parts are views of one state. */
  ghost predicate Coherent(m: Moment) {
    && m.scene.own == m.view.own && m.scene.workers == m.view.workers && m.scene.attempts == m.view.attempts
    && m.scene.done == m.view.done && m.scene.probes == m.view.probes
    && m.account.probes == m.scene.probes && m.account.ids == m.scene.ids && m.account.cleaned == m.scene.tidied
  }

  /**
   All of a tick: every step on account, the roles blocked by their failed and paused lanes, the pairs
   ready by a lasting proof or a refresh that was due, and the launches decided by these pairs, capacities
   and what the reservations leave.
   */
  ghost predicate TickTraced(b: Moment, a: Moment, t: Trace, repositories: seq<Managed>, retain: Retention) {
    && Accounted(b.account, a.account, t, repositories, retain, a.view.done)
    && Blocking(b.failures, a.failures, b.scene.backoff, t, b.scene.clock, a.scene.clock)
    && EligibleFor(b.request, t.blocked, t.adjusted, t.eligiblePairs)
    && ReadyFor(t.Preflights(b.request, repositories, b.scene.backoff), LAUNCHABLE_ROLES,
                b.scene.clock, t.opening.clock, t.proved, t.ready)
    && PairsHeldBack(t.proved, t.opening.backoff, b.scene.clock)
    && Launching(t.opening, t.closing, b.request, t.blocked, t.ready, t.adjusted, t.listed, t.started,
                 Names(repositories))
    && t.opening.own == b.scene.own && t.opening.attempts == b.scene.attempts
    && a.scene == t.closing.(done := a.scene.done)
  }

  lemma LaunchingFills(o: Scene, s: Scene, request: Request, blocked: set<Role>, ready: set<Pair>,
                       counts: map<Repo, Claimable>, listed: map<WorkerId, Worker>, log: seq<Started>, names: seq<Repo>)
    requires Launching(o, s, request, blocked, ready, counts, listed, log, names)
    ensures Filled(o, s, request, ready, counts, listed, log, LAUNCHABLE_ROLES)
    ensures s.probes == Probed(o.probes, log) && s.ids == o.ids + Ids(log) && s.tidied == o.tidied && o.clock <= s.clock
  {
  }

  /** The stages add up to a tick, and to its whole trace. */
  lemma StagesCompose(b: Moment, mid: Moment, a: Moment, surveyed: Account, t0: Trace, t: Trace,
                      repositories: seq<Managed>, retain: Retention)
    requires Coherent(b) && Coherent(mid) && Coherent(a)
    requires Halfway(b, mid, surveyed, t0, repositories, retain) && Sent(mid, a, t, repositories)
    requires t == t0.WithDispatch(t)
    ensures Tick(b.request, b.view, a.view, t.Input())
    ensures TickTraced(b, a, t, repositories, retain)
  {
    StagesTick(b, mid, a, surveyed, t0, t, repositories, retain);
    StagesTrace(b, mid, a, surveyed, t0, t, repositories, retain);
  }

  lemma StagesTick(b: Moment, mid: Moment, a: Moment, surveyed: Account, t0: Trace, t: Trace,
                   repositories: seq<Managed>, retain: Retention)
    requires Coherent(b) && Coherent(mid) && Coherent(a)
    requires Halfway(b, mid, surveyed, t0, repositories, retain) && Sent(mid, a, t, repositories)
    requires t == t0.WithDispatch(t)
    ensures Tick(b.request, b.view, a.view, t.Input())
  {
    hide Surveyed, Concluded, Failing, PausedLanes, FailedLanes, Tally, Reserving, Launching, Tick, Drifted, Tracked;
    hide CleansOnlySettled, Stabilised, Reports, Misreported, RolesOf, SameLane, Filled, ReadyFor, EligibleFor, Delays;
    LaunchingFills(t.opening, t.closing, b.request, t.blocked, t.ready, t.adjusted, t.listed, t.started,
                   Names(repositories));
    WholeTick(b.view, t.actual, mid.view, a.view, t.opening, t.closing, b.request, t.ready, Tally(t.observed),
              t.adjusted, t.listed, t.started, LAUNCHABLE_ROLES);
  }

  /** What preceded the preflights of a tick did not change what they go by. */
  lemma PreflightsSince(b: Moment, mid: Moment, t: Trace, repositories: seq<Managed>)
    requires |t.exits| == |t.answers| && b.scene.clock <= mid.scene.clock && mid.request == b.request
    requires Failing(b.failures, mid.failures, b.scene.backoff, mid.scene.backoff, FailedLanes(t.exits, t.answers),
                     b.scene.clock)
    requires ReadyFor(t.Preflights(mid.request, repositories, mid.scene.backoff), LAUNCHABLE_ROLES,
                      mid.scene.clock, t.opening.clock, t.proved, t.ready)
    requires Delays(mid.scene.backoff, t.proved, t.opening.backoff, mid.scene.clock)
    ensures ReadyFor(t.Preflights(b.request, repositories, b.scene.backoff), LAUNCHABLE_ROLES,
                     b.scene.clock, t.opening.clock, t.proved, t.ready)
    ensures PairsHeldBack(t.proved, t.opening.backoff, b.scene.clock)
  {
    hide ReadyFor, SameKey, HeldBack, FailedLanes;
    var f := t.Preflights(mid.request, repositories, mid.scene.backoff);
    ReadyAlike(f, b.scene.backoff, LAUNCHABLE_ROLES, mid.scene.clock, t.opening.clock, t.proved, t.ready);
    ReadySince(f.(backoff := b.scene.backoff), LAUNCHABLE_ROLES, mid.scene.clock, b.scene.clock, t.opening.clock,
               t.proved, t.ready);
    forall a <- t.proved | a.expiresAt.None?
      ensures PreflightBackoff(a.pair) in t.opening.backoff
              && t.opening.backoff[PreflightBackoff(a.pair)] >= b.scene.clock + RETRY_DELAY
    {
      assert FailedFor(t.proved, PreflightBackoff(a.pair));
    }
  }

  lemma StagesTrace(b: Moment, mid: Moment, a: Moment, surveyed: Account, t0: Trace, t: Trace,
                    repositories: seq<Managed>, retain: Retention)
    requires Coherent(b) && Coherent(mid) && Coherent(a)
    requires Halfway(b, mid, surveyed, t0, repositories, retain) && Sent(mid, a, t, repositories)
    requires t == t0.WithDispatch(t)
    ensures TickTraced(b, a, t, repositories, retain)
  {
    hide Surveyed, Concluded, Failing, PausedLanes, FailedLanes, Tally, Reserving, Launching, Blocking, Probed, RolesOf;
    hide Drifted, Tracked, CleansOnlySettled, Stabilised, Reports, Misreported, SameLane, SameKey, Filled;
    hide ReadyFor, EligibleFor, Delays, PairsHeldBack;
    PreflightsSince(b, mid, t, repositories);
    LanesKeepTheirDelays(mid.scene.backoff, t.proved, t.opening.backoff, mid.scene.clock);
    LaunchingFills(t.opening, t.closing, b.request, t.blocked, t.ready, t.adjusted, t.listed, t.started,
                   Names(repositories));
    SurveyStays(b.account, surveyed, t0, t, repositories, mid.view.done, a.view.done);
    ConclusionStays(surveyed, mid.account, t0, t, retain, mid.view.done, a.view.done);
    assert Dispatched(mid.account, a.account, t);
    BlockingFollows(b.failures, mid.failures, a.failures, b.scene.backoff, mid.scene.backoff, t, b.scene.clock,
                    mid.scene.clock, a.scene.clock);
  }

  lemma SurveyStays(b: Account, a: Account, t: Trace, t': Trace, repositories: seq<Managed>, done: bool, done': bool)
    requires Surveyed(b, a, t, repositories, done) && (done ==> done')
    requires t'.listed == t.listed && t'.exits == t.exits && t'.pending == t.pending
    requires t'.asked == t.asked && t'.observed == t.observed
    ensures Surveyed(b, a, t', repositories, done')
  {
  }

  lemma ConclusionStays(b: Account, a: Account, t: Trace, t': Trace, retain: Retention, done: bool, done': bool)
    requires Concluded(b, a, t, retain, done) && (done ==> done')
    requires t'.exits == t.exits && t'.answers == t.answers && t'.eligible == t.eligible && t'.at == t.at
    requires t'.due == t.due && t'.cleaned == t.cleaned
    ensures Concluded(b, a, t', retain, done')
  {
  }

  /**
   What a tick owes an unblocked role. If its pair's proof lasts until the launch loops begin, or a refresh of
   it succeeded, the role launches exactly its minimum, as long as its loop is brief, meets no refusal and
   the run goes on; and a refresh that was due when the tick began was asked for.
   */
  lemma UnblockedRoleIsServed(b: Moment, a: Moment, t: Trace, repositories: seq<Managed>, retain: Retention, role: Role)
    requires TickTraced(b, a, t, repositories, retain) && role !in t.blocked
    ensures var pair := b.request.PairOf(role);
            && (pair in t.known && t.known[pair] > t.opening.clock + 2 * 60 ==> pair in t.ready)
            && (forall p <- t.proved :: p.pair == pair && p.expiresAt.Some? ==> pair in t.ready)
            && (pair in t.ready && (forall p <- t.proved :: p.pair != pair) ==>
                  pair in t.known && t.known[pair] > b.scene.clock + 2 * 60)
            && ((exists r <- t.adjusted :: t.adjusted[r].For(role) > 0) && repositories != []
                && !(pair in t.known && t.known[pair] > b.scene.clock + 2 * 60)
                && !(PreflightBackoff(pair) in b.scene.backoff
                     && b.scene.backoff[PreflightBackoff(pair)] > b.scene.clock) ==>
                  exists p <- t.proved :: p.pair == pair)
            && (pair in t.ready && !t.closing.done && Unique(Names(repositories))
                && Brief(t.opening, t.closing, role, Names(repositories))
                && Undisturbed(t.opening, t.closing, role, Names(repositories)) ==>
                  |LaunchedFor(t.opening.own, t.closing.own, t.closing.workers, role)|
                  == Min(Max(0, b.request.LaneOf(role).capacity - |Occupied(t.listed, role)|),
                         Servable(Names(repositories), map r | r in t.adjusted :: t.adjusted[r].For(role),
                                  HeldOnes(t.opening, role, Names(repositories)))))
  {
    hide Accounted, Blocking, PairsHeldBack, Occupied, Servable, Brief, Undisturbed, Filled, HeldOnes,
         LaunchedFor;
    EveryRoleIsServed(role);
    assert b.request.PairOf(role) in PairsOf(b.request, LAUNCHABLE_ROLES, t.blocked);
    LaunchedExactly(t.opening, t.closing, b.request, t.blocked, t.ready, t.adjusted, t.listed, t.started,
                    Names(repositories), role);
  }

  /** What a tick may start for a role: whose lane it is, what is ready, and the counts it works off. */
  ghost predicate Within(b: Moment, t: Trace, role: Role, lane: Lane, left: map<Repo, nat>) {
    var occupied := set id | id in t.listed && t.listed[id].lane.role == role
                             && t.listed[id].status in {WorkerRunning, Allocating};
    var launched := LaunchedFor(t.opening.own, t.closing.own, t.closing.workers, role);
    && (launched != {} ==> Pair(lane.provider, lane.mcpServer) in t.ready)
    && |launched| <= Max(0, lane.capacity - |occupied|)
    && forall r: Repo :: |Launched(t.opening.own, t.closing.own, t.closing.workers, LaneKey(r, role))|
                         <= if r in left then left[r] else 0
  }

  lemma OneRoleByItsOwn(b: Moment, t: Trace, role: Role)
    requires Filled(t.opening, t.closing, b.request, t.ready, t.adjusted, t.listed, t.started, LAUNCHABLE_ROLES)
    ensures Within(b, t, role, b.request.LaneOf(role), ForRole(t.adjusted, role))
  {
    FilledWithin(t, b.request, role);
    assert Logged(t.opening.own, t.closing.own, t.closing.workers, t.started);
    OccupiedIs(t.listed, role);
    hide Filled, Launched, LaunchedFor, CountLane, CountRole, CountOf, Occupied, Logged, ForRole;
    EachCountsLaunched(t.opening.own, t.closing.own, t.closing.workers, t.started, role);
    assert |LaunchedFor(t.opening.own, t.closing.own, t.closing.workers, role)| == CountRole(t.started, role);
  }

  lemma OccupiedIs(listed: map<WorkerId, Worker>, role: Role)
    ensures Occupied(listed, role) == set id | id in listed && listed[id].lane.role == role
                                               && listed[id].status in {WorkerRunning, Allocating}
  {
  }

  lemma EachCountsLaunched(own: set<WorkerId>, own': set<WorkerId>, workers: map<WorkerId, Worker>, log: seq<Started>,
                           role: Role)
    requires Logged(own, own', workers, log)
    ensures |LaunchedFor(own, own', workers, role)| == CountRole(log, role)
    ensures forall r: Repo :: |Launched(own, own', workers, LaneKey(r, role))| == CountLane(log, LaneKey(r, role))
  {
    hide Logged, Launched, LaunchedFor, CountLane, CountRole;
    LogCountsLaunched(own, own', workers, log, LaneKey("", role), role);
    forall r: Repo ensures |Launched(own, own', workers, LaneKey(r, role))| == CountLane(log, LaneKey(r, role)) {
      LogCountsLaunched(own, own', workers, log, LaneKey(r, role), role);
    }
  }

  lemma FilledWithin(t: Trace, request: Request, role: Role)
    requires Filled(t.opening, t.closing, request, t.ready, t.adjusted, t.listed, t.started, LAUNCHABLE_ROLES)
    ensures CountRole(t.started, role) > 0 ==> request.PairOf(role) in t.ready
    ensures CountRole(t.started, role) <= Max(0, request.LaneOf(role).capacity - |Occupied(t.listed, role)|)
    ensures forall r: Repo :: CountLane(t.started, LaneKey(r, role))
                              <= if r in ForRole(t.adjusted, role) then ForRole(t.adjusted, role)[r] else 0
  {
    hide Drifted, Recorded, WellIssued, SameBackoff, Waited, CountLane, CountRole, Logged, Occupied;
    forall r: Repo ensures CountOf(t.adjusted, LaneKey(r, role))
                           == if r in ForRole(t.adjusted, role) then ForRole(t.adjusted, role)[r] else 0 {
    }
  }

  /** Every role launches by its own lane's pair and capacity, and in each repository by its own count. */
  lemma EachRoleByItsOwn(b: Moment, a: Moment, t: Trace, repositories: seq<Managed>, retain: Retention)
    requires TickTraced(b, a, t, repositories, retain)
    ensures Within(b, t, Discoverer, b.request.discoverer, map r | r in t.adjusted :: t.adjusted[r].discoverer)
    ensures Within(b, t, Implementer, b.request.implementer, map r | r in t.adjusted :: t.adjusted[r].implementer)
    ensures Within(b, t, Reviewer, b.request.reviewer, map r | r in t.adjusted :: t.adjusted[r].reviewer)
  {
    hide Accounted, Blocking, EligibleFor, ReadyFor, PairsHeldBack, Exact, Filled, Within;
    OneRoleByItsOwn(b, t, Discoverer);
    OneRoleByItsOwn(b, t, Implementer);
    OneRoleByItsOwn(b, t, Reviewer);
    assert ForRole(t.adjusted, Discoverer) == map r | r in t.adjusted :: t.adjusted[r].discoverer;
    assert ForRole(t.adjusted, Implementer) == map r | r in t.adjusted :: t.adjusted[r].implementer;
    assert ForRole(t.adjusted, Reviewer) == map r | r in t.adjusted :: t.adjusted[r].reviewer;
  }

  /**
   A lane waits out its backoff: none is given a worker in a tick that ends before the time it was backed off
   to, and none that failed in this very tick, for a whole retry delay.
   */
  lemma HeldLanesWait(b: Moment, a: Moment, t: Trace, repositories: seq<Managed>, retain: Retention, lane: LaneKey)
    requires TickTraced(b, a, t, repositories, retain)
    ensures LaunchBackoff(lane) in b.scene.backoff && b.scene.backoff[LaunchBackoff(lane)] > a.scene.clock
            && lane !in FailedLanes(t.exits, t.answers) ==>
              Launched(t.opening.own, t.closing.own, t.closing.workers, lane) == {}
    ensures lane in FailedLanes(t.exits, t.answers) && a.scene.clock < b.scene.clock + 5 * 60 ==>
              Launched(t.opening.own, t.closing.own, t.closing.workers, lane) == {}
  {
    hide Accounted, EligibleFor, ReadyFor, PairsHeldBack, Exact, FailedLanes, Launched, CountLane, RolesOf;
    LogCountsLaunched(t.opening.own, t.closing.own, t.closing.workers, t.started, lane, lane.role);
    assert Waited(t.opening, t.closing.clock, t.started);
    if lane !in FailedLanes(t.exits, t.answers) {
      assert SameLane(b.scene.backoff, t.opening.backoff, lane);
    }
    if HeldPast(t.opening, lane, t.closing.clock) {
      assert CountLane(t.started, lane) == 0;
    }
  }
}
