/**
 What one reconciliation tick guarantees, as a relation between the states around it, and what whole
 campaigns guarantee because of it. `Campaign.Controller.Reconcile` is proved to satisfy `Tick`.
 */
module CampaignRuns {
  import opened Prelude
  import opened CampaignTypes
  import CampaignRequest

  /** One `Launch` the controller issued, and what was already known when it was issued. */
  datatype Attempt = Attempt(
    lane: LaneKey,
    base: string,                     // the commit the worker was pinned to
    worker: Option<WorkerId>,         // the worker it started, when it succeeded
    left: Option<WorkerStatus>,       // the record a failed launch left behind, when it left one
    afterStop: bool,                  // the run's context was already done
    afterLoss: bool,                  // a state write of this run had already failed
    refreshWrote: Option<bool>)       // the write of this attempt's own base refresh, when it has one

  /** A probed worker's exit together with the exact correlation a tick received for it. */
  datatype Sighting = Sighting(exit: Exit, outcome: Outcome)

  /** One question to Snowcat about a worker's attempts, and its answer, if there was one. */
  datatype Question = Question(worker: WorkerId, answer: Option<Outcome>)

  /** One repository's queue observation. */
  datatype QueueAnswer = QueueAnswer(repository: Repo, counts: Option<Claimable>)

  /** One preparation of a managed source, and the base commit it gave. */
  datatype SetupAnswer = SetupAnswer(repository: Repo, base: Option<string>)

  /** One live provider proof, and its expiry. */
  datatype ProofAnswer = ProofAnswer(pair: Pair, expiresAt: Option<int>)

  /** What a tick asks of Snowcat and of the worker manager before it launches, in order. */
  datatype Call = Correlated(question: Question) | ObservedQueue(answer: QueueAnswer) | CleanedUp(worker: WorkerId)

  function Correlations(asked: seq<Question>): seq<Call> {
    seq(|asked|, k requires 0 <= k < |asked| => Correlated(asked[k]))
  }

  function Observations(answers: seq<QueueAnswer>): seq<Call> {
    seq(|answers|, k requires 0 <= k < |answers| => ObservedQueue(answers[k]))
  }

  function Cleanings(ids: seq<WorkerId>): seq<Call> {
    seq(|ids|, k requires 0 <= k < |ids| => CleanedUp(ids[k]))
  }

  lemma CorrelationsMore(asked: seq<Question>, q: Question)
    ensures Correlations(asked + [q]) == Correlations(asked) + [Correlated(q)]
  {
  }

  lemma CleaningsMore(ids: seq<WorkerId>, id: WorkerId)
    ensures Cleanings(ids + [id]) == Cleanings(ids) + [CleanedUp(id)]
  {
  }

  datatype View = View(
    workers: map<WorkerId, Worker>,   // every managed worker on the node
    claimed: set<WorkerId>,           // those with at least one Snowcat attempt
    own: set<WorkerId>,               // those this campaign launched
    probes: map<WorkerId, Probe>,
    candidates: set<WorkerId>,        // workspaces marked for cleanup
    attempts: seq<Attempt>,
    cleanups: seq<WorkerId>,          // Cleanup calls issued
    sightings: set<Sighting>,
    misreported: set<WorkerId>,       // running workers some inventory listed as failed
    done: bool)                       // the context is done or the halt latch is set

  // ---- How workers change on their own ---------------------------------------------------

  /** A worker never comes back once it has ended. What an inventory says of it is another matter. */
  predicate Moves(a: WorkerStatus, b: WorkerStatus) {
    match a
    case Allocating => true
    case WorkerRunning => b != Allocating
    case Exited => b != Allocating && b != WorkerRunning
    case Failed => b != Allocating && b != WorkerRunning
    case WorkerStopped => b == WorkerStopped || b == Cleaned
    case Cleaned => b == Cleaned
  }

  predicate Drifted(w: map<WorkerId, Worker>, c: set<WorkerId>, w': map<WorkerId, Worker>, c': set<WorkerId>) {
    && c <= c'
    && forall id <- w :: id in w' && w'[id].lane == w[id].lane && Moves(w[id].status, w'[id].status)
  }

  /** An inventory lists every worker as it is, except that it may list a running one as failed. */
  predicate Reports(actual: map<WorkerId, Worker>, listed: map<WorkerId, Worker>) {
    && listed.Keys == actual.Keys
    && forall id <- actual ::
         listed[id] == actual[id] || (actual[id].status == WorkerRunning && listed[id] == actual[id].(status := Failed))
  }

  function Misreported(actual: map<WorkerId, Worker>, listed: map<WorkerId, Worker>): set<WorkerId> {
    set id | id in actual && id in listed && listed[id] != actual[id]
  }

  /** Every listed worker has moved on from what was listed, unless it was misreported. */
  predicate Since(listed: map<WorkerId, Worker>, workers: map<WorkerId, Worker>, misreported: set<WorkerId>) {
    forall id <- listed ::
      id in workers && workers[id].lane == listed[id].lane
      && (Moves(listed[id].status, workers[id].status) || id in misreported)
  }

  lemma SinceListed(actual: map<WorkerId, Worker>, listed: map<WorkerId, Worker>, workers: map<WorkerId, Worker>,
                    misreported: set<WorkerId>)
    requires Reports(actual, listed) && Drifted(actual, {}, workers, {}) && Misreported(actual, listed) <= misreported
    ensures Since(listed, workers, misreported)
  {
    forall id <- listed ensures Moves(listed[id].status, workers[id].status) || id in misreported {
      if listed[id] != actual[id] {
        assert id in Misreported(actual, listed);
      }
    }
  }

  lemma SinceDrifts(listed: map<WorkerId, Worker>, w: map<WorkerId, Worker>, w': map<WorkerId, Worker>,
                    misreported: set<WorkerId>)
    requires Since(listed, w, misreported) && Drifted(w, {}, w', {})
    ensures Since(listed, w', misreported)
  {
  }

  lemma DriftStays(w: map<WorkerId, Worker>, c: set<WorkerId>)
    ensures Drifted(w, c, w, c)
  {
  }

  lemma ForgettingClaims(w: map<WorkerId, Worker>, c: set<WorkerId>, w': map<WorkerId, Worker>, c': set<WorkerId>)
    requires Drifted(w, c, w', c')
    ensures Drifted(w, {}, w', {})
  {
  }

  lemma ClaimsGrow(w: map<WorkerId, Worker>, c: set<WorkerId>, w': map<WorkerId, Worker>, c': set<WorkerId>)
    requires Drifted(w, c, w', c')
    ensures c <= c'
  {
  }

  lemma DriftComposes(w: map<WorkerId, Worker>, c: set<WorkerId>, w': map<WorkerId, Worker>, c': set<WorkerId>,
                      w'': map<WorkerId, Worker>, c'': set<WorkerId>)
    requires Drifted(w, c, w', c') && Drifted(w', c', w'', c'')
    ensures Drifted(w, c, w'', c'')
  {
  }

  // ---- Counting workers ------------------------------------------------------------------

  /** This campaign's running workers of one lane that have not claimed yet. */
  ghost function Waiting(v: View, lane: LaneKey): set<WorkerId> {
    set id | id in v.own && id in v.workers && v.workers[id] == Worker(lane, WorkerRunning) && id !in v.claimed
  }

  ghost function Occupied(workers: map<WorkerId, Worker>, role: Role): set<WorkerId> {
    set id | id in workers && workers[id].lane.role == role && OccupiesLane(workers[id])
  }

  /** The workers launched between two states, by lane and by role. */
  ghost function Launched(own: set<WorkerId>, own': set<WorkerId>, workers: map<WorkerId, Worker>,
                          lane: LaneKey): set<WorkerId> {
    set id | id in own' && id !in own && id in workers && workers[id].lane == lane
  }

  ghost function LaunchedFor(own: set<WorkerId>, own': set<WorkerId>, workers: map<WorkerId, Worker>,
                             role: Role): set<WorkerId> {
    set id | id in own' && id !in own && id in workers && workers[id].lane.role == role
  }

  /** The same, of workers whose running no inventory ever denied. */
  ghost function WaitingSeen(v: View, lane: LaneKey): set<WorkerId> { Waiting(v, lane) - v.misreported }

  ghost function OccupiedSeen(v: View, role: Role): set<WorkerId> { Occupied(v.workers, role) - v.misreported }

  /** Probes and workers agree, but for misreported workers; this is what every step of a campaign keeps. */
  ghost predicate Tracked(v: View) {
    && v.own <= v.workers.Keys
    && v.probes.Keys <= v.own
    && (forall id <- v.own :: v.workers[id].status != Allocating)
    && (forall id <- v.probes :: v.probes[id].lane == v.workers[id].lane && (v.probes[id].claimed ==> id in v.claimed))
    && (forall id <- v.own :: v.workers[id].status == WorkerRunning ==> id in v.probes || id in v.misreported)
  }

  lemma DriftKeepsTracked(v: View, v': View)
    requires Tracked(v) && Drifted(v.workers, v.claimed, v'.workers, v'.claimed)
    requires v'.own == v.own && v'.probes == v.probes && v.misreported <= v'.misreported
    ensures Tracked(v')
  {
  }

  // ---- Launching after the end -----------------------------------------------------------

  /**
   Among the launches of one tick only the last may come after the context is done, and one that
   comes after a lost write is an implementer launch whose own base refresh lost it.
   */
  ghost predicate EndRespected(added: seq<Attempt>) {
    && (forall i :: 0 <= i < |added| && added[i].afterStop ==> i == |added| - 1)
    && (forall i :: 0 <= i < |added| && added[i].afterLoss ==>
          added[i].afterStop && added[i].lane.role == Implementer && added[i].refreshWrote == Some(false))
  }

  // ---- Cleaning only what is over ----------------------------------------------------------

  /** The exit and its outcome say that nothing about the workspace can still matter. */
  predicate Settled(s: Sighting) {
    && s.exit.status == Exited
    && (s.outcome == Completed || s.outcome == BlockedItem || s.outcome == Released || s.outcome == Expired
        || (s.outcome == Unmatched && s.exit.probe.stabilized))
  }

  ghost predicate SettledWorker(v: View, id: WorkerId) {
    exists s <- v.sightings :: s.exit.worker == id && Settled(s)
  }

  ghost predicate CleansOnlySettled(v: View) {
    && (forall id <- v.candidates :: SettledWorker(v, id))
    && (forall id <- v.cleanups :: SettledWorker(v, id))
  }

  // ---- One tick ----------------------------------------------------------------------------

  /** `listed` is the tick's inventory of the `actual` workers, `counts` the claimable work it observed. */
  datatype TickInput = TickInput(actual: map<WorkerId, Worker>, listed: map<WorkerId, Worker>,
                                 counts: map<Repo, Claimable>)

  function CountOf(counts: map<Repo, Claimable>, lane: LaneKey): nat {
    if lane.repository in counts then counts[lane.repository].For(lane.role) else 0
  }

  ghost predicate Tick(request: Request, b: View, a: View, i: TickInput) {
    && Drifted(b.workers, b.claimed, a.workers, a.claimed)
    && Drifted(b.workers, {}, i.actual, {}) && Drifted(i.actual, {}, a.workers, {})
    && Reports(i.actual, i.listed) && a.misreported == b.misreported + Misreported(i.actual, i.listed)
    && b.own <= a.own
    && (forall id <- a.own :: id in b.own || id !in i.listed)
    && (forall lane :: |WaitingSeen(a, lane)| <= Max(|WaitingSeen(b, lane)|, CountOf(i.counts, lane)))
    && (forall role :: |LaunchedFor(b.own, a.own, a.workers, role)|
                       <= Max(0, request.LaneOf(role).capacity - |Occupied(i.listed, role)|))
    && b.attempts <= a.attempts
    && EndRespected(a.attempts[|b.attempts|..])
    && (b.done ==> a.attempts == b.attempts)
    && (b.done ==> a.done)
    && ((exists x <- a.attempts[|b.attempts|..] :: x.afterStop) ==> a.done)
    && (Tracked(b) ==> Tracked(a))
    && (CleansOnlySettled(b) ==> CleansOnlySettled(a))
  }

  /** What happens between ticks: workers drift, the operator may stop the campaign. */
  ghost predicate Between(b: View, a: View) {
    && Drifted(b.workers, b.claimed, a.workers, a.claimed)
    && a.own == b.own && a.probes == b.probes && a.attempts == b.attempts
    && a.candidates == b.candidates && a.cleanups == b.cleanups && a.sightings == b.sightings
    && a.misreported == b.misreported
    && (b.done ==> a.done)
  }

  ghost predicate Next(request: Request, b: View, a: View, i: Option<TickInput>) {
    if i.None? then Between(b, a) else Tick(request, b, a, i.value)
  }

  /** A campaign: states `vs`, with `steps[k]` saying how state k became state k + 1. */
  ghost predicate Campaign(request: Request, vs: seq<View>, steps: seq<Option<TickInput>>) {
    && |vs| == |steps| + 1
    && forall k :: 0 <= k < |steps| ==> Next(request, vs[k], vs[k + 1], steps[k])
  }

  /** Probes and workers agree in every state, and only settled workspaces are ever marked or cleaned. */
  lemma {:induction false} EveryStateIsTracked(request: Request, vs: seq<View>, steps: seq<Option<TickInput>>, n: nat)
    requires Campaign(request, vs, steps) && n <= |steps|
    requires Tracked(vs[0]) && CleansOnlySettled(vs[0])
    ensures Tracked(vs[n]) && CleansOnlySettled(vs[n])
  {
    if n > 0 {
      EveryStateIsTracked(request, vs, steps, n - 1);
      assert Next(request, vs[n - 1], vs[n], steps[n - 1]);
      if steps[n - 1].None? {
        DriftKeepsTracked(vs[n - 1], vs[n]);
      }
    }
  }

  // ---- Claim reservations over whole campaigns ------------------------------------------------

  lemma WaitingShrinks(b: View, a: View, lane: LaneKey)
    requires Tracked(b) && Between(b, a)
    ensures |WaitingSeen(a, lane)| <= |WaitingSeen(b, lane)|
  {
    Included(WaitingSeen(a, lane), WaitingSeen(b, lane));
  }

  lemma Included<T>(s: set<T>, t: set<T>)
    requires s <= t
    ensures |s| <= |t|
  {
    assert t == s + (t - s);
    assert |t| == |s| + |t - s|;
  }

  /** At most `most` of a lane's waiting workers are there for a reason other than a misreport. */
  ghost predicate WaitingWithin(v: View, lane: LaneKey, most: nat) { |WaitingSeen(v, lane)| <= most }

  lemma WaitingAfterStep(request: Request, b: View, a: View, i: Option<TickInput>, lane: LaneKey, most: nat)
    requires Tracked(b) && Next(request, b, a, i) && (i.Some? ==> CountOf(i.value.counts, lane) <= most)
    requires WaitingWithin(b, lane, most)
    ensures WaitingWithin(a, lane, most)
  {
    if i.None? {
      WaitingShrinks(b, a, lane);
    }
  }

  /** No tick observes more claimable items in the lane. */
  ghost predicate CountsWithin(steps: seq<Option<TickInput>>, lane: LaneKey, most: nat) {
    forall k :: 0 <= k < |steps| && steps[k].Some? ==> CountOf(steps[k].value.counts, lane) <= most
  }

  lemma {:induction false} WaitingStaysWithin(
    request: Request, vs: seq<View>, steps: seq<Option<TickInput>>, lane: LaneKey, most: nat, n: nat)
    requires Campaign(request, vs, steps) && n <= |steps|
    requires Tracked(vs[0]) && CleansOnlySettled(vs[0]) && WaitingWithin(vs[0], lane, most)
    requires CountsWithin(steps, lane, most)
    ensures WaitingWithin(vs[n], lane, most)
  {
    if n > 0 {
      hide Tracked, CleansOnlySettled, WaitingWithin, Next, CountOf;
      assert Next(request, vs[n - 1], vs[n - 1 + 1], steps[n - 1]);
      assert steps[n - 1].Some? ==> CountOf(steps[n - 1].value.counts, lane) <= most;
      hide Campaign, CountsWithin;
      WaitingStaysWithin(request, vs, steps, lane, most, n - 1);
      EveryStateIsTracked(request, vs, steps, n - 1);
      WaitingAfterStep(request, vs[n - 1], vs[n], steps[n - 1], lane, most);
    }
  }

  /**
   However worker claims, exits, misreports and ticks interleave: if no tick ever observes more than
   `bound` claimable items in a lane, the lane never has more than `bound` launched workers still
   waiting for their claim (or as many as it started with), beyond those an inventory misreported.
   */
  lemma WaitingNeverExceedsClaimable(
    request: Request, vs: seq<View>, steps: seq<Option<TickInput>>, lane: LaneKey, bound: nat, n: nat)
    requires Campaign(request, vs, steps) && n <= |steps|
    requires Tracked(vs[0]) && CleansOnlySettled(vs[0])
    requires CountsWithin(steps, lane, bound)
    ensures |Waiting(vs[n], lane)|
            <= Max(|WaitingSeen(vs[0], lane)|, bound) + |Waiting(vs[n], lane) * vs[n].misreported|
  {
    WaitingStaysWithin(request, vs, steps, lane, Max(|WaitingSeen(vs[0], lane)|, bound), n);
    Parted(Waiting(vs[n], lane), vs[n].misreported);
  }

  lemma Parted<T>(s: set<T>, t: set<T>)
    ensures |s| == |s - t| + |s * t|
  {
    assert s == (s - t) + (s * t);
    assert |(s - t) + (s * t)| == |s - t| + |s * t|;
  }

  /**
   The launch-to-claim gap: while a lane's claimable count stays at most `bound` and none of its
   workers claims or exits, all ticks of the campaign together launch at most `bound` workers there,
   and one more for each of them an inventory misreported.
   */
  lemma NoRelaunchIntoTheSameItem(
    request: Request, vs: seq<View>, steps: seq<Option<TickInput>>, lane: LaneKey, bound: nat)
    requires Campaign(request, vs, steps)
    requires Tracked(vs[0]) && CleansOnlySettled(vs[0])
    requires vs[0].own == {}
    requires CountsWithin(steps, lane, bound)
    requires var v := vs[|vs| - 1];
             forall id <- v.own :: id in v.workers && v.workers[id].lane == lane ==>
               v.workers[id].status == WorkerRunning && id !in v.claimed
    ensures var v := vs[|vs| - 1];
            var launched := Launched(vs[0].own, v.own, v.workers, lane);
            |launched| <= bound + |launched * v.misreported|
  {
    WaitingNeverExceedsClaimable(request, vs, steps, lane, bound, |steps|);
    EveryStateIsTracked(request, vs, steps, |steps|);
    var v := vs[|vs| - 1];
    assert WaitingSeen(vs[0], lane) == {};
    assert Launched(vs[0].own, v.own, v.workers, lane) == Waiting(v, lane);
  }

  // ---- Lane capacity over whole campaigns -----------------------------------------------------

  /** Nobody else launched, and no failed launch left a worker occupying its lane. */
  ghost predicate OnlyCampaignLaunches(b: View, a: View) {
    forall id <- a.workers :: id !in b.workers && OccupiesLane(a.workers[id]) ==> id in a.own && id !in b.own
  }

  /** Who occupies a role after a tick and was never misreported was counted by it, or was launched by it. */
  lemma OccupiedAfter(b: View, a: View, i: TickInput, role: Role)
    requires Tracked(b)
    requires Drifted(b.workers, {}, i.actual, {}) && Drifted(i.actual, {}, a.workers, {})
    requires Reports(i.actual, i.listed) && a.misreported == b.misreported + Misreported(i.actual, i.listed)
    requires OnlyCampaignLaunches(b, a)
    ensures OccupiedSeen(a, role) <= Occupied(i.listed, role) + LaunchedFor(b.own, a.own, a.workers, role)
    ensures OccupiedSeen(a, role) <= OccupiedSeen(b, role) + LaunchedFor(b.own, a.own, a.workers, role)
  {
    SinceListed(i.actual, i.listed, a.workers, a.misreported);
    forall id <- OccupiedSeen(a, role) ensures id in LaunchedFor(b.own, a.own, a.workers, role)
                                               || (id in Occupied(i.listed, role) && id in OccupiedSeen(b, role)) {
      if id in b.workers {
        assert id in i.actual && id in i.listed;
        assert Moves(b.workers[id].status, i.actual[id].status) && Moves(i.actual[id].status, a.workers[id].status);
        assert Moves(i.listed[id].status, a.workers[id].status);
      }
    }
  }

  /** Whoever else launches: what a tick adds to a role never takes it above its capacity. */
  lemma TickAddsWithinCapacity(request: Request, b: View, a: View, i: TickInput, role: Role)
    requires Tick(request, b, a, i)
    ensures |Occupied(i.listed, role) + LaunchedFor(b.own, a.own, a.workers, role)|
            <= Max(request.LaneOf(role).capacity, |Occupied(i.listed, role)|)
  {
    var x, y := Occupied(i.listed, role), LaunchedFor(b.own, a.own, a.workers, role);
    assert |x + y| <= |x| + |y|;
  }

  lemma TickKeepsCapacity(request: Request, b: View, a: View, i: TickInput, role: Role)
    requires Tracked(b) && Tick(request, b, a, i) && OnlyCampaignLaunches(b, a)
    ensures |OccupiedSeen(a, role)| <= Max(request.LaneOf(role).capacity, |OccupiedSeen(b, role)|)
  {
    OccupiedAfter(b, a, i, role);
    var added := LaunchedFor(b.own, a.own, a.workers, role);
    if |Occupied(i.listed, role)| < request.LaneOf(role).capacity {
      Included(OccupiedSeen(a, role), Occupied(i.listed, role) + added);
      assert |Occupied(i.listed, role) + added| <= |Occupied(i.listed, role)| + |added|;
    } else {
      assert added == {};
      Included(OccupiedSeen(a, role), OccupiedSeen(b, role));
    }
  }

  lemma BetweenKeepsCapacity(b: View, a: View, role: Role)
    requires Tracked(b) && Between(b, a) && OnlyCampaignLaunches(b, a)
    ensures |OccupiedSeen(a, role)| <= |OccupiedSeen(b, role)|
  {
    Included(OccupiedSeen(a, role), OccupiedSeen(b, role));
  }

  lemma StepKeepsCapacity(request: Request, b: View, a: View, i: Option<TickInput>, role: Role)
    requires Tracked(b) && Next(request, b, a, i) && OnlyCampaignLaunches(b, a)
    ensures |OccupiedSeen(a, role)| <= Max(request.LaneOf(role).capacity, |OccupiedSeen(b, role)|)
  {
    if i.None? {
      BetweenKeepsCapacity(b, a, role);
    } else {
      TickKeepsCapacity(request, b, a, i.value, role);
    }
  }

  lemma {:induction false} SeenLanesStayWithinCapacity(
    request: Request, vs: seq<View>, steps: seq<Option<TickInput>>, role: Role, n: nat)
    requires Campaign(request, vs, steps) && n <= |steps|
    requires Tracked(vs[0]) && CleansOnlySettled(vs[0])
    requires forall k :: 0 <= k < |steps| ==> OnlyCampaignLaunches(vs[k], vs[k + 1])
    ensures |OccupiedSeen(vs[n], role)| <= Max(request.LaneOf(role).capacity, |OccupiedSeen(vs[0], role)|)
  {
    if n > 0 {
      SeenLanesStayWithinCapacity(request, vs, steps, role, n - 1);
      EveryStateIsTracked(request, vs, steps, n - 1);
      StepKeepsCapacity(request, vs[n - 1], vs[n], steps[n - 1], role);
    }
  }

  /**
   Capacity holds in every state of a campaign that is the node's only launcher, beyond the workers an
   inventory misreported.
   */
  lemma LanesStayWithinCapacity(request: Request, vs: seq<View>, steps: seq<Option<TickInput>>, role: Role, n: nat)
    requires Campaign(request, vs, steps) && n <= |steps|
    requires Tracked(vs[0]) && CleansOnlySettled(vs[0])
    requires forall k :: 0 <= k < |steps| ==> OnlyCampaignLaunches(vs[k], vs[k + 1])
    ensures |Occupied(vs[n].workers, role)|
            <= Max(request.LaneOf(role).capacity, |OccupiedSeen(vs[0], role)|)
               + |Occupied(vs[n].workers, role) * vs[n].misreported|
  {
    SeenLanesStayWithinCapacity(request, vs, steps, role, n);
    Parted(Occupied(vs[n].workers, role), vs[n].misreported);
  }

  /** Every worker that occupies a lane, of any role. */
  ghost function AllOccupied(workers: map<WorkerId, Worker>): set<WorkerId> {
    set id | id in workers && OccupiesLane(workers[id])
  }

  lemma OccupiedIsPart(workers: map<WorkerId, Worker>, role: Role)
    ensures Occupied(workers, role) <= AllOccupied(workers)
  {
  }

  /**
   With an accepted request and an idle node at the start, never more than twelve workers run, beyond
   those an inventory misreported.
   */
  lemma NeverMoreThanTwelve(request: Request, vs: seq<View>, steps: seq<Option<TickInput>>)
    requires CampaignRequest.Acceptable(request)
    requires Campaign(request, vs, steps)
    requires Tracked(vs[0]) && CleansOnlySettled(vs[0])
    requires AllOccupied(vs[0].workers) == {}
    requires forall k :: 0 <= k < |steps| ==> OnlyCampaignLaunches(vs[k], vs[k + 1])
    ensures var v := vs[|vs| - 1];
            |AllOccupied(v.workers)| <= MAX_TOTAL_CAPACITY + |AllOccupied(v.workers) * v.misreported|
  {
    CampaignRequest.AcceptedCapacity(request);
    hide CampaignRequest.Acceptable;
    var v := vs[|vs| - 1];
    var d, i, r := OccupiedSeen(v, Discoverer), OccupiedSeen(v, Implementer), OccupiedSeen(v, Reviewer);
    forall role ensures |OccupiedSeen(v, role)| <= request.LaneOf(role).capacity {
      OccupiedIsPart(vs[0].workers, role);
      SeenLanesStayWithinCapacity(request, vs, steps, role, |steps|);
    }
    assert |d| <= request.LaneOf(Discoverer).capacity;
    assert |i| <= request.LaneOf(Implementer).capacity;
    assert |r| <= request.LaneOf(Reviewer).capacity;
    assert AllOccupied(v.workers) - v.misreported == d + i + r;
    assert |d + i| <= |d| + |i|;
    assert |d + i + r| <= |d + i| + |r|;
    Parted(AllOccupied(v.workers), v.misreported);
  }

  // ---- After the end --------------------------------------------------------------------------

  /** Of the launches since the run began, only the last may be late, and it knows why. */
  ghost predicate EndedWell(since: nat, v: View) {
    && since <= |v.attempts|
    && EndRespected(v.attempts[since..])
    && ((exists x <- v.attempts[since..] :: x.afterStop) ==> v.done)
  }

  lemma LateLaunchStep(since: nat, b: View, a: View)
    requires EndedWell(since, b)
    requires b.attempts <= a.attempts && EndRespected(a.attempts[|b.attempts|..])
    requires b.done ==> a.attempts == b.attempts && a.done
    requires (exists x <- a.attempts[|b.attempts|..] :: x.afterStop) ==> a.done
    ensures EndedWell(since, a)
  {
    var old', added := b.attempts[since..], a.attempts[|b.attempts|..];
    assert a.attempts[since..] == old' + added;
    assert forall j :: 0 <= j < |old'| ==> old'[j] in old';
    assert b.done ==> added == [];
  }

  /**
   Over the whole life of a run at most one launch is issued after its context is done (by Stop or
   by a lost write), and it is the last launch of the run; one issued after a lost write is an
   implementer launch whose own base refresh lost it.
   */
  lemma {:induction false} AtMostOneLateLaunch(request: Request, vs: seq<View>, steps: seq<Option<TickInput>>, n: nat)
    requires Campaign(request, vs, steps) && n <= |steps|
    ensures vs[0].attempts <= vs[n].attempts && EndedWell(|vs[0].attempts|, vs[n])
  {
    if n > 0 {
      AtMostOneLateLaunch(request, vs, steps, n - 1);
      assert Next(request, vs[n - 1], vs[n], steps[n - 1]);
      LateLaunchStep(|vs[0].attempts|, vs[n - 1], vs[n]);
    }
  }

  /** A campaign goes on with one more tick, or with what happens between ticks. */
  lemma CampaignGoesOn(request: Request, vs: seq<View>, steps: seq<Option<TickInput>>, v: View, step: Option<TickInput>)
    requires Campaign(request, vs, steps) && Next(request, vs[|vs| - 1], v, step)
    ensures Campaign(request, vs + [v], steps + [step])
  {
    var ws, ts := vs + [v], steps + [step];
    forall k | 0 <= k < |ts| ensures Next(request, ws[k], ws[k + 1], ts[k]) {
      if k < |steps| {
        assert Next(request, vs[k], vs[k + 1], steps[k]);
      }
    }
  }

  /** Once a run is done, the rest of it issues no launch at all. */
  lemma {:induction false} NothingLaunchesOnceDone(
    request: Request, vs: seq<View>, steps: seq<Option<TickInput>>, m: nat, n: nat)
    requires Campaign(request, vs, steps) && m <= n <= |steps|
    requires vs[m].done
    ensures vs[n].done && vs[n].attempts == vs[m].attempts
    decreases n
  {
    if m < n {
      NothingLaunchesOnceDone(request, vs, steps, m, n - 1);
      assert Next(request, vs[n - 1], vs[n], steps[n - 1]);
    }
  }
}
