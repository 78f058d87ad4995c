/**
 The controller's bookkeeping of launched workers as functions on values: what inspecting probes,
 confirming claims and correlating exits do, and why the reservations they leave are enough.
 */
module CampaignTracking {
  import opened Prelude
  import opened CampaignTypes
  import opened CampaignRuns
  import NameOrder

  // ---- Probes --------------------------------------------------------------------------------

  predicate Gone(status: WorkerStatus) { status == WorkerStopped || status == Cleaned }

  predicate Ended(status: WorkerStatus) { status == Exited || status == Failed }

  /** Running workers become stabilized; stopped or cleaned ones are forgotten. */
  function Inspected(probes: map<WorkerId, Probe>, workers: map<WorkerId, Worker>): map<WorkerId, Probe> {
    map id | id in probes && !(id in workers && Gone(workers[id].status)) ::
      if id in workers && workers[id].status == WorkerRunning then probes[id].(stabilized := true) else probes[id]
  }

  /** Probe by probe: stopped and cleaned workers lose theirs, running ones are stabilized, all else stays. */
  ghost predicate InspectedInto(was: map<WorkerId, Probe>, listed: map<WorkerId, Worker>,
                                probes: map<WorkerId, Probe>) {
    && (forall id :: id in probes <==>
          id in was && !(id in listed && (listed[id].status == WorkerStopped || listed[id].status == Cleaned)))
    && forall id <- probes ::
         probes[id] == was[id].(stabilized := was[id].stabilized
                                || (id in listed && listed[id].status == WorkerRunning))
  }

  /** Exits are exactly the probed workers listed as exited or failed, with the probes they had. */
  ghost predicate AreExits(exits: seq<Exit>, was: map<WorkerId, Probe>, listed: map<WorkerId, Worker>) {
    && (forall id :: (exists e <- exits :: e.worker == id) <==>
          id in was && id in listed && (listed[id].status == Exited || listed[id].status == Failed))
    && forall e <- exits :: e.worker in was && e.probe == was[e.worker]
                            && e.worker in listed && e.status == listed[e.worker].status
  }

  /** To be asked about: stabilized, not yet known to have claimed, and not among the exits. */
  ghost predicate ArePending(pending: seq<WorkerId>, was: map<WorkerId, Probe>, exits: seq<Exit>) {
    forall id :: id in pending <==>
      id in was && was[id].stabilized && !was[id].claimed && forall e <- exits :: e.worker != id
  }

  /** Known to have claimed are, besides those before, exactly those whose answer showed an attempt. */
  ghost predicate ConfirmedInto(was: map<WorkerId, Probe>, asked: seq<Question>, probes: map<WorkerId, Probe>) {
    && probes.Keys == was.Keys
    && forall id <- was ::
         probes[id] == was[id].(claimed := was[id].claimed
           || exists q <- asked :: q.worker == id && q.answer.Some? && q.answer.value != Unmatched)
  }

  /** No later observation is of the same repository. */
  ghost predicate IsLast(answers: seq<QueueAnswer>, k: nat)
    requires k < |answers|
  {
    forall j: nat | k < j < |answers| :: answers[j].repository != answers[k].repository
  }

  predicate Counted(a: QueueAnswer, counts: map<Repo, Claimable>) {
    if a.counts.Some? then a.repository in counts && counts[a.repository] == a.counts.value
    else a.repository !in counts
  }

  lemma CountsMore(answers: seq<QueueAnswer>, counts: map<Repo, Claimable>, a: QueueAnswer)
    requires AreCounts(answers, counts)
    ensures AreCounts(answers + [a], if a.counts.Some? then counts[a.repository := a.counts.value]
                                     else counts - {a.repository})
  {
    var all := answers + [a];
    var counts' := if a.counts.Some? then counts[a.repository := a.counts.value] else counts - {a.repository};
    forall k: nat | k < |all| && IsLast(all, k) ensures Counted(all[k], counts') {
      if k < |answers| {
        assert all[|answers|].repository != all[k].repository && all[k] == answers[k];
        assert forall j: nat | k < j < |answers| :: all[j] == answers[j];
        assert IsLast(answers, k);
      }
    }
    forall r <- counts' ensures exists x <- all :: x.repository == r && x.counts == Some(counts'[r]) {
      if r == a.repository {
        assert all[|answers|] in all;
      } else {
        var x :| x in answers && x.repository == r && x.counts == Some(counts[r]);
        assert x in all;
      }
    }
  }

  /** Of several observations of one repository the last counts, if it succeeded; and nothing else does. */
  ghost predicate AreCounts(answers: seq<QueueAnswer>, counts: map<Repo, Claimable>) {
    && (forall k: nat | k < |answers| && IsLast(answers, k) :: Counted(answers[k], counts))
    && forall r <- counts :: exists a <- answers :: a.repository == r && a.counts == Some(counts[r])
  }

  function ExitIds(probes: map<WorkerId, Probe>, workers: map<WorkerId, Worker>): set<WorkerId> {
    set id | id in probes && id in workers && Ended(workers[id].status)
  }

  /** The stabilized, unconfirmed probes of workers not seen to have ended. */
  function Unconfirmed(probes: map<WorkerId, Probe>, exited: set<WorkerId>): set<WorkerId> {
    set id | id in probes && probes[id].stabilized && !probes[id].claimed && id !in exited
  }

  function Confirmed(probes: map<WorkerId, Probe>, matched: set<WorkerId>): map<WorkerId, Probe> {
    map id | id in probes :: if id in matched then probes[id].(claimed := true) else probes[id]
  }

  /** The workers whose answer showed at least one attempt. */
  function Matched(asked: seq<Question>): set<WorkerId> {
    set q <- asked | q.answer.Some? && q.answer.value != Unmatched :: q.worker
  }

  lemma MatchedMore(asked: seq<Question>, q: Question)
    ensures Matched(asked + [q]) == Matched(asked) + (if q.answer.Some? && q.answer.value != Unmatched
                                                      then {q.worker} else {})
  {
    assert q in asked + [q] && forall x <- asked :: x in asked + [q];
  }

  /** After these questions exactly the matched workers are confirmed, and all of them have claimed. */
  ghost predicate ConfirmedBy(was: map<WorkerId, Probe>, had: set<WorkerId>, asked: seq<Question>,
                              probes: map<WorkerId, Probe>, claimed: set<WorkerId>) {
    && probes == Confirmed(was, Matched(asked))
    && Matched(asked) <= claimed
    && forall q <- asked :: q.answer.Some? && q.worker in had ==> q.worker in Matched(asked)
  }

  lemma NothingConfirmed(was: map<WorkerId, Probe>, had: set<WorkerId>)
    ensures ConfirmedBy(was, had, [], was, had)
  {
    assert Matched([]) == {};
  }

  lemma ConfirmsMore(was: map<WorkerId, Probe>, had: set<WorkerId>, asked: seq<Question>, q: Question,
                     probes: map<WorkerId, Probe>, claimed: set<WorkerId>, probes': map<WorkerId, Probe>,
                     claimed': set<WorkerId>)
    requires ConfirmedBy(was, had, asked, probes, claimed) && q.worker in probes && had <= claimed <= claimed'
    requires var hit := q.answer.Some? && q.answer.value != Unmatched;
             && (hit ==> q.worker in claimed') && (q.answer.Some? && q.worker in claimed ==> hit)
             && probes' == if hit then probes[q.worker := probes[q.worker].(claimed := true)] else probes
    ensures ConfirmedBy(was, had, asked + [q], probes', claimed')
  {
    MatchedMore(asked, q);
    hide Matched;
    assert probes' == Confirmed(was, Matched(asked + [q]));
  }

  /** The observations that count: the last of each repository, if it succeeded. */
  function Tally(answers: seq<QueueAnswer>): map<Repo, Claimable>
    decreases |answers|
  {
    if answers == [] then map[]
    else
      var t, last := Tally(Front(answers)), Last(answers);
      if last.counts.Some? then t[last.repository := last.counts.value] else t - {last.repository}
  }

  // ---- Reservations ----------------------------------------------------------------------------

  predicate Reserves(p: Probe, lane: LaneKey) { p.stabilized && !p.claimed && p.lane == lane }

  function Reserved(probes: map<WorkerId, Probe>, lane: LaneKey): set<WorkerId> {
    set id | id in probes && Reserves(probes[id], lane)
  }

  function ReservedOf(probes: map<WorkerId, Probe>, among: set<WorkerId>, lane: LaneKey): set<WorkerId> {
    set id | id in among && id in probes && Reserves(probes[id], lane)
  }

  lemma ReservedOfMore(probes: map<WorkerId, Probe>, among: set<WorkerId>, id: WorkerId)
    requires id in probes && id !in among
    ensures forall lane :: |ReservedOf(probes, among + {id}, lane)|
                           == |ReservedOf(probes, among, lane)| + (if Reserves(probes[id], lane) then 1 else 0)
  {
    forall lane ensures |ReservedOf(probes, among + {id}, lane)|
                        == |ReservedOf(probes, among, lane)| + (if Reserves(probes[id], lane) then 1 else 0) {
      assert ReservedOf(probes, among + {id}, lane)
             == ReservedOf(probes, among, lane) + (if Reserves(probes[id], lane) then {id} else {});
    }
  }

  // ---- Sweeping --------------------------------------------------------------------------------

  /**
   Which workspaces the policy gives up: under a count, all but `count` of them, none newer than any
   that is kept; under an age, exactly those eligible for longer than it.
   */
  ghost predicate Due(retain: Retention, times: map<WorkerId, int>, now: int, due: seq<WorkerId>) {
    && Unique(due) && (forall id <- due :: id in times)
    && (retain.age > 0 ==> forall id <- times :: id in due <==> times[id] < now - retain.age)
    && (retain.age <= 0 ==>
          && |due| == Max(0, |times| - retain.count)
          && forall gone, kept :: gone in due && kept in times && kept !in due ==> times[gone] <= times[kept])
  }

  /** Candidates left after cleaning due workspaces in order; `cleaned[k]` says whether the k-th succeeded. */
  function Swept(times: map<WorkerId, int>, due: seq<WorkerId>, cleaned: seq<bool>): map<WorkerId, int>
    requires |due| == |cleaned|
    decreases |due|
  {
    if due == [] then times
    else
      var rest := Swept(times, Front(due), Front(cleaned));
      if Last(cleaned) then rest - {Last(due)} else rest
  }

  function Removed(due: seq<WorkerId>, cleaned: seq<bool>): set<WorkerId>
    requires |due| == |cleaned|
  {
    set k | 0 <= k < |due| && cleaned[k] :: due[k]
  }

  function Count(cleaned: seq<bool>): nat
    decreases |cleaned|
  {
    if cleaned == [] then 0 else Count(Front(cleaned)) + (if Last(cleaned) then 1 else 0)
  }

  lemma NothingSwept(times: map<WorkerId, int>)
    ensures Swept(times, [], []) == times && Count([]) == 0 && Cleanings([]) == []
  {
  }

  lemma SweptMore(times: map<WorkerId, int>, due: seq<WorkerId>, cleaned: seq<bool>, ok: bool)
    requires |cleaned| < |due|
    ensures Swept(times, due[..|cleaned| + 1], cleaned + [ok])
            == (var rest := Swept(times, due[..|cleaned|], cleaned); if ok then rest - {due[|cleaned|]} else rest)
    ensures Count(cleaned + [ok]) == Count(cleaned) + (if ok then 1 else 0)
    ensures due[..|cleaned| + 1] == due[..|cleaned|] + [due[|cleaned|]]
  {
    assert Front(due[..|cleaned| + 1]) == due[..|cleaned|];
    assert Front(cleaned + [ok]) == cleaned;
  }

  lemma RemovedMore(due: seq<WorkerId>, cleaned: seq<bool>)
    requires |due| == |cleaned| > 0 && Unique(due)
    ensures Removed(due, cleaned) == Removed(Front(due), Front(cleaned)) + (if Last(cleaned) then {Last(due)} else {})
    ensures Last(due) !in Removed(Front(due), Front(cleaned))
  {
    var k := |due| - 1;
    forall id <- Removed(due, cleaned) ensures id in Removed(Front(due), Front(cleaned))
      || (Last(cleaned) && id == Last(due)) {
      var j :| 0 <= j < |due| && cleaned[j] && due[j] == id;
      if j < k {
        assert Front(due)[j] == id && Front(cleaned)[j];
      }
    }
    forall id <- Removed(Front(due), Front(cleaned)) ensures id in Removed(due, cleaned) {
      var j :| 0 <= j < k && Front(cleaned)[j] && Front(due)[j] == id;
      assert due[j] == id && cleaned[j];
    }
    if Last(cleaned) {
      assert due[k] == Last(due) && cleaned[k];
    }
  }

  /** A sweep removes exactly the successfully cleaned, each counted once; refused ones stay tracked. */
  lemma {:induction false} SweepRemovesTheCleaned(times: map<WorkerId, int>, due: seq<WorkerId>, cleaned: seq<bool>)
    requires |due| == |cleaned| && Unique(due)
    ensures Swept(times, due, cleaned) == times - Removed(due, cleaned)
    ensures |Removed(due, cleaned)| == Count(cleaned)
    decreases |due|
  {
    if due != [] {
      SweepRemovesTheCleaned(times, Front(due), Front(cleaned));
      RemovedMore(due, cleaned);
    } else {
      assert Removed(due, cleaned) == {};
    }
  }

  function Members(due: seq<WorkerId>): set<WorkerId> { set id | id in due }

  lemma {:induction false} UniqueSize(due: seq<WorkerId>)
    requires Unique(due)
    ensures |Members(due)| == |due|
    decreases |due|
  {
    if due != [] {
      UniqueSize(Front(due));
      assert due == Front(due) + [Last(due)];
      assert Members(due) == Members(Front(due)) + {Last(due)};
    }
  }

  function Refused(due: seq<WorkerId>, cleaned: seq<bool>): set<WorkerId>
    requires |due| == |cleaned|
  {
    set k | 0 <= k < |due| && !cleaned[k] :: due[k]
  }

  lemma RemovedOrRefused(due: seq<WorkerId>, cleaned: seq<bool>)
    requires |due| == |cleaned| && Unique(due)
    ensures Members(due) == Removed(due, cleaned) + Refused(due, cleaned)
            && Removed(due, cleaned) !! Refused(due, cleaned)
  {
    forall id <- due ensures id in Removed(due, cleaned) + Refused(due, cleaned) {
      var k :| 0 <= k < |due| && due[k] == id;
      assert if cleaned[k] then id in Removed(due, cleaned) else id in Refused(due, cleaned);
    }
  }

  lemma NewestAreKept(retain: Retention, times: map<WorkerId, int>, now: int, due: seq<WorkerId>)
    requires Due(retain, times, now, due) && retain.age <= 0
    ensures var kept := times.Keys - Members(due);
            && |kept| == Min(retain.count, |times|) && Unique(due)
            && forall gone <- due, id <- kept :: times[gone] <= times[id]
  {
    UniqueSize(due);
    var kept := times.Keys - Members(due);
    assert times.Keys == kept + Members(due) && |times.Keys| == |kept| + |Members(due)|;
  }

  /**
   A completed sweep under a count keeps tracking exactly that many of the newest candidates (or all, if
   there are fewer), and besides them only those whose cleanup was refused.
   */
  lemma SweepKeepsTheNewest(retain: Retention, times: map<WorkerId, int>, now: int, due: seq<WorkerId>,
                            cleaned: seq<bool>)
    requires Due(retain, times, now, due) && |cleaned| == |due| && retain.age <= 0
    ensures var kept := times.Keys - Members(due);
            && |kept| == Min(retain.count, |times|)
            && (forall gone <- due, id <- kept :: times[gone] <= times[id])
            && Swept(times, due, cleaned).Keys == kept + Refused(due, cleaned)
  {
    hide Swept, Removed, Refused;
    var kept := times.Keys - Members(due);
    NewestAreKept(retain, times, now, due);
    hide Due;
    SweepRemovesTheCleaned(times, due, cleaned);
    RemovedOrRefused(due, cleaned);
    assert (times - Removed(due, cleaned)).Keys == times.Keys - Removed(due, cleaned);
  }

  /** Nothing not yet handled has left the candidates. */
  lemma {:induction false} StillTracked(times: map<WorkerId, int>, due: seq<WorkerId>, cleaned: seq<bool>, k: nat)
    requires Unique(due) && |cleaned| <= k < |due| && due[k] in times
    ensures due[k] in Swept(times, due[..|cleaned|], cleaned)
    decreases |cleaned|
  {
    if cleaned != [] {
      StillTracked(times, due, Front(cleaned), k);
      SweptMore(times, due, Front(cleaned), Last(cleaned));
      assert cleaned == Front(cleaned) + [Last(cleaned)];
    }
  }

  function ReservedCount(counts: map<LaneKey, nat>, lane: LaneKey): nat {
    if lane in counts then counts[lane] else 0
  }

  function Adjusted(count: nat, reserved: nat): nat {
    if count > reserved then count - reserved else 0
  }

  /** Every worker of `own` that may still be waiting has a stabilized probe, unless it was misreported. */
  ghost predicate Stabilised(v: View) {
    forall id <- v.own ::
      id in v.workers && v.workers[id].status == WorkerRunning ==>
        (id in v.probes && v.probes[id].stabilized) || id in v.misreported
  }

  /** Inspecting with the listed inventory stabilizes every worker it did not misreport. */
  lemma InspectionStabilises(v: View, listed: map<WorkerId, Worker>)
    requires Tracked(v) && Reports(v.workers, listed) && Misreported(v.workers, listed) <= v.misreported
    ensures Stabilised(v.(probes := Inspected(v.probes, listed)))
    ensures Tracked(v.(probes := Inspected(v.probes, listed)))
    ensures forall id <- ExitIds(v.probes, listed) :: id in Inspected(v.probes, listed)
  {
    forall id <- v.own | v.workers[id].status == WorkerRunning && id !in v.misreported
      ensures id in Inspected(v.probes, listed) && Inspected(v.probes, listed)[id].stabilized {
      assert id !in Misreported(v.workers, listed);
    }
  }

  lemma StillWaitingIsReserved(mid: View, a: View, lane: LaneKey)
    requires Tracked(mid) && Drifted(mid.workers, mid.claimed, a.workers, a.claimed)
    requires Stabilised(mid) && a.misreported == mid.misreported
    ensures WaitingSeen(a.(own := mid.own), lane) <= Reserved(mid.probes, lane)
  {
    forall id <- WaitingSeen(a.(own := mid.own), lane) ensures id in Reserved(mid.probes, lane) {
      assert Moves(mid.workers[id].status, a.workers[id].status);
    }
  }

  lemma StillWaitingWasWaiting(b: View, mid: View, a: View, lane: LaneKey)
    requires Tracked(b) && mid.own == b.own && b.misreported <= a.misreported
    requires Drifted(b.workers, b.claimed, mid.workers, mid.claimed)
    requires Drifted(mid.workers, mid.claimed, a.workers, a.claimed)
    ensures WaitingSeen(a.(own := mid.own), lane) <= WaitingSeen(b, lane)
  {
    forall id <- WaitingSeen(a.(own := mid.own), lane) ensures id in WaitingSeen(b, lane) {
      assert id in mid.workers && Moves(mid.workers[id].status, a.workers[id].status);
      assert Moves(b.workers[id].status, mid.workers[id].status);
    }
  }

  lemma WaitingSplits(a: View, own: set<WorkerId>, lane: LaneKey)
    ensures |WaitingSeen(a, lane)| <= |WaitingSeen(a.(own := own), lane)| + |Launched(own, a.own, a.workers, lane)|
  {
    var older, newer := WaitingSeen(a.(own := own), lane), Launched(own, a.own, a.workers, lane);
    Included(WaitingSeen(a, lane), older + newer);
    assert |older + newer| <= |older| + |newer|;
  }

  /**
   The reservation argument. `mid` is the moment reservations were counted, `a` the end of the tick:
   the workers waiting at the end are reserved ones, misreported ones and the newly launched, so if the
   tick launched at most what the reservations left of the observed count, no lane ends above its
   claimable work, misreported workers aside.
   */
  lemma ReservationsBoundWaiting(b: View, mid: View, a: View, lane: LaneKey, count: nat)
    requires Tracked(b) && Tracked(mid) && mid.own == b.own
    requires b.misreported <= mid.misreported == a.misreported
    requires Drifted(b.workers, b.claimed, mid.workers, mid.claimed)
    requires Drifted(mid.workers, mid.claimed, a.workers, a.claimed)
    requires Stabilised(mid)
    requires |Launched(mid.own, a.own, a.workers, lane)| <= Adjusted(count, |Reserved(mid.probes, lane)|)
    ensures |WaitingSeen(a, lane)| <= Max(|WaitingSeen(b, lane)|, count)
  {
    StillWaitingIsReserved(mid, a, lane);
    StillWaitingWasWaiting(b, mid, a, lane);
    Included(WaitingSeen(a.(own := mid.own), lane), Reserved(mid.probes, lane));
    Included(WaitingSeen(a.(own := mid.own), lane), WaitingSeen(b, lane));
    WaitingSplits(a, mid.own, lane);
  }

  // ---- Exits -----------------------------------------------------------------------------------

  datatype Verdict = Keep | Forget(candidate: bool) | FailLane(reason: string)

  /** What one correlated exit means for its probe, its workspace and its lane. */
  function Judge(status: WorkerStatus, probe: Probe, outcome: Option<Outcome>): Verdict {
    match outcome
    case None => Keep
    case Some(Completed) => Forget(status == Exited)
    case Some(BlockedItem) => Forget(status == Exited)
    case Some(Released) => Forget(status == Exited)
    case Some(Expired) => Forget(status == Exited)
    case Some(Unmatched) =>
      if !probe.stabilized then FailLane("provider exited before launch stabilized")
      else if status == Failed then FailLane("retained worker terminal failed without a terminal Snowcat outcome")
      else Forget(true)
    case Some(ClaimedNow) => FailLane("provider exited without a terminal Snowcat outcome")
    case Some(Ambiguous) => FailLane("provider exit did not correlate to one Snowcat attempt")
    case Some(Unknown(_)) => Keep
  }

  /** Snowcat told what became of the worker. */
  predicate Answered(answer: Option<Outcome>) { answer.Some? && !answer.value.Unknown? }

  /** The worker left a claim behind, or something unclear, or ended before or without doing anything useful. */
  predicate Fails(e: Exit, answer: Option<Outcome>) {
    answer == Some(ClaimedNow) || answer == Some(Ambiguous)
    || (answer == Some(Unmatched) && (!e.probe.stabilized || e.status == Failed))
  }

  /** Nothing about the workspace can still matter. */
  predicate Settles(e: Exit, answer: Option<Outcome>) { answer.Some? && Settled(Sighting(e, answer.value)) }

  /** The outcome was terminal, or there was none for a stabilized worker that did not fail. */
  predicate Over(e: Exit, outcome: Option<Outcome>) {
    outcome.Some? &&
    (outcome.value in {Completed, BlockedItem, Released, Expired}
     || (outcome.value == Unmatched && e.probe.stabilized && e.status == Exited))
  }

  // ---- Exits as the tick handles them, in order ---------------------------------------------------

  /** The exits of a listed inventory, by ascending worker ID. */
  ghost predicate ExitsOf(exits: seq<Exit>, probes: map<WorkerId, Probe>, workers: map<WorkerId, Worker>) {
    && (forall e <- exits :: e.worker in ExitIds(probes, workers)
                             && e.probe == probes[e.worker] && e.status == workers[e.worker].status)
    && (forall id <- ExitIds(probes, workers) :: exists e <- exits :: e.worker == id)
    && (forall i, j :: 0 <= i < j < |exits| ==> NameOrder.Less(exits[i].worker, exits[j].worker))
  }

  type Answers = seq<Option<Outcome>>

  /** The questions asked about these exits, in order. */
  function Asked(exits: seq<Exit>, answers: Answers): seq<Question>
    requires |exits| == |answers|
  {
    seq(|exits|, k requires 0 <= k < |exits| => Question(exits[k].worker, answers[k]))
  }

  function VerdictOf(e: Exit, answer: Option<Outcome>): Verdict { Judge(e.status, e.probe, answer) }

  /** Workers whose probe the answers forget: those of which Snowcat told what became. */
  function Forgotten(exits: seq<Exit>, answers: Answers): set<WorkerId>
    requires |exits| == |answers|
  {
    set i | 0 <= i < |exits| && Answered(answers[i]) :: exits[i].worker
  }

  /** Workers whose workspace the answers mark for cleanup: those that are settled. */
  function Marked(exits: seq<Exit>, answers: Answers): set<WorkerId>
    requires |exits| == |answers|
  {
    set i | 0 <= i < |exits| && Settles(exits[i], answers[i]) :: exits[i].worker
  }

  /** Lanes the answers fail. */
  function FailedLanes(exits: seq<Exit>, answers: Answers): set<LaneKey>
    requires |exits| == |answers|
  {
    set i | 0 <= i < |exits| && Fails(exits[i], answers[i]) :: exits[i].probe.lane
  }

  /** Lanes paused because Snowcat did not tell, or nothing known. */
  function PausedLanes(exits: seq<Exit>, answers: Answers): set<LaneKey>
    requires |exits| == |answers|
  {
    set i | 0 <= i < |exits| && !Answered(answers[i]) :: exits[i].probe.lane
  }

  /** Each of these sets grows with one more exit by what that exit means. */
  lemma OneMoreAnswer(exits: seq<Exit>, answers: Answers, e: Exit, answer: Option<Outcome>)
    requires |exits| == |answers|
    ensures var x, y := exits + [e], answers + [answer];
            && Forgotten(x, y) == Forgotten(exits, answers) + (if Answered(answer) then {e.worker} else {})
            && Marked(x, y) == Marked(exits, answers) + (if Settles(e, answer) then {e.worker} else {})
            && FailedLanes(x, y) == FailedLanes(exits, answers) + (if Fails(e, answer) then {e.probe.lane} else {})
            && PausedLanes(x, y) == PausedLanes(exits, answers) + (if Answered(answer) then {} else {e.probe.lane})
  {
    hide Answered, Fails, Settles;
    var x, y := exits + [e], answers + [answer];
    assert forall i :: 0 <= i < |exits| ==> x[i] == exits[i] && y[i] == answers[i];
    assert x[|exits|] == e && y[|exits|] == answer;
    forall id <- Forgotten(exits, answers) ensures id in Forgotten(x, y) {
      var i :| 0 <= i < |exits| && Answered(answers[i]) && exits[i].worker == id;
      assert x[i].worker == id;
    }
    forall id <- Marked(exits, answers) ensures id in Marked(x, y) {
      var i :| 0 <= i < |exits| && Settles(exits[i], answers[i]) && exits[i].worker == id;
      assert x[i].worker == id;
    }
    forall lane <- FailedLanes(exits, answers) ensures lane in FailedLanes(x, y) {
      var i :| 0 <= i < |exits| && Fails(exits[i], answers[i]) && exits[i].probe.lane == lane;
      assert x[i].probe.lane == lane;
    }
    forall lane <- PausedLanes(exits, answers) ensures lane in PausedLanes(x, y) {
      var i :| 0 <= i < |exits| && !Answered(answers[i]) && exits[i].probe.lane == lane;
      assert x[i].probe.lane == lane;
    }
  }

  /** Some exit of this lane is not over. */
  ghost predicate SomeNotOver(exits: seq<Exit>, answers: Answers, lane: LaneKey)
    requires |exits| == |answers|
  {
    exists i :: 0 <= i < |exits| && exits[i].probe.lane == lane && !Over(exits[i], answers[i])
  }

  /** A tick's exits fail or pause exactly the lanes of those that are not over: only the others permit refill. */
  lemma LanesHoldExactlyWhenNotOver(exits: seq<Exit>, answers: Answers, lane: LaneKey)
    requires |exits| == |answers| && forall e <- exits :: Ended(e.status)
    ensures lane in FailedLanes(exits, answers) + PausedLanes(exits, answers) <==> SomeNotOver(exits, answers, lane)
  {
    assert forall i :: 0 <= i < |exits| ==> exits[i] in exits;
    if SomeNotOver(exits, answers, lane) {
      var i :| 0 <= i < |exits| && exits[i].probe.lane == lane && !Over(exits[i], answers[i]);
      assert Fails(exits[i], answers[i]) || !Answered(answers[i]);
    }
  }

  function Unexpired(failures: map<LaneKey, LaneFailure>, now: int): map<LaneKey, LaneFailure> {
    map lane | lane in failures && failures[lane].retryAt > now :: failures[lane]
  }

  function RolesOf(lanes: set<LaneKey>): set<Role> { set lane <- lanes :: lane.role }

  /** Lanes that failed since `since` stay backed off and failed for at least five minutes. */
  ghost predicate HeldBack(lanes: set<LaneKey>, backoff: map<BackoffKey, int>, failures: map<LaneKey, LaneFailure>,
                           since: int) {
    forall lane <- lanes ::
      && LaunchBackoff(lane) in backoff && backoff[LaunchBackoff(lane)] >= since + RETRY_DELAY
      && lane in failures && failures[lane].retryAt >= since + RETRY_DELAY
  }

  /** Nothing changed about this delay. */
  ghost predicate SameKey(b: map<BackoffKey, int>, a: map<BackoffKey, int>, key: BackoffKey) {
    (key in a <==> key in b) && (key in b ==> a[key] == b[key])
  }

  /** Nothing changed about when this lane may launch again. */
  ghost predicate SameLane(b: map<BackoffKey, int>, a: map<BackoffKey, int>, lane: LaneKey) {
    SameKey(b, a, LaunchBackoff(lane))
  }

  /** Exactly these lanes failed since `since`: they are held back, and every other delay is as it was. */
  ghost predicate Failing(failures: map<LaneKey, LaneFailure>, failures': map<LaneKey, LaneFailure>,
                          backoff: map<BackoffKey, int>, backoff': map<BackoffKey, int>, failed: set<LaneKey>,
                          since: int) {
    && failures'.Keys == failures.Keys + failed
    && (forall lane <- failures :: lane !in failed ==> failures'[lane] == failures[lane])
    && HeldBack(failed, backoff', failures', since)
    && (forall key: BackoffKey :: !(key.LaunchBackoff? && key.lane in failed) ==> SameKey(backoff, backoff', key))
  }

  /** The verdict by what the answer says. */
  lemma VerdictMeans(e: Exit, answer: Option<Outcome>)
    requires Ended(e.status)
    ensures VerdictOf(e, answer).Keep? <==> !Answered(answer)
    ensures VerdictOf(e, answer).FailLane? <==> Fails(e, answer)
    ensures VerdictOf(e, answer) == Forget(true) <==> Settles(e, answer)
    ensures Settles(e, answer) ==> Answered(answer) && !Fails(e, answer)
  {
  }

  /** Everything an exit's answer can change. */
  datatype Books = Books(
    probes: map<WorkerId, Probe>, candidates: map<WorkerId, int>,
    failures: map<LaneKey, LaneFailure>, backoff: map<BackoffKey, int>)

  /** One exit handled at time `now`. */
  function HandleOne(b: Books, e: Exit, answer: Option<Outcome>, now: int): Books {
    var lane := e.probe.lane;
    match VerdictOf(e, answer)
    case Keep => b
    case Forget(mark) =>
      b.(probes := b.probes - {e.worker},
         candidates := if mark && e.worker !in b.candidates then b.candidates[e.worker := now] else b.candidates)
    case FailLane(reason) =>
      b.(probes := b.probes - {e.worker},
         failures := b.failures[lane := LaneFailure(lane, reason, now + RETRY_DELAY)],
         backoff := b.backoff[LaunchBackoff(lane) := now + RETRY_DELAY])
  }

  /**
   An exit that Snowcat told about loses its probe, one that is settled becomes a candidate, one that fails
   its lane holds it back for the retry delay; an exit it did not tell about changes nothing.
   */
  ghost predicate ActedOn(b: Books, h: Books, e: Exit, answer: Option<Outcome>, now: int) {
    var lane := e.probe.lane;
    && h.probes == (if Answered(answer) then b.probes - {e.worker} else b.probes)
    && h.candidates == (if Settles(e, answer) && e.worker !in b.candidates then b.candidates[e.worker := now]
                        else b.candidates)
    && h.backoff == (if Fails(e, answer) then b.backoff[LaunchBackoff(lane) := now + RETRY_DELAY] else b.backoff)
    && (if Fails(e, answer)
        then lane in h.failures && h.failures[lane].lane == lane && h.failures[lane].retryAt == now + RETRY_DELAY
             && h.failures == b.failures[lane := h.failures[lane]]
        else h.failures == b.failures)
  }

  lemma HandledMeans(b: Books, e: Exit, answer: Option<Outcome>, now: int)
    requires Ended(e.status)
    ensures ActedOn(b, HandleOne(b, e, answer, now), e, answer, now)
  {
    VerdictMeans(e, answer);
    hide VerdictOf, Answered, Fails, Settles;
  }

  function HandleAll(b: Books, exits: seq<Exit>, answers: Answers, times: seq<int>): Books
    requires |exits| == |answers| == |times|
    decreases |exits|
  {
    if exits == [] then b
    else HandleOne(HandleAll(b, Front(exits), Front(answers), Front(times)), Last(exits), Last(answers), Last(times))
  }

  lemma NothingHandled(b: Books)
    ensures HandleAll(b, [], [], []) == b && PausedLanes([], []) == {} && LanesOf([]) == {}
  {
  }

  lemma OneMoreExit(b: Books, exits: seq<Exit>, i: nat, answers: Answers, times: seq<int>, answer: Option<Outcome>,
                    now: int)
    requires i == |answers| == |times| < |exits|
    ensures HandleAll(b, exits[..i + 1], answers + [answer], times + [now])
            == HandleOne(HandleAll(b, exits[..i], answers, times), exits[i], answer, now)
    ensures PausedLanes(exits[..i + 1], answers + [answer])
            == PausedLanes(exits[..i], answers) + (if Answered(answer) then {} else {exits[i].probe.lane})
  {
    assert exits[..i + 1] == exits[..i] + [exits[i]];
    OneMoreAnswer(exits[..i], answers, exits[i], answer);
    assert Front(exits[..i + 1]) == exits[..i];
    assert Front(answers + [answer]) == answers && Front(times + [now]) == times;
  }

  /** `h` is `b` with these probes forgotten, workspaces marked and lanes failed. */
  ghost predicate Accounts(b: Books, h: Books, forgotten: set<WorkerId>, marked: set<WorkerId>, failed: set<LaneKey>,
                           since: int, until: int) {
    && h.probes == b.probes - forgotten
    && h.candidates.Keys == b.candidates.Keys + marked
    && (forall id <- h.candidates ::
          if id in b.candidates then h.candidates[id] == b.candidates[id] else since <= h.candidates[id] <= until)
    && Failing(b.failures, h.failures, b.backoff, h.backoff, failed, since)
  }

  lemma AccountsForget(b: Books, h: Books, forgotten: set<WorkerId>, marked: set<WorkerId>, failed: set<LaneKey>,
                       since: int, until: int, e: Exit, mark: bool, now: int)
    requires Accounts(b, h, forgotten, marked, failed, since, until) && since <= now <= until
    ensures Accounts(b, h.(probes := h.probes - {e.worker},
                           candidates := if mark && e.worker !in h.candidates then h.candidates[e.worker := now]
                             else h.candidates),
                     forgotten + {e.worker}, marked + (if mark then {e.worker} else {}), failed, since, until)
  {
  }

  lemma AccountsFail(b: Books, h: Books, forgotten: set<WorkerId>, marked: set<WorkerId>, failed: set<LaneKey>,
                     since: int, until: int, e: Exit, reason: string, now: int)
    requires Accounts(b, h, forgotten, marked, failed, since, until) && since <= now <= until
    ensures var lane := e.probe.lane;
            Accounts(b, h.(probes := h.probes - {e.worker},
                           failures := h.failures[lane := LaneFailure(lane, reason, now + RETRY_DELAY)],
                           backoff := h.backoff[LaunchBackoff(lane) := now + RETRY_DELAY]),
                     forgotten + {e.worker}, marked, failed + {lane}, since, until)
  {
    HeldBackMore(failed, h.backoff, h.failures, since, e.probe.lane, reason, now);
  }

  lemma AccountsStep(b: Books, h: Books, forgotten: set<WorkerId>, marked: set<WorkerId>, failed: set<LaneKey>,
                     since: int, until: int, e: Exit, answer: Option<Outcome>, now: int)
    requires Accounts(b, h, forgotten, marked, failed, since, until) && since <= now <= until && Ended(e.status)
    ensures Accounts(b, HandleOne(h, e, answer, now),
                     forgotten + (if Answered(answer) then {e.worker} else {}),
                     marked + (if Settles(e, answer) then {e.worker} else {}),
                     failed + (if Fails(e, answer) then {e.probe.lane} else {}), since, until)
  {
    VerdictMeans(e, answer);
    hide VerdictOf, Answered, Fails, Settles, Accounts, RETRY_DELAY;
    assert forgotten + {} == forgotten && marked + {} == marked && failed + {} == failed;
    match VerdictOf(e, answer)
    case Keep =>
    case Forget(mark) => AccountsForget(b, h, forgotten, marked, failed, since, until, e, mark, now);
    case FailLane(reason) => AccountsFail(b, h, forgotten, marked, failed, since, until, e, reason, now);
  }

  lemma HeldBackMore(lanes: set<LaneKey>, backoff: map<BackoffKey, int>, failures: map<LaneKey, LaneFailure>,
                     since: int, lane: LaneKey, reason: string, now: int)
    requires HeldBack(lanes, backoff, failures, since) && since <= now
    ensures HeldBack(lanes + {lane}, backoff[LaunchBackoff(lane) := now + RETRY_DELAY],
                     failures[lane := LaneFailure(lane, reason, now + RETRY_DELAY)], since)
  {
  }

  /** What handling all exits amounts to, lane by lane and worker by worker. */
  lemma {:induction false} HandledExits(b: Books, exits: seq<Exit>, answers: Answers, times: seq<int>, since: int,
                                        until: int)
    requires |exits| == |answers| == |times| && forall e <- exits :: Ended(e.status)
    requires forall t <- times :: since <= t <= until
    ensures Accounts(b, HandleAll(b, exits, answers, times),
                     Forgotten(exits, answers), Marked(exits, answers), FailedLanes(exits, answers), since, until)
    decreases |exits|
  {
    if exits != [] {
      hide Answered, Settles, Fails, Accounts, HandleOne;
      assert exits == Front(exits) + [Last(exits)] && answers == Front(answers) + [Last(answers)];
      OneMoreAnswer(Front(exits), Front(answers), Last(exits), Last(answers));
      assert Last(exits) in exits && forall e <- Front(exits) :: e in exits;
      assert forall t <- Front(times) :: t in times;
      assert Last(times) in times;
      HandledExits(b, Front(exits), Front(answers), Front(times), since, until);
      AccountsStep(b, HandleAll(b, Front(exits), Front(answers), Front(times)),
                   Forgotten(Front(exits), Front(answers)), Marked(Front(exits), Front(answers)),
                   FailedLanes(Front(exits), Front(answers)), since, until, Last(exits), Last(answers), Last(times));
    }
  }

  function LanesOf(failures: seq<LaneFailure>): set<LaneKey> {
    set f <- failures :: f.lane
  }

  lemma LanesOfMore(failures: seq<LaneFailure>, f: LaneFailure)
    ensures LanesOf(failures + [f]) == LanesOf(failures) + {f.lane}
  {
    forall lane <- LanesOf(failures) + {f.lane} ensures lane in LanesOf(failures + [f]) {
      if lane == f.lane {
        assert f in failures + [f];
      } else {
        var x :| x in failures && x.lane == lane;
        assert x in failures + [f];
      }
    }
  }

  // ---- Between listing and launching ---------------------------------------------------------------

  /** What every step between listing the workers and launching keeps. */
  ghost predicate InTick(v: View, listed: map<WorkerId, Worker>, exits: seq<Exit>) {
    && Tracked(v) && CleansOnlySettled(v)
    && Stabilised(v)
    && Since(listed, v.workers, v.misreported)
    && (forall e <- exits :: e.worker in listed && Ended(e.status) && e.status == listed[e.worker].status)
  }

  lemma InTickDrifts(v: View, w: map<WorkerId, Worker>, c: set<WorkerId>, listed: map<WorkerId, Worker>,
                     exits: seq<Exit>)
    requires InTick(v, listed, exits) && Drifted(v.workers, v.claimed, w, c)
    ensures InTick(v.(workers := w, claimed := c), listed, exits)
  {
    DriftKeepsTracked(v, v.(workers := w, claimed := c));
    StabilisedDrifts(v, w, c);
    ForgettingClaims(v.workers, v.claimed, w, c);
    SinceDrifts(listed, v.workers, w, v.misreported);
    assert CleansOnlySettled(v.(workers := w, claimed := c)) by { SameCleaning(v, v.(workers := w, claimed := c)); }
  }

  lemma StabilisedDrifts(v: View, w: map<WorkerId, Worker>, c: set<WorkerId>)
    requires Stabilised(v) && Tracked(v) && Drifted(v.workers, v.claimed, w, c)
    ensures Stabilised(v.(workers := w, claimed := c))
  {
    forall id <- v.own | id in w && w[id].status == WorkerRunning
      ensures (id in v.probes && v.probes[id].stabilized) || id in v.misreported {
      assert Moves(v.workers[id].status, w[id].status);
    }
  }

  lemma SameCleaning(v: View, v': View)
    requires CleansOnlySettled(v)
    requires v'.candidates == v.candidates && v'.cleanups == v.cleanups && v.sightings <= v'.sightings
    ensures CleansOnlySettled(v')
  {
    forall id | SettledWorker(v, id) ensures SettledWorker(v', id) {
    }
  }

  lemma InTickConfirms(v: View, id: WorkerId, listed: map<WorkerId, Worker>, exits: seq<Exit>)
    requires InTick(v, listed, exits) && id in v.probes && id in v.claimed
    ensures InTick(v.(probes := v.probes[id := v.probes[id].(claimed := true)]), listed, exits)
  {
    SameCleaning(v, v.(probes := v.probes[id := v.probes[id].(claimed := true)]));
  }

  lemma EndedStaysEnded(v: View, e: Exit, listed: map<WorkerId, Worker>, exits: seq<Exit>)
    requires InTick(v, listed, exits) && e in exits
    ensures e.worker in v.workers && (v.workers[e.worker].status != WorkerRunning || e.worker in v.misreported)
  {
    assert Moves(listed[e.worker].status, v.workers[e.worker].status) || e.worker in v.misreported;
  }

  lemma MarkedAreSettled(exits: seq<Exit>, answers: Answers, v: View)
    requires |exits| == |answers|
    requires forall i :: 0 <= i < |exits| && answers[i].Some? ==> Sighting(exits[i], answers[i].value) in v.sightings
    ensures forall id <- Marked(exits, answers) :: SettledWorker(v, id)
  {
    forall id <- Marked(exits, answers) ensures SettledWorker(v, id) {
      var i :| 0 <= i < |exits| && Settles(exits[i], answers[i]) && exits[i].worker == id;
      assert Sighting(exits[i], answers[i].value) in v.sightings;
    }
  }

  lemma ForgottenAreExits(exits: seq<Exit>, answers: Answers)
    requires |exits| == |answers|
    ensures forall id <- Forgotten(exits, answers) :: exists e <- exits :: e.worker == id
  {
    forall id <- Forgotten(exits, answers) ensures exists e <- exits :: e.worker == id {
      var i :| 0 <= i < |exits| && Answered(answers[i]) && exits[i].worker == id;
      assert exits[i] in exits;
    }
  }

  /** Handled exits forget probes whose workers have ended, and mark only what was seen settled. */
  lemma InTickHandlesExits(v: View, v': View, answers: Answers, listed: map<WorkerId, Worker>, exits: seq<Exit>)
    requires InTick(v, listed, exits) && |answers| == |exits|
    requires forall i :: 0 <= i < |exits| && answers[i].Some? ==> Sighting(exits[i], answers[i].value) in v'.sightings
    requires v.sightings <= v'.sightings
    requires Drifted(v.workers, v.claimed, v'.workers, v'.claimed)
    requires v'.probes == v.probes - Forgotten(exits, answers)
    requires v'.candidates == v.candidates + Marked(exits, answers)
    requires v'.own == v.own && v'.cleanups == v.cleanups && v'.misreported == v.misreported
    ensures InTick(v', listed, exits)
  {
    var u := v.(workers := v'.workers, claimed := v'.claimed);
    InTickDrifts(v, v'.workers, v'.claimed, listed, exits);
    ForgottenAreExits(exits, answers);
    MarkedAreSettled(exits, answers, v');
    forall id <- Forgotten(exits, answers)
      ensures id in u.workers && (u.workers[id].status != WorkerRunning || id in u.misreported) {
      var e :| e in exits && e.worker == id;
      EndedStaysEnded(u, e, listed, exits);
    }
    SettledGrows(v, v');
    assert Tracked(v');
  }

  lemma SettledGrows(v: View, v': View)
    requires v.sightings <= v'.sightings
    ensures forall id :: SettledWorker(v, id) ==> SettledWorker(v', id)
  {
  }

  /** Cleaning some candidates, whatever came of it, keeps the tick's invariant. */
  lemma InTickSweeps(v: View, v': View, handled: seq<WorkerId>, listed: map<WorkerId, Worker>, exits: seq<Exit>)
    requires InTick(v, listed, exits)
    requires Drifted(v.workers, v.claimed, v'.workers, v'.claimed)
    requires forall id <- handled :: id in v.candidates
    requires v'.candidates <= v.candidates && v'.cleanups == v.cleanups + handled
    requires v' == v.(workers := v'.workers, claimed := v'.claimed, candidates := v'.candidates,
                      cleanups := v'.cleanups)
    ensures InTick(v', listed, exits)
  {
    InTickDrifts(v, v'.workers, v'.claimed, listed, exits);
    SettledGrows(v, v');
    forall id <- v'.cleanups ensures SettledWorker(v', id) {
      if id in handled {
        assert SettledWorker(v, id);
      }
    }
  }

  // ---- Launching ---------------------------------------------------------------------------------------

  /** Only `key` changed, and it now holds for at least five minutes from `since`. */
  ghost predicate BackedOff(b: map<BackoffKey, int>, b': map<BackoffKey, int>, key: BackoffKey, since: int) {
    key in b' && b'[key] >= since + RETRY_DELAY && b' == b[key := b'[key]]
  }

  predicate Usable(base: Option<string>) { base.Some? && base.value != "" }

  /**
   What a turn asks of the outside. An implementer's repository is set up again first, once, and the
   launch is issued exactly when that gave a base, pinned to it; any other role's launch is always issued,
   pinned to the base the campaign holds. A late launch says why it is late.
   */
  ghost predicate Issued(m: Managed, role: Role, r: Option<WorkerId>, before: seq<Attempt>, after: seq<Attempt>,
                         asked: seq<SetupAnswer>, asked': seq<SetupAnswer>, done: bool) {
    && before <= after && |after| <= |before| + 1
    && (if role == Implementer then
          && |asked'| == |asked| + 1 && asked <= asked' && asked'[|asked|].repository == m.repository
          && (|after| == |before| + 1 <==> Usable(asked'[|asked|].base))
          && (|after| == |before| + 1 ==> after[|before|].base == asked'[|asked|].base.value)
        else
          asked' == asked && |after| == |before| + 1 && after[|before|].base == m.base)
    && (r.Some? ==> |after| == |before| + 1)
    && (|after| == |before| + 1 ==>
          var a := after[|before|];
          && a.lane == LaneKey(m.repository, role) && a.worker == r
          && (a.afterStop ==> done)
          && (a.afterLoss ==> a.afterStop && role == Implementer && a.refreshWrote == Some(false)))
  }

  lemma TrackDrifts(v: View, v': View)
    requires Tracked(v) && CleansOnlySettled(v)
    requires Drifted(v.workers, v.claimed, v'.workers, v'.claimed)
    requires v' == v.(workers := v'.workers, claimed := v'.claimed, attempts := v'.attempts,
                      misreported := v'.misreported)
    requires v.misreported <= v'.misreported
    ensures Tracked(v') && CleansOnlySettled(v')
  {
    DriftKeepsTracked(v, v');
    SameCleaning(v, v');
  }

  lemma TrackLaunches(v: View, v': View, id: WorkerId, lane: LaneKey)
    requires Tracked(v) && CleansOnlySettled(v)
    requires Drifted(v.workers, v.claimed, v'.workers, v'.claimed)
    requires id !in v.workers && id in v'.workers && v'.workers[id] == Worker(lane, WorkerRunning)
    requires v' == v.(workers := v'.workers, claimed := v'.claimed, attempts := v'.attempts,
                      own := v.own + {id}, probes := v.probes[id := Probe(lane, false, false)])
    ensures Tracked(v') && CleansOnlySettled(v')
  {
    DriftKeepsTracked(v, v.(workers := v'.workers, claimed := v'.claimed));
    SameCleaning(v, v');
  }
}
