/**
 The launch loop of one lane as arithmetic on values: how passes over the repositories share the
 remaining capacity, and what the log of started workers says about the workers that exist.
 */
module CampaignLaunch {
  import opened Prelude
  import opened CampaignTypes
  import opened CampaignRuns
  import opened CampaignTracking

  /** How one repository's turn ended. */
  datatype Turn = Ended | Nothing | HeldOff | Refused | Launch(worker: WorkerId)

  datatype Started = Started(lane: LaneKey, worker: WorkerId)

  // ---- The log and the workers ---------------------------------------------------------------

  function CountLane(log: seq<Started>, lane: LaneKey): nat
    decreases |log|
  {
    if log == [] then 0 else CountLane(Front(log), lane) + (if Last(log).lane == lane then 1 else 0)
  }

  function CountRole(log: seq<Started>, role: Role): nat
    decreases |log|
  {
    if log == [] then 0 else CountRole(Front(log), role) + (if Last(log).lane.role == role then 1 else 0)
  }

  lemma CountMore(log: seq<Started>, s: Started)
    ensures forall lane :: CountLane(log + [s], lane) == CountLane(log, lane) + (if s.lane == lane then 1 else 0)
    ensures forall role :: CountRole(log + [s], role) == CountRole(log, role) + (if s.lane.role == role then 1 else 0)
  {
    assert Front(log + [s]) == log && Last(log + [s]) == s;
  }

  /** `log` lists, once each, exactly the workers added to `own`. */
  ghost predicate Logged(own: set<WorkerId>, own': set<WorkerId>, workers: map<WorkerId, Worker>, log: seq<Started>) {
    && (forall id :: id in own' <==> id in own || exists k :: 0 <= k < |log| && log[k].worker == id)
    && (forall k :: 0 <= k < |log| ==> log[k].worker !in own && log[k].worker in workers
                                       && workers[log[k].worker].lane == log[k].lane)
    && (forall j, k :: 0 <= j < k < |log| ==> log[j].worker != log[k].worker)
  }

  lemma LoggedMore(own: set<WorkerId>, own': set<WorkerId>, workers: map<WorkerId, Worker>, log: seq<Started>,
                   s: Started, workers': map<WorkerId, Worker>)
    requires Logged(own, own', workers, log) && own' <= workers.Keys && Drifted(workers, {}, workers', {})
    requires s.worker !in workers && s.worker in workers' && workers'[s.worker].lane == s.lane
    ensures Logged(own, own' + {s.worker}, workers', log + [s])
  {
    assert (log + [s])[|log|] == s;
    forall id ensures id in own' + {s.worker} <==>
                      id in own || exists k :: 0 <= k < |log + [s]| && (log + [s])[k].worker == id {
      if id in own' && id !in own {
        var k :| 0 <= k < |log| && log[k].worker == id;
        assert (log + [s])[k].worker == id;
      }
    }
  }

  lemma LoggedDrifts(own: set<WorkerId>, own': set<WorkerId>, workers: map<WorkerId, Worker>, log: seq<Started>,
                     workers': map<WorkerId, Worker>)
    requires Logged(own, own', workers, log) && Drifted(workers, {}, workers', {})
    ensures Logged(own, own', workers', log)
  {
  }

  ghost function LoggedIn(log: seq<Started>, lane: LaneKey): set<WorkerId> {
    set k | 0 <= k < |log| && log[k].lane == lane :: log[k].worker
  }

  ghost function LoggedBy(log: seq<Started>, role: Role): set<WorkerId> {
    set k | 0 <= k < |log| && log[k].lane.role == role :: log[k].worker
  }

  lemma LoggedOneMore(log: seq<Started>, lane: LaneKey, role: Role)
    requires log != []
    ensures LoggedIn(log, lane) == LoggedIn(Front(log), lane)
            + (if Last(log).lane == lane then {Last(log).worker} else {})
    ensures LoggedBy(log, role) == LoggedBy(Front(log), role)
            + (if Last(log).lane.role == role then {Last(log).worker} else {})
  {
    var k := |log| - 1;
    assert forall j :: 0 <= j < k ==> Front(log)[j] == log[j];
    forall id ensures id in LoggedIn(log, lane) <==>
                      id in LoggedIn(Front(log), lane) || (log[k].lane == lane && id == log[k].worker) {
      if id in LoggedIn(Front(log), lane) {
        var j :| 0 <= j < k && Front(log)[j].lane == lane && Front(log)[j].worker == id;
        assert log[j].worker == id;
      }
    }
    forall id ensures id in LoggedBy(log, role) <==>
                      id in LoggedBy(Front(log), role) || (log[k].lane.role == role && id == log[k].worker) {
      if id in LoggedBy(Front(log), role) {
        var j :| 0 <= j < k && Front(log)[j].lane.role == role && Front(log)[j].worker == id;
        assert log[j].worker == id;
      }
    }
  }

  lemma LastIsNew(log: seq<Started>, lane: LaneKey, role: Role)
    requires log != [] && forall j, k :: 0 <= j < k < |log| ==> log[j].worker != log[k].worker
    ensures Last(log).worker !in LoggedIn(Front(log), lane) && Last(log).worker !in LoggedBy(Front(log), role)
  {
    forall j | 0 <= j < |Front(log)| ensures Front(log)[j].worker != Last(log).worker {
      assert Front(log)[j] == log[j];
    }
  }

  lemma {:induction false} LogSizes(log: seq<Started>, lane: LaneKey, role: Role)
    requires forall j, k :: 0 <= j < k < |log| ==> log[j].worker != log[k].worker
    ensures |LoggedIn(log, lane)| == CountLane(log, lane) && |LoggedBy(log, role)| == CountRole(log, role)
    decreases |log|
  {
    hide LoggedIn, LoggedBy;
    if log == [] {
      NothingLogged(lane, role);
    } else {
      LogSizes(Front(log), lane, role);
      LoggedOneMore(log, lane, role);
      LastIsNew(log, lane, role);
    }
  }

  lemma NothingLogged(lane: LaneKey, role: Role)
    ensures LoggedIn([], lane) == {} && LoggedBy([], role) == {}
  {
  }

  /** The log counts exactly the workers launched, by lane and by role. */
  lemma LogCountsLaunched(own: set<WorkerId>, own': set<WorkerId>, workers: map<WorkerId, Worker>, log: seq<Started>,
                          lane: LaneKey, role: Role)
    requires Logged(own, own', workers, log)
    ensures |Launched(own, own', workers, lane)| == CountLane(log, lane)
    ensures |LaunchedFor(own, own', workers, role)| == CountRole(log, role)
  {
    LogSizes(log, lane, role);
    assert Launched(own, own', workers, lane) == LoggedIn(log, lane);
    assert LaunchedFor(own, own', workers, role) == LoggedBy(log, role);
  }

  // ---- Sharing the remaining capacity ------------------------------------------------------------

  /** What a lane's launch loop has done so far. */
  datatype LaneRun = LaneRun(left: map<Repo, nat>, remaining: nat, log: seq<Started>, refused: seq<Repo>)

  function After(run: LaneRun, name: Repo, role: Role, t: Turn): LaneRun
    requires t.Launch? ==> name in run.left && run.left[name] > 0 && run.remaining > 0
  {
    match t
    case Launch(id) => run.(left := run.left[name := run.left[name] - 1], remaining := run.remaining - 1,
                            log := run.log + [Started(LaneKey(name, role), id)])
    case Refused => run.(refused := run.refused + [name])
    case _ => run
  }

  /** Counts, log and capacity always add up, and only this role's observed repositories are served. */
  ghost predicate Balanced(role: Role, counts: map<Repo, nat>, budget: nat, run: LaneRun) {
    && run.left.Keys == counts.Keys
    && (forall r <- counts :: run.left[r] + CountLane(run.log, LaneKey(r, role)) == counts[r])
    && (forall lane: LaneKey :: lane.role != role || lane.repository !in counts ==> CountLane(run.log, lane) == 0)
    && CountRole(run.log, role) == |run.log| && (forall role' :: role' != role ==> CountRole(run.log, role') == 0)
    && run.remaining + |run.log| == budget
  }

  lemma TurnKeepsBalance(role: Role, counts: map<Repo, nat>, budget: nat, run: LaneRun, name: Repo, t: Turn)
    requires Balanced(role, counts, budget, run)
    requires t.Launch? ==> name in run.left && run.left[name] > 0 && run.remaining > 0
    ensures Balanced(role, counts, budget, After(run, name, role, t))
  {
    if t.Launch? {
      CountMore(run.log, Started(LaneKey(name, role), t.worker));
    }
  }

  /** How many workers repository `r` has received in this lane. */
  function Got(run: LaneRun, role: Role, r: Repo): nat {
    CountLane(run.log, LaneKey(r, role))
  }

  /**
   Round-robin with the clock standing still: after p full passes and i turns of the next one, every
   repository that was not held off and not refused has received min(count, passes it has had).
   */
  ghost predicate InStep(role: Role, names: seq<Repo>, counts: map<Repo, nat>, held: set<Repo>, run: LaneRun, p: nat,
                         i: nat) {
    && (forall j :: 0 <= j < |names| && names[j] in counts && names[j] in held ==> Got(run, role, names[j]) == 0)
    && (forall j :: 0 <= j < |names| && names[j] in counts && names[j] !in held && names[j] !in run.refused ==>
          Got(run, role, names[j]) == Min(counts[names[j]], if j < i then p + 1 else p))
    && (forall j :: 0 <= j < |names| && names[j] in counts && names[j] in run.refused ==>
          names[j] !in held && Got(run, role, names[j]) <= Min(counts[names[j]], if j < i then p + 1 else p))
    && Unique(run.refused) && (forall r <- run.refused :: r in names && r in counts)
  }

  lemma StepFromGot(names: seq<Repo>, counts: map<Repo, nat>, held: set<Repo>, role: Role, run: LaneRun, run': LaneRun,
                    p: nat, i: nat, t: Turn)
    requires InStep(role, names, counts, held, run, p, i) && Unique(names) && i < |names| && !t.Ended?
    requires t.Nothing? <==> names[i] !in counts || Got(run, role, names[i]) == counts[names[i]]
    requires !t.Nothing? ==> (t.HeldOff? <==> names[i] in held || names[i] in run.refused)
    requires forall r <- counts :: Got(run', role, r) == Got(run, role, r)
                                   + (if t.Launch? && r == names[i] then 1 else 0)
    requires run'.refused == if t.Refused? then run.refused + [names[i]] else run.refused
    ensures InStep(role, names, counts, held, run', p, i + 1)
  {
    hide Got;
    assert forall j :: 0 <= j < |names| && j != i ==> names[j] != names[i];
  }

  lemma TurnKeepsStep(role: Role, names: seq<Repo>, counts: map<Repo, nat>, budget: nat, held: set<Repo>, run: LaneRun,
                      p: nat, i: nat, t: Turn)
    requires Balanced(role, counts, budget, run) && InStep(role, names, counts, held, run, p, i)
    requires Unique(names) && i < |names| && !t.Ended?
    requires t.Launch? ==> run.remaining > 0
    requires t.Nothing? <==> names[i] !in counts || run.left[names[i]] == 0
    requires !t.Nothing? ==> (t.HeldOff? <==> names[i] in held || names[i] in run.refused)
    ensures InStep(role, names, counts, held, After(run, names[i], role, t), p, i + 1)
  {
    var r := names[i];
    GotAfter(run, role, r, t);
    StepFromGot(names, counts, held, role, run, After(run, r, role, t), p, i, t);
  }

  /** A launch gives its repository one more worker; no turn changes anything for the others. */
  lemma GotAfter(run: LaneRun, role: Role, name: Repo, t: Turn)
    requires t.Launch? ==> name in run.left && run.left[name] > 0 && run.remaining > 0
    ensures forall r: Repo :: Got(After(run, name, role, t), role, r) == Got(run, role, r)
                              + (if t.Launch? && r == name then 1 else 0)
    ensures After(run, name, role, t).refused == if t.Refused? then run.refused + [name] else run.refused
  {
    if t.Launch? {
      CountMore(run.log, Started(LaneKey(name, role), t.worker));
    }
  }

  lemma PassEnds(role: Role, names: seq<Repo>, counts: map<Repo, nat>, held: set<Repo>, run: LaneRun, p: nat)
    requires InStep(role, names, counts, held, run, p, |names|)
    ensures InStep(role, names, counts, held, run, p + 1, 0)
  {
  }

  /** A pass that launched nothing, with nothing newly refused after it, found every served repository exhausted. */
  ghost predicate Exhausted(role: Role, names: seq<Repo>, counts: map<Repo, nat>, held: set<Repo>, run: LaneRun) {
    forall r <- names :: r in counts && r !in held && r !in run.refused ==> Got(run, role, r) == counts[r]
  }

  /** A served repository is at most one worker behind another, unless its own count is used up. */
  ghost predicate Fair(role: Role, names: seq<Repo>, counts: map<Repo, nat>, held: set<Repo>, run: LaneRun) {
    forall r <- names, s <- names ::
      r in counts && s in counts && r !in held && s !in held && s !in run.refused ==>
        Got(run, role, r) <= Got(run, role, s) + 1 || Got(run, role, s) == counts[s]
  }

  lemma InStepIsFair(role: Role, names: seq<Repo>, counts: map<Repo, nat>, held: set<Repo>, run: LaneRun, p: nat,
                     i: nat)
    requires InStep(role, names, counts, held, run, p, i)
    ensures Fair(role, names, counts, held, run)
  {
    forall r <- names, s <- names | r in counts && s in counts && r !in held && s !in held && s !in run.refused
      ensures Got(run, role, r) <= Got(run, role, s) + 1 || Got(run, role, s) == counts[s]
    {
      var j :| 0 <= j < |names| && names[j] == r;
      var k :| 0 <= k < |names| && names[k] == s;
      assert Got(run, role, names[j]) <= Min(counts[r], p + 1);
      assert Got(run, role, names[k]) >= Min(counts[s], p);
    }
  }

  // ---- Exactly min(capacity, claimable) ---------------------------------------------------------------

  /** The claimable work of the repositories a lane may serve. */
  function Servable(names: seq<Repo>, counts: map<Repo, nat>, held: set<Repo>): nat {
    if names == [] then 0
    else (if names[0] in counts && names[0] !in held then counts[names[0]] else 0) + Servable(names[1..], counts, held)
  }

  function Sum(names: seq<Repo>, log: seq<Started>, role: Role): nat {
    if names == [] then 0 else CountLane(log, LaneKey(names[0], role)) + Sum(names[1..], log, role)
  }

  lemma {:induction false} SumOfNothing(names: seq<Repo>, role: Role)
    ensures Sum(names, [], role) == 0
  {
    if names != [] { SumOfNothing(names[1..], role); }
  }

  lemma {:induction false} SumMore(names: seq<Repo>, log: seq<Started>, s: Started)
    requires Unique(names)
    ensures Sum(names, log + [s], s.lane.role) == Sum(names, log, s.lane.role)
            + (if s.lane.repository in names then 1 else 0)
  {
    CountMore(log, s);
    if names != [] {
      assert Unique(names[1..]);
      SumMore(names[1..], log, s);
      assert forall x :: x in names <==> x == names[0] || x in names[1..];
      assert names[0] !in names[1..];
    }
  }

  lemma {:induction false} SumIsLog(names: seq<Repo>, log: seq<Started>, role: Role)
    requires Unique(names)
    requires forall s <- log :: s.lane.role == role && s.lane.repository in names
    ensures Sum(names, log, role) == |log|
    decreases |log|
  {
    if log == [] {
      SumOfNothing(names, role);
    } else {
      SumIsLog(names, Front(log), role);
      SumMore(names, Front(log), Last(log));
      assert log == Front(log) + [Last(log)];
      assert Last(log) in log;
    }
  }

  lemma {:induction false} SumWithinServable(names: seq<Repo>, counts: map<Repo, nat>, held: set<Repo>,
                                             log: seq<Started>, role: Role)
    requires forall r <- names :: CountLane(log, LaneKey(r, role)) <= (if r in counts && r !in held then counts[r]
                                                                       else 0)
    ensures Sum(names, log, role) <= Servable(names, counts, held)
    ensures (forall r <- names :: CountLane(log, LaneKey(r, role)) == (if r in counts && r !in held then counts[r]
                                                                       else 0)) ==>
              Sum(names, log, role) == Servable(names, counts, held)
  {
    if names != [] {
      SumWithinServable(names[1..], counts, held, log, role);
    }
  }

  /**
   With a standing clock and no refusal, the loop launches exactly the smaller of the lane's remaining
   capacity and the claimable work it may serve.
   */
  lemma LaunchesExactlyTheMinimum(
    role: Role, names: seq<Repo>, counts: map<Repo, nat>, budget: nat, held: set<Repo>, run: LaneRun, p: nat, i: nat)
    requires Unique(names) && Balanced(role, counts, budget, run) && InStep(role, names, counts, held, run, p, i)
    requires run.refused == []
    requires forall s <- run.log :: s.lane.role == role && s.lane.repository in names
    requires run.remaining == 0 || Exhausted(role, names, counts, held, run)
    ensures |run.log| == Min(budget, Servable(names, counts, held))
  {
    SumIsLog(names, run.log, role);
    forall r <- names ensures CountLane(run.log, LaneKey(r, role)) <= (if r in counts && r !in held then counts[r]
                                                                       else 0) {
      var j :| 0 <= j < |names| && names[j] == r;
    }
    if run.remaining != 0 {
      forall r <- names ensures CountLane(run.log, LaneKey(r, role)) == (if r in counts && r !in held then counts[r]
                                                                         else 0) {
        var j :| 0 <= j < |names| && names[j] == r;
      }
    }
    SumWithinServable(names, counts, held, run.log, role);
  }

  // ---- Attempts of a loop ----------------------------------------------------------------------------

  /** The attempts issued since `before` respect the end of the run, and a late one means it is over. */
  ghost predicate WellIssued(before: seq<Attempt>, after: seq<Attempt>, done: bool) {
    && before <= after
    && EndRespected(after[|before|..])
    && ((exists x <- after[|before|..] :: x.afterStop) ==> done)
  }

  lemma IssueMore(before: seq<Attempt>, mid: seq<Attempt>, after: seq<Attempt>, done: bool)
    requires WellIssued(before, mid, false)
    requires mid <= after && |after| <= |mid| + 1
    requires |after| == |mid| + 1 ==>
               var a := after[|mid|];
               (a.afterStop ==> done)
               && (a.afterLoss ==> a.afterStop && a.lane.role == Implementer && a.refreshWrote == Some(false))
    ensures WellIssued(before, after, done)
  {
    var added, added' := mid[|before|..], after[|before|..];
    assert forall k :: 0 <= k < |added| ==> added[k] in added && added'[k] == added[k];
    if |after| == |mid| + 1 {
      assert added' == added + [after[|mid|]];
    } else {
      assert added' == added;
    }
  }

  // ---- One turn after another ----------------------------------------------------------------------

  /** What the launch loop reads and changes. */
  datatype Scene = Scene(
    own: set<WorkerId>, workers: map<WorkerId, Worker>, attempts: seq<Attempt>,
    backoff: map<BackoffKey, int>, clock: int, done: bool,
    probes: map<WorkerId, Probe>, ids: seq<WorkerId>, tidied: nat)   // and what is on the record

  function Ids(log: seq<Started>): seq<WorkerId> {
    seq(|log|, k requires 0 <= k < |log| => log[k].worker)
  }

  /** The probes with a fresh one for every started worker. */
  function Probed(probes: map<WorkerId, Probe>, log: seq<Started>): map<WorkerId, Probe>
    decreases |log|
  {
    if log == [] then probes else Probed(probes, Front(log))[Last(log).worker := Probe(Last(log).lane, false, false)]
  }

  /** Every started worker has a probe and is on the record, in order. */
  ghost predicate Recorded(o: Scene, s: Scene, log: seq<Started>) {
    s.probes == Probed(o.probes, log) && s.ids == o.ids + Ids(log) && s.tidied == o.tidied
  }

  lemma RecordedMore(o: Scene, b: Scene, a: Scene, log: seq<Started>, s: Started)
    requires Recorded(o, b, log)
    requires a.probes == b.probes[s.worker := Probe(s.lane, false, false)] && a.ids == b.ids + [s.worker]
             && a.tidied == b.tidied
    ensures Recorded(o, a, log + [s])
  {
    assert Front(log + [s]) == log && Ids(log + [s]) == Ids(log) + [s.worker];
  }

  lemma {:induction false} ProbedJoin(probes: map<WorkerId, Probe>, x: seq<Started>, y: seq<Started>)
    ensures Probed(probes, x + y) == Probed(Probed(probes, x), y)
    decreases |y|
  {
    if y == [] {
      assert x + y == x;
    } else {
      ProbedJoin(probes, x, Front(y));
      assert Front(x + y) == x + Front(y) && Last(x + y) == Last(y);
    }
  }

  lemma RecordsJoin(o: Scene, b: Scene, a: Scene, x: seq<Started>, y: seq<Started>)
    requires Recorded(o, b, x) && Recorded(b, a, y)
    ensures Recorded(o, a, x + y)
  {
    ProbedJoin(o.probes, x, y);
    assert Ids(x + y) == Ids(x) + Ids(y);
  }

  ghost predicate Held(s: Scene, lane: LaneKey) {
    LaunchBackoff(lane) in s.backoff && s.backoff[LaunchBackoff(lane)] > s.clock
  }

  /** The lane is backed off, and still was at the later time `now`. */
  ghost predicate HeldPast(s: Scene, lane: LaneKey, now: int) {
    LaunchBackoff(lane) in s.backoff && s.backoff[LaunchBackoff(lane)] > now
  }

  /** No lane whose backoff of the beginning lasts beyond `now` got a worker. */
  ghost predicate Waited(o: Scene, now: int, log: seq<Started>) {
    forall lane: LaneKey :: HeldPast(o, lane, now) ==> CountLane(log, lane) == 0
  }

  /** Nor was such a lane refused, which would have backed it off anew. */
  ghost predicate HeldLanesWaited(o: Scene, s: Scene, role: Role, run: LaneRun) {
    Waited(o, s.clock, run.log) && forall r <- run.refused :: !HeldPast(o, LaneKey(r, role), s.clock)
  }

  lemma WaitsOn(o: Scene, b: Scene, a: Scene, role: Role, name: Repo, run: LaneRun, n: nat, t: Turn)
    requires HeldLanesWaited(o, b, role, run) && Booked(o, b, role, run.refused)
    requires TurnTaken(b, a, LaneKey(name, role), n, t)
    requires t.Launch? ==> name in run.left && run.left[name] > 0 && run.remaining > 0 && n > 0
    ensures HeldLanesWaited(o, a, role, After(run, name, role, t))
  {
    hide Drifted, OneIssued, CountLane;
    forall lane: LaneKey | HeldPast(o, lane, a.clock) ensures HeldPast(o, lane, b.clock)
      && CountLane(run.log, lane) == 0 {
    }
    if t.Launch? {
      CountMore(run.log, Started(LaneKey(name, role), t.worker));
    }
    if HeldPast(o, LaneKey(name, role), a.clock) && !t.Ended? && n > 0 {
      assert SameBackoff(o, b, LaneKey(name, role)) && Held(b, LaneKey(name, role));
    }
  }

  lemma WaitsJoin(o: Scene, b: Scene, a: Scene, x: seq<Started>, y: seq<Started>, role: Role)
    requires o.clock <= b.clock <= a.clock && Waited(o, b.clock, x) && Waited(b, a.clock, y)
    requires forall r: Repo :: SameBackoff(o, b, LaneKey(r, role))
    requires forall lane: LaneKey :: lane.role != role ==> CountLane(y, lane) == 0
    ensures Waited(o, a.clock, x + y)
  {
    hide CountLane;
    forall lane: LaneKey | HeldPast(o, lane, a.clock) ensures CountLane(x + y, lane) == 0 {
      CountsJoin(x, y, lane, role);
      assert HeldPast(o, lane, b.clock);
      if lane.role == role {
        assert SameBackoff(o, b, LaneKey(lane.repository, role)) && HeldPast(b, lane, a.clock);
      }
    }
  }

  /** The repositories whose lane was backed off when its loop began. */
  ghost function HeldOnes(s: Scene, role: Role, names: seq<Repo>): set<Repo> {
    set r | r in names && Held(s, LaneKey(r, role))
  }

  /** Nothing changed about when this lane may launch again. */
  ghost predicate SameBackoff(o: Scene, s: Scene, lane: LaneKey) {
    SameLane(o.backoff, s.backoff, lane)
  }

  /** The refused repositories of this lane hold back for a full retry delay; no other lane's backoff changed. */
  ghost predicate Booked(o: Scene, s: Scene, role: Role, refused: seq<Repo>) {
    forall lane: LaneKey ::
      if lane.role == role && lane.repository in refused then
        LaunchBackoff(lane) in s.backoff && s.backoff[LaunchBackoff(lane)] >= o.clock + RETRY_DELAY
      else SameBackoff(o, s, lane)
  }

  /** From `o` to `s` less than a retry delay passed, and no backoff of this lane ran out meanwhile. */
  ghost predicate Brief(o: Scene, s: Scene, role: Role, names: seq<Repo>) {
    && s.clock < o.clock + RETRY_DELAY
    && forall r <- names :: Held(o, LaneKey(r, role)) ==> o.backoff[LaunchBackoff(LaneKey(r, role))] > s.clock
  }

  /** No launch of this lane was refused: none of its backoffs is new. */
  ghost predicate Undisturbed(o: Scene, s: Scene, role: Role, names: seq<Repo>) {
    forall r <- names :: SameBackoff(o, s, LaneKey(r, role))
  }

  /** One turn: `n` is the claimable work left for this lane. */
  ghost predicate TurnTaken(b: Scene, a: Scene, lane: LaneKey, n: nat, t: Turn) {
    && Drifted(b.workers, {}, a.workers, {}) && b.clock <= a.clock
    && (b.done ==> t.Ended?) && (t.Ended? ==> a.done) && (!t.Ended? ==> !b.done)
    && (!t.Ended? ==> (t.Nothing? <==> n == 0))
    && (!t.Ended? && n > 0 ==> (t.HeldOff? <==> Held(b, lane)))
    && a.own == b.own + (if t.Launch? then {t.worker} else {})
    && (t.Launch? ==> t.worker !in b.workers && t.worker in a.workers && a.workers[t.worker].lane == lane)
    && a.probes == (if t.Launch? then b.probes[t.worker := Probe(lane, false, false)] else b.probes)
    && a.ids == b.ids + (if t.Launch? then [t.worker] else []) && a.tidied == b.tidied
    && (if t.Refused? then BackedOff(b.backoff, a.backoff, LaunchBackoff(lane), b.clock) else a.backoff == b.backoff)
    && (if t.Launch? || t.Refused? then OneIssued(b.attempts, a.attempts, a.done) else a.attempts == b.attempts)
  }

  /** At most one attempt more, and a late one knows why it is late. */
  ghost predicate OneIssued(before: seq<Attempt>, after: seq<Attempt>, done: bool) {
    && before <= after && |after| <= |before| + 1
    && (|after| == |before| + 1 ==>
          var a := after[|before|];
          && (a.afterStop ==> done)
          && (a.afterLoss ==> a.afterStop && a.lane.role == Implementer && a.refreshWrote == Some(false)))
  }

  /** Since `o` this lane's loop started exactly the logged workers, within its counts and its budget. */
  ghost predicate Served(o: Scene, s: Scene, role: Role, names: seq<Repo>, counts: map<Repo, nat>, budget: nat,
                         run: LaneRun) {
    && Drifted(o.workers, {}, s.workers, {}) && o.clock <= s.clock
    && o.own <= o.workers.Keys && s.own <= s.workers.Keys
    && Logged(o.own, s.own, s.workers, run.log) && Recorded(o, s, run.log)
    && Balanced(role, counts, budget, run)
    && (forall e <- run.log :: e.lane.role == role && e.lane.repository in names && e.worker !in o.workers)
    && WellIssued(o.attempts, s.attempts, s.done)
    && (o.done ==> s.done && s.attempts == o.attempts)
    && Booked(o, s, role, run.refused) && HeldLanesWaited(o, s, role, run)
  }

  /** While it is brief, the loop is p passes and i turns into its round robin. */
  ghost predicate OnBeat(
    o: Scene, s: Scene, role: Role, names: seq<Repo>, counts: map<Repo, nat>, run: LaneRun, p: nat, i: nat)
  {
    Brief(o, s, role, names) && Unique(names) ==> InStep(role, names, counts, HeldOnes(o, role, names), run, p, i)
  }

  /** The turns of this pass so far found nothing to launch that they were free to launch. */
  ghost predicate Quiet(o: Scene, s: Scene, role: Role, names: seq<Repo>, counts: map<Repo, nat>, run: LaneRun,
                        i: nat) {
    Brief(o, s, role, names) && Unique(names) ==>
      forall j :: 0 <= j < i <= |names| && names[j] in counts
                  && names[j] !in HeldOnes(o, role, names) && names[j] !in run.refused ==>
        Got(run, role, names[j]) == counts[names[j]]
  }

  function LeftFor(run: LaneRun, name: Repo): nat {
    if name in run.left then run.left[name] else 0
  }

  lemma TurnServes(o: Scene, b: Scene, a: Scene, role: Role, names: seq<Repo>, counts: map<Repo, nat>, budget: nat,
                   run: LaneRun, i: nat, t: Turn)
    requires i < |names| && run.remaining > 0
    requires Served(o, b, role, names, counts, budget, run)
    requires TurnTaken(b, a, LaneKey(names[i], role), LeftFor(run, names[i]), t) && a.own <= a.workers.Keys
    ensures Served(o, a, role, names, counts, budget, After(run, names[i], role, t))
  {
    hide Logged, Balanced, CountLane, CountRole, WellIssued, OneIssued, Drifted, BackedOff, Recorded, Booked, Held;
    hide HeldLanesWaited;
    WaitsOn(o, b, a, role, names[i], run, LeftFor(run, names[i]), t);
    BookedAfter(o, b, a, role, names[i], run, LeftFor(run, names[i]), t);
    TurnKeepsBalance(role, counts, budget, run, names[i], t);
    DriftComposes(o.workers, {}, b.workers, {}, a.workers, {});
    if t.Launch? {
      LoggedMore(o.own, b.own, b.workers, run.log, Started(LaneKey(names[i], role), t.worker), a.workers);
      RecordedMore(o, b, a, run.log, Started(LaneKey(names[i], role), t.worker));
      assert t.worker !in o.workers by { NewToBoth(o.workers, b.workers, t.worker); }
    } else {
      LoggedDrifts(o.own, b.own, b.workers, run.log, a.workers);
      assert a.own == b.own;
      assert Recorded(o, a, run.log) by { SameRecords(o, b, a, run.log); }
    }
    if t.Ended? {
      assert a.done ==> WellIssued(o.attempts, a.attempts, a.done) by { StillIssued(o.attempts, b.attempts, b.done,
                                                                                    a.done); }
    } else {
      TurnIssues(o.attempts, b.attempts, a.attempts, a.done);
    }
  }

  lemma BookedAfter(o: Scene, b: Scene, a: Scene, role: Role, name: Repo, run: LaneRun, n: nat, t: Turn)
    requires Booked(o, b, role, run.refused) && o.clock <= b.clock
    requires TurnTaken(b, a, LaneKey(name, role), n, t)
    requires t.Launch? ==> name in run.left && run.left[name] > 0 && run.remaining > 0
    ensures Booked(o, a, role, After(run, name, role, t).refused)
  {
    hide Drifted, OneIssued, Held;
  }

  lemma SameRecords(o: Scene, b: Scene, a: Scene, log: seq<Started>)
    requires Recorded(o, b, log) && a.probes == b.probes && a.ids == b.ids && a.tidied == b.tidied
    ensures Recorded(o, a, log)
  {
  }

  lemma NewToBoth(w: map<WorkerId, Worker>, w': map<WorkerId, Worker>, id: WorkerId)
    requires Drifted(w, {}, w', {}) && id !in w'
    ensures id !in w
  {
  }

  lemma StillIssued(before: seq<Attempt>, after: seq<Attempt>, done: bool, done': bool)
    requires WellIssued(before, after, done) && (done ==> done')
    ensures WellIssued(before, after, done')
  {
  }

  lemma TurnIssues(before: seq<Attempt>, mid: seq<Attempt>, after: seq<Attempt>, done: bool)
    requires WellIssued(before, mid, false) && (after == mid || OneIssued(mid, after, done))
    ensures WellIssued(before, after, done)
  {
    IssueMore(before, mid, after, done);
  }

  lemma TurnStaysOnBeat(o: Scene, b: Scene, a: Scene, role: Role, names: seq<Repo>, counts: map<Repo, nat>, budget: nat,
                        run: LaneRun, p: nat, i: nat, t: Turn)
    requires i < |names| && run.remaining > 0 && !t.Ended? && o.clock <= b.clock
    requires Balanced(role, counts, budget, run)
    requires TurnTaken(b, a, LaneKey(names[i], role), LeftFor(run, names[i]), t)
    requires OnBeat(o, b, role, names, counts, run, p, i) && Booked(o, b, role, run.refused)
    ensures OnBeat(o, a, role, names, counts, After(run, names[i], role, t), p, i + 1)
  {
    if Brief(o, a, role, names) && Unique(names) {
      assert names[i] in names;
      HeldWhen(o, b, a, role, names, run.refused, names[i]);
      hide Held, Booked, Brief, OneIssued, Drifted;
      TurnKeepsStep(role, names, counts, budget, HeldOnes(o, role, names), run, p, i, t);
    }
  }

  /** While it is brief, held are those that were held at its beginning and those refused since. */
  lemma HeldWhen(o: Scene, b: Scene, a: Scene, role: Role, names: seq<Repo>, refused: seq<Repo>, r: Repo)
    requires Brief(o, a, role, names) && o.clock <= b.clock <= a.clock
    requires Booked(o, b, role, refused) && r in names
    ensures Brief(o, b, role, names)
    ensures Held(b, LaneKey(r, role)) <==> r in HeldOnes(o, role, names) || r in refused
  {
  }

  lemma TurnStaysQuiet(o: Scene, b: Scene, a: Scene, role: Role, names: seq<Repo>, counts: map<Repo, nat>, budget: nat,
                       run: LaneRun, p: nat, i: nat, t: Turn)
    requires i < |names| && run.remaining > 0 && !t.Ended? && !t.Launch? && o.clock <= b.clock
    requires Balanced(role, counts, budget, run)
    requires TurnTaken(b, a, LaneKey(names[i], role), LeftFor(run, names[i]), t)
    requires OnBeat(o, b, role, names, counts, run, p, i) && Quiet(o, b, role, names, counts, run, i)
    requires Booked(o, b, role, run.refused)
    ensures Quiet(o, a, role, names, counts, After(run, names[i], role, t), i + 1)
  {
    if Brief(o, a, role, names) && Unique(names) {
      assert names[i] in names;
      HeldWhen(o, b, a, role, names, run.refused, names[i]);
      hide InStep, Held, Booked, Brief, OneIssued, Drifted;
    }
  }

  function Names(repositories: seq<Managed>): seq<Repo> {
    seq(|repositories|, k requires 0 <= k < |repositories| => repositories[k].repository)
  }

  lemma LoopBegins(o: Scene, role: Role, names: seq<Repo>, counts: map<Repo, nat>, budget: nat)
    requires o.own <= o.workers.Keys
    ensures Served(o, o, role, names, counts, budget, LaneRun(counts, budget, [], []))
    ensures OnBeat(o, o, role, names, counts, LaneRun(counts, budget, [], []), 0, 0)
  {
    assert o.attempts[|o.attempts|..] == [];
  }

  lemma QuietBegins(o: Scene, s: Scene, role: Role, names: seq<Repo>, counts: map<Repo, nat>, run: LaneRun)
    ensures Quiet(o, s, role, names, counts, run, 0)
  {
  }

  lemma BeatEnds(o: Scene, s: Scene, role: Role, names: seq<Repo>, counts: map<Repo, nat>, run: LaneRun, p: nat)
    requires OnBeat(o, s, role, names, counts, run, p, |names|)
    ensures OnBeat(o, s, role, names, counts, run, p + 1, 0)
  {
    if Brief(o, s, role, names) && Unique(names) {
      PassEnds(role, names, counts, HeldOnes(o, role, names), run, p);
    }
  }

  /**
   What a lane's loop amounts to when it was brief and not cut short: no repository got ahead of another
   by more than one, each that was not held off was refused at most once, and with no refusal the loop
   started exactly the smaller of its budget and the claimable work it was free to serve.
   */
  ghost predicate RanOut(o: Scene, s: Scene, role: Role, names: seq<Repo>, counts: map<Repo, nat>, budget: nat,
                         run: LaneRun) {
    Brief(o, s, role, names) && Unique(names) ==>
      var held := HeldOnes(o, role, names);
      && Fair(role, names, counts, held, run)
      && Unique(run.refused) && (forall r <- run.refused :: r in names && r !in held)
      && (run.refused == [] ==> |run.log| == Min(budget, Servable(names, counts, held)))
  }

  lemma LoopEnds(o: Scene, s: Scene, role: Role, names: seq<Repo>, counts: map<Repo, nat>, budget: nat,
                 run: LaneRun, p: nat, i: nat)
    requires Served(o, s, role, names, counts, budget, run) && OnBeat(o, s, role, names, counts, run, p, i)
    requires run.remaining == 0 || Quiet(o, s, role, names, counts, run, |names|)
    ensures RanOut(o, s, role, names, counts, budget, run)
  {
    if Brief(o, s, role, names) && Unique(names) {
      var held := HeldOnes(o, role, names);
      assert forall r <- run.refused :: r in names && r !in held by { RefusedWereFree(role, names, counts, held, run,
                                                                                      p, i); }
      InStepIsFair(role, names, counts, held, run, p, i);
      if run.refused == [] {
        LaunchesExactlyTheMinimum(role, names, counts, budget, held, run, p, i);
      }
    }
  }

  lemma RefusedWereFree(role: Role, names: seq<Repo>, counts: map<Repo, nat>, held: set<Repo>, run: LaneRun, p: nat,
                        i: nat)
    requires InStep(role, names, counts, held, run, p, i)
    ensures forall r <- run.refused :: r in names && r !in held
  {
    forall r <- run.refused ensures r in names && r !in held {
      var j :| 0 <= j < |names| && names[j] == r;
    }
  }

  // ---- One lane after another ------------------------------------------------------------------------

  lemma {:induction false} CountsJoin(x: seq<Started>, y: seq<Started>, lane: LaneKey, role: Role)
    ensures CountLane(x + y, lane) == CountLane(x, lane) + CountLane(y, lane)
    ensures CountRole(x + y, role) == CountRole(x, role) + CountRole(y, role)
    decreases |y|
  {
    if y == [] {
      assert x + y == x;
    } else {
      CountsJoin(x, Front(y), lane, role);
      assert Front(x + y) == x + Front(y) && Last(x + y) == Last(y);
    }
  }

  lemma {:induction false} LaneWithinRole(log: seq<Started>, lane: LaneKey)
    ensures CountLane(log, lane) <= CountRole(log, lane.role)
    decreases |log|
  {
    if log != [] {
      LaneWithinRole(Front(log), lane);
    }
  }

  lemma LogsJoin(o: Scene, b: Scene, a: Scene, x: seq<Started>, y: seq<Started>)
    requires b.own <= b.workers.Keys && Drifted(b.workers, {}, a.workers, {})
    requires Logged(o.own, b.own, b.workers, x) && Logged(b.own, a.own, a.workers, y)
    ensures Logged(o.own, a.own, a.workers, x + y)
  {
    forall id ensures id in a.own <==> id in o.own || exists k :: 0 <= k < |x + y| && (x + y)[k].worker == id {
      if id in a.own && id !in b.own {
        var k :| 0 <= k < |y| && y[k].worker == id;
        assert (x + y)[|x| + k].worker == id;
      } else if id in b.own && id !in o.own {
        var k :| 0 <= k < |x| && x[k].worker == id;
        assert (x + y)[k].worker == id;
      }
    }
    forall k | 0 <= k < |x| ensures x[k].worker in b.own {
    }
  }

  /** The whole launch loop after serving the lanes of `roles`. */
  ghost predicate Filled(o: Scene, s: Scene, request: Request, ready: set<Pair>, counts: map<Repo, Claimable>,
                         listed: map<WorkerId, Worker>, log: seq<Started>, roles: seq<Role>) {
    && Drifted(o.workers, {}, s.workers, {}) && o.clock <= s.clock
    && s.own <= s.workers.Keys
    && Logged(o.own, s.own, s.workers, log) && Recorded(o, s, log)
    && (forall e <- log :: e.worker !in o.workers)
    && (forall lane :: CountLane(log, lane) <= CountOf(counts, lane))
    && (forall role :: CountRole(log, role) <= Max(0, request.LaneOf(role).capacity - |Occupied(listed, role)|))
    && (forall role :: role !in roles || request.PairOf(role) !in ready ==> CountRole(log, role) == 0)
    && WellIssued(o.attempts, s.attempts, s.done)
    && (o.done ==> s.done && s.attempts == o.attempts)
    && (forall lane: LaneKey :: lane.role !in roles ==> SameBackoff(o, s, lane))
    && Waited(o, s.clock, log)
  }

  function ForRole(counts: map<Repo, Claimable>, role: Role): map<Repo, nat> {
    map r | r in counts :: counts[r].For(role)
  }

  lemma IssuesJoin(before: seq<Attempt>, mid: seq<Attempt>, after: seq<Attempt>, done: bool, done': bool)
    requires WellIssued(before, mid, done) && WellIssued(mid, after, done')
    requires done ==> after == mid && done'
    ensures WellIssued(before, after, done')
  {
    var x, y := mid[|before|..], after[|mid|..];
    assert after[|before|..] == x + y;
    if done {
      assert y == [];
      assert x + y == x;
    } else {
      assert forall i :: 0 <= i < |x| ==> x[i] in x;
    }
  }

  lemma CountsStayWithin(x: seq<Started>, y: seq<Started>, request: Request, counts: map<Repo, Claimable>,
                         listed: map<WorkerId, Worker>, role: Role, budget: nat, run: LaneRun)
    requires Balanced(role, ForRole(counts, role), budget, run) && y == run.log
    requires budget == Max(0, request.LaneOf(role).capacity - |Occupied(listed, role)|)
    requires forall lane :: CountLane(x, lane) <= CountOf(counts, lane)
    requires forall r :: CountRole(x, r) <= Max(0, request.LaneOf(r).capacity - |Occupied(listed, r)|)
    requires CountRole(x, role) == 0
    ensures forall lane :: CountLane(x + y, lane) <= CountOf(counts, lane)
    ensures forall r :: CountRole(x + y, r) <= Max(0, request.LaneOf(r).capacity - |Occupied(listed, r)|)
    ensures forall r :: r != role ==> CountRole(x + y, r) == CountRole(x, r)
  {
    forall lane ensures CountLane(x + y, lane) <= CountOf(counts, lane) {
      CountsJoin(x, y, lane, role);
      LaneWithinRole(x, lane);
    }
    forall r ensures CountRole(x + y, r) == CountRole(x, r) + CountRole(y, r) {
      CountsJoin(x, y, LaneKey("", r), r);
    }
  }

  lemma StillFresh(o: Scene, b: Scene, x: seq<Started>, y: seq<Started>)
    requires Drifted(o.workers, {}, b.workers, {})
    requires (forall e <- x :: e.worker !in o.workers) && (forall e <- y :: e.worker !in b.workers)
    ensures forall e <- x + y :: e.worker !in o.workers
  {
  }

  /** Serving one more lane. */
  lemma LaneJoins(o: Scene, b: Scene, a: Scene, request: Request, ready: set<Pair>, counts: map<Repo, Claimable>,
                  listed: map<WorkerId, Worker>, log: seq<Started>, roles: seq<Role>, role: Role, names: seq<Repo>,
                  budget: nat, run: LaneRun)
    requires Filled(o, b, request, ready, counts, listed, log, roles)
    requires role !in roles && request.PairOf(role) in ready
    requires Served(b, a, role, names, ForRole(counts, role), budget, run)
    requires budget == Max(0, request.LaneOf(role).capacity - |Occupied(listed, role)|)
    ensures Filled(o, a, request, ready, counts, listed, log + run.log, roles + [role])
  {
    hide Logged, WellIssued, Balanced, Drifted, CountLane, CountRole, Recorded, Booked, SameBackoff, Waited;
    BackoffsJoin(o, b, a, roles, role, run.refused);
    OtherLanesGetNothing(role, ForRole(counts, role), budget, run);
    WaitsJoin(o, b, a, log, run.log, role);
    LogsJoin(o, b, a, log, run.log);
    RecordsJoin(o, b, a, log, run.log);
    IssuesJoin(o.attempts, b.attempts, a.attempts, b.done, a.done);
    CountsStayWithin(log, run.log, request, counts, listed, role, budget, run);
    DriftComposes(o.workers, {}, b.workers, {}, a.workers, {});
    StillFresh(o, b, log, run.log);
  }

  lemma OtherLanesGetNothing(role: Role, counts: map<Repo, nat>, budget: nat, run: LaneRun)
    requires Balanced(role, counts, budget, run)
    ensures forall lane: LaneKey :: lane.role != role ==> CountLane(run.log, lane) == 0
  {
  }

  lemma BackoffsJoin(o: Scene, b: Scene, a: Scene, roles: seq<Role>, role: Role, refused: seq<Repo>)
    requires forall lane: LaneKey :: lane.role !in roles ==> SameBackoff(o, b, lane)
    requires Booked(b, a, role, refused)
    ensures forall lane: LaneKey :: lane.role !in roles + [role] ==> SameBackoff(o, a, lane)
    ensures forall lane: LaneKey :: lane.role != role ==> SameBackoff(b, a, lane)
  {
    forall lane: LaneKey | lane.role !in roles + [role] ensures SameBackoff(o, a, lane) {
      assert SameBackoff(o, b, lane) && SameBackoff(b, a, lane);
    }
  }

  /**
   A ready role whose loop was brief and met no refusal launched exactly the smaller of its free capacity
   and the claimable work it was free to serve. Whether the role is blocked does not come into it.
   */
  ghost predicate ServesExactly(o: Scene, s: Scene, request: Request, ready: set<Pair>, counts: map<Repo, Claimable>,
                                listed: map<WorkerId, Worker>, log: seq<Started>, role: Role, names: seq<Repo>) {
    request.PairOf(role) in ready && Brief(o, s, role, names) && Undisturbed(o, s, role, names) ==>
      CountRole(log, role) == Min(Max(0, request.LaneOf(role).capacity - |Occupied(listed, role)|),
                                  Servable(names, ForRole(counts, role), HeldOnes(o, role, names)))
  }

  /** Unless the run ended, every lane was served exactly. */
  ghost predicate Exact(o: Scene, s: Scene, request: Request, ready: set<Pair>, counts: map<Repo, Claimable>,
                        listed: map<WorkerId, Worker>, log: seq<Started>, roles: seq<Role>, names: seq<Repo>) {
    !s.done && Unique(names) ==>
      forall role <- roles :: ServesExactly(o, s, request, ready, counts, listed, log, role, names)
  }

  /** A refused launch leaves a new backoff behind. */
  lemma RefusalShows(b: Scene, a: Scene, role: Role, names: seq<Repo>, refused: seq<Repo>)
    requires Booked(b, a, role, refused) && refused != []
    requires forall r <- refused :: r in names && r !in HeldOnes(b, role, names)
    ensures !Undisturbed(b, a, role, names)
  {
    assert refused[0] in refused;
    assert !SameBackoff(b, a, LaneKey(refused[0], role));
  }

  /** The lane just served was served exactly. */
  lemma ServedExactly(o: Scene, b: Scene, a: Scene, request: Request, ready: set<Pair>, counts: map<Repo, Claimable>,
                      listed: map<WorkerId, Worker>, log: seq<Started>, role: Role, names: seq<Repo>,
                      budget: nat, run: LaneRun)
    requires o.clock <= b.clock <= a.clock && Booked(b, a, role, run.refused) && Unique(names)
    requires forall r: Repo :: SameBackoff(o, b, LaneKey(r, role))
    requires budget == Max(0, request.LaneOf(role).capacity - |Occupied(listed, role)|)
    requires RanOut(b, a, role, names, ForRole(counts, role), budget, run)
    requires CountRole(log, role) == |run.log|
    ensures ServesExactly(o, a, request, ready, counts, listed, log, role, names)
  {
    if Brief(o, a, role, names) && Undisturbed(o, a, role, names) {
      assert HeldOnes(b, role, names) == HeldOnes(o, role, names);
      assert Brief(b, a, role, names);
      assert Undisturbed(b, a, role, names);
      hide Fair, Servable, CountRole;
      if run.refused != [] {
        RefusalShows(b, a, role, names, run.refused);
      }
    }
  }

  /** A lane served earlier stays served exactly: nobody else touches its backoffs or its workers. */
  lemma StaysExact(o: Scene, b: Scene, a: Scene, request: Request, ready: set<Pair>, counts: map<Repo, Claimable>,
                   listed: map<WorkerId, Worker>, log: seq<Started>, log': seq<Started>, role: Role, names: seq<Repo>)
    requires ServesExactly(o, b, request, ready, counts, listed, log, role, names) && b.clock <= a.clock
    requires forall r: Repo :: SameBackoff(b, a, LaneKey(r, role))
    requires CountRole(log', role) == CountRole(log, role)
    ensures ServesExactly(o, a, request, ready, counts, listed, log', role, names)
  {
    if Brief(o, a, role, names) && Undisturbed(o, a, role, names) {
      assert Brief(o, b, role, names) && Undisturbed(o, b, role, names);
    }
  }

  lemma ExactJoins(o: Scene, b: Scene, a: Scene, request: Request, ready: set<Pair>, counts: map<Repo, Claimable>,
                   listed: map<WorkerId, Worker>, log: seq<Started>, roles: seq<Role>, role: Role, names: seq<Repo>,
                   budget: nat, run: LaneRun)
    requires Filled(o, b, request, ready, counts, listed, log, roles)
    requires Exact(o, b, request, ready, counts, listed, log, roles, names)
    requires role !in roles
    requires Served(b, a, role, names, ForRole(counts, role), budget, run)
    requires budget == Max(0, request.LaneOf(role).capacity - |Occupied(listed, role)|)
    requires a.done || RanOut(b, a, role, names, ForRole(counts, role), budget, run)
    ensures Exact(o, a, request, ready, counts, listed, log + run.log, roles + [role], names)
  {
    if !a.done && Unique(names) {
      hide Drifted, Logged, Recorded, WellIssued, CountLane, CountRole, Booked, SameBackoff, ServesExactly, RanOut;
      assert b.own <= b.workers.Keys && !b.done && Booked(b, a, role, run.refused);
      assert o.clock <= b.clock <= a.clock;
      BackoffsJoin(o, b, a, roles, role, run.refused);
      RolesJoin(log, counts, roles, role, budget, run);
      hide Filled, Served;
      EachExact(o, b, a, request, ready, counts, listed, log, log + run.log, roles, role, names, budget, run);
    }
  }

  lemma RolesJoin(log: seq<Started>, counts: map<Repo, Claimable>, roles: seq<Role>, role: Role, budget: nat,
                  run: LaneRun)
    requires role !in roles && CountRole(log, role) == 0 && Balanced(role, ForRole(counts, role), budget, run)
    ensures CountRole(log + run.log, role) == |run.log|
    ensures forall r <- roles :: CountRole(log + run.log, r) == CountRole(log, r)
  {
    CountsJoin(log, run.log, LaneKey("", role), role);
    forall r <- roles ensures CountRole(log + run.log, r) == CountRole(log, r) {
      CountsJoin(log, run.log, LaneKey("", r), r);
    }
  }

  lemma EachExact(o: Scene, b: Scene, a: Scene, request: Request, ready: set<Pair>, counts: map<Repo, Claimable>,
                  listed: map<WorkerId, Worker>, log: seq<Started>, log': seq<Started>, roles: seq<Role>, role: Role,
                  names: seq<Repo>, budget: nat, run: LaneRun)
    requires o.clock <= b.clock <= a.clock && Booked(b, a, role, run.refused) && Unique(names) && role !in roles
    requires forall r <- roles :: ServesExactly(o, b, request, ready, counts, listed, log, r, names)
    requires forall lane: LaneKey :: lane.role !in roles ==> SameBackoff(o, b, lane)
    requires forall lane: LaneKey :: lane.role != role ==> SameBackoff(b, a, lane)
    requires budget == Max(0, request.LaneOf(role).capacity - |Occupied(listed, role)|)
    requires RanOut(b, a, role, names, ForRole(counts, role), budget, run)
    requires CountRole(log', role) == |run.log| && forall r <- roles :: CountRole(log', r) == CountRole(log, r)
    ensures forall r <- roles + [role] :: ServesExactly(o, a, request, ready, counts, listed, log', r, names)
  {
    hide RanOut, ServesExactly, SameBackoff, Booked;
    ServedExactly(o, b, a, request, ready, counts, listed, log', role, names, budget, run);
    forall r <- roles ensures ServesExactly(o, a, request, ready, counts, listed, log', r, names) {
      StaysExact(o, b, a, request, ready, counts, listed, log, log', r, names);
    }
  }

  /** A role whose pair is not ready is passed over. */
  lemma LanePassedOver(o: Scene, s: Scene, request: Request, ready: set<Pair>, counts: map<Repo, Claimable>,
                       listed: map<WorkerId, Worker>, log: seq<Started>, roles: seq<Role>, role: Role)
    requires Filled(o, s, request, ready, counts, listed, log, roles)
    requires request.PairOf(role) !in ready
    ensures Filled(o, s, request, ready, counts, listed, log, roles + [role])
    ensures forall names :: Exact(o, s, request, ready, counts, listed, log, roles, names) ==>
                            Exact(o, s, request, ready, counts, listed, log, roles + [role], names)
  {
  }

  lemma FilledMore(o: Scene, s: Scene, request: Request, ready: set<Pair>, counts: map<Repo, Claimable>,
                   listed: map<WorkerId, Worker>, log: seq<Started>, roles: seq<Role>, roles': seq<Role>,
                   names: seq<Repo>)
    requires Filled(o, s, request, ready, counts, listed, log, roles)
    requires Exact(o, s, request, ready, counts, listed, log, roles, names)
    requires (forall r <- roles :: r in roles') && (s.done || forall r <- roles' :: r in roles)
    ensures Filled(o, s, request, ready, counts, listed, log, roles')
    ensures Exact(o, s, request, ready, counts, listed, log, roles', names)
  {
  }

  lemma NothingFilled(o: Scene, request: Request, ready: set<Pair>, counts: map<Repo, Claimable>,
                      listed: map<WorkerId, Worker>)
    requires o.own <= o.workers.Keys
    ensures Filled(o, o, request, ready, counts, listed, [], [])
    ensures forall names :: Exact(o, o, request, ready, counts, listed, [], [], names)
  {
    assert o.attempts[|o.attempts|..] == [];
  }

  /** `adjusted` is `counts` less the reserved slots of each lane. */
  ghost predicate Reserving(counts: map<Repo, Claimable>, adjusted: map<Repo, Claimable>,
                            probes: map<WorkerId, Probe>) {
    && adjusted.Keys == counts.Keys
    && forall r <- counts, role: Role ::
         adjusted[r].For(role) == Adjusted(counts[r].For(role), |Reserved(probes, LaneKey(r, role))|)
  }

  // ---- The whole tick ----------------------------------------------------------------------------------

  /** A tick that did not get as far as launching. */
  lemma QuietTick(request: Request, b: View, a: View)
    requires Tracked(b) && Between(b, a)
    ensures Tick(request, b, a, TickInput(a.workers, a.workers, map[]))
  {
    hide Tracked, CleansOnlySettled, WaitingSeen, LaunchedFor, Occupied, CountOf, Drifted, EndRespected;
    forall lane ensures |WaitingSeen(a, lane)| <= |WaitingSeen(b, lane)| {
      WaitingShrinks(b, a, lane);
    }
    assert Misreported(a.workers, a.workers) == {};
    NothingLaunched(b, a);
    DriftKeepsTracked(b, a);
    SameCleaningBothWays(b, a);
    ForgettingClaims(b.workers, b.claimed, a.workers, a.claimed);
    DriftStays(a.workers, {});
  }

  lemma NothingLaunched(b: View, a: View)
    requires a.own == b.own && a.attempts == b.attempts
    ensures forall role :: |LaunchedFor(b.own, a.own, a.workers, role)| == 0
    ensures a.attempts[|b.attempts|..] == [] && EndRespected(a.attempts[|b.attempts|..])
  {
    forall role ensures |LaunchedFor(b.own, a.own, a.workers, role)| == 0 {
      assert LaunchedFor(b.own, a.own, a.workers, role) == {};
    }
  }

  lemma SameCleaningBothWays(b: View, a: View)
    requires Between(b, a)
    ensures CleansOnlySettled(b) ==> CleansOnlySettled(a)
  {
    SettledGrows(b, a);
  }

  lemma WaitingAfterTick(b: View, mid: View, a: View, o: Scene, s: Scene, request: Request, ready: set<Pair>,
                         counts: map<Repo, Claimable>, adjusted: map<Repo, Claimable>, listed: map<WorkerId, Worker>,
                         log: seq<Started>, roles: seq<Role>, lane: LaneKey)
    requires Tracked(b) && Tracked(mid) && mid.own == b.own && Stabilised(mid)
    requires b.misreported <= mid.misreported == a.misreported
    requires Drifted(b.workers, b.claimed, mid.workers, mid.claimed)
    requires Drifted(mid.workers, mid.claimed, a.workers, a.claimed)
    requires Reserving(counts, adjusted, mid.probes)
    requires Filled(o, s, request, ready, adjusted, listed, log, roles)
    requires o.own == mid.own && s.own == a.own && s.workers == a.workers
    ensures |WaitingSeen(a, lane)| <= Max(|WaitingSeen(b, lane)|, CountOf(counts, lane))
  {
    LogCountsLaunched(o.own, s.own, s.workers, log, lane, lane.role);
    assert CountLane(log, lane) <= CountOf(adjusted, lane);
    ReservationsBoundWaiting(b, mid, a, lane, CountOf(counts, lane));
  }

  lemma CapacityAfterTick(o: Scene, s: Scene, request: Request, ready: set<Pair>, adjusted: map<Repo, Claimable>,
                          listed: map<WorkerId, Worker>, log: seq<Started>, roles: seq<Role>, role: Role)
    requires Filled(o, s, request, ready, adjusted, listed, log, roles)
    ensures |LaunchedFor(o.own, s.own, s.workers, role)| <= Max(0,
                                                                request.LaneOf(role).capacity - |Occupied(listed,
                                                                      role)|)
    ensures request.PairOf(role) !in ready ==> |LaunchedFor(o.own, s.own, s.workers, role)| == 0
  {
    LogCountsLaunched(o.own, s.own, s.workers, log, LaneKey("", role), role);
  }

  /**
   The stages of a tick compose to `Tick`: `actual` are the workers when the inventory was taken, `mid` is
   when reservations were counted, o to s the launch loop.
   */
  lemma WholeTick(b: View, actual: map<WorkerId, Worker>, mid: View, a: View, o: Scene, s: Scene, request: Request,
                  ready: set<Pair>, counts: map<Repo, Claimable>, adjusted: map<Repo, Claimable>,
                  listed: map<WorkerId, Worker>, log: seq<Started>, roles: seq<Role>)
    requires Tracked(b) && Tracked(mid) && mid.own == b.own && Stabilised(mid)
    requires Reports(actual, listed) && a.misreported == mid.misreported == b.misreported + Misreported(actual, listed)
    requires Drifted(b.workers, {}, actual, {}) && Drifted(actual, {}, mid.workers, {})
    requires Drifted(b.workers, b.claimed, mid.workers, mid.claimed)
    requires Drifted(mid.workers, mid.claimed, a.workers, a.claimed)
    requires Drifted(mid.workers, {}, o.workers, {})
    requires Reserving(counts, adjusted, mid.probes)
    requires Filled(o, s, request, ready, adjusted, listed, log, roles)
    requires o.own == mid.own && s.own == a.own && s.workers == a.workers
    requires o.attempts == b.attempts && s.attempts == a.attempts
    requires (b.done ==> o.done) && (s.done ==> a.done)
    requires Tracked(a) && CleansOnlySettled(a)
    ensures Tick(request, b, a, TickInput(actual, listed, counts))
  {
    forall lane ensures |WaitingSeen(a, lane)| <= Max(|WaitingSeen(b, lane)|, CountOf(counts, lane)) {
      WaitingAfterTick(b, mid, a, o, s, request, ready, counts, adjusted, listed, log, roles, lane);
    }
    forall role ensures |LaunchedFor(b.own, a.own, a.workers, role)|
                        <= Max(0, request.LaneOf(role).capacity - |Occupied(listed, role)|) {
      CapacityAfterTick(o, s, request, ready, adjusted, listed, log, roles, role);
    }
    hide Tracked, CleansOnlySettled, Stabilised, Reserving, CountLane, CountRole, WaitingSeen, LaunchedFor, Occupied;
    DriftComposes(b.workers, b.claimed, mid.workers, mid.claimed, a.workers, a.claimed);
    DriftComposes(actual, {}, mid.workers, {}, a.workers, {});
    DriftComposes(actual, {}, mid.workers, {}, o.workers, {});
    assert listed.Keys == actual.Keys <= o.workers.Keys;
    NewIsUnlisted(b, a, o, s, listed, log);
  }

  lemma NewIsUnlisted(b: View, a: View, o: Scene, s: Scene, listed: map<WorkerId, Worker>, log: seq<Started>)
    requires Logged(o.own, s.own, s.workers, log) && o.own == b.own && s.own == a.own
    requires forall e <- log :: e.worker !in o.workers
    requires listed.Keys <= o.workers.Keys
    ensures b.own <= a.own && forall id <- a.own :: id in b.own || id !in listed
  {
  }

  // ---- Blocked roles -----------------------------------------------------------------------------------

  /** What deciding the lanes and launching came to, for the lanes' blocked roles and ready pairs. */
  ghost predicate Launching(o: Scene, s: Scene, request: Request, blocked: set<Role>, ready: set<Pair>,
                            counts: map<Repo, Claimable>, listed: map<WorkerId, Worker>, log: seq<Started>,
                            names: seq<Repo>) {
    && (forall p <- ready :: exists u :: u !in blocked && request.PairOf(u) == p)
    && Filled(o, s, request, ready, counts, listed, log, LAUNCHABLE_ROLES)
    && Exact(o, s, request, ready, counts, listed, log, LAUNCHABLE_ROLES, names)
  }

  lemma EveryRoleIsServed(role: Role)
    ensures role in LAUNCHABLE_ROLES
  {
    match role
    case Discoverer => assert LAUNCHABLE_ROLES[0] == role;
    case Implementer => assert LAUNCHABLE_ROLES[1] == role;
    case Reviewer => assert LAUNCHABLE_ROLES[2] == role;
  }

  /** Blocked or not: a role launches exactly its minimum if its pair is ready, and nothing otherwise. */
  lemma LaunchedExactly(
    o: Scene, s: Scene, request: Request, blocked: set<Role>, ready: set<Pair>, counts: map<Repo, Claimable>,
    listed: map<WorkerId, Worker>, log: seq<Started>, names: seq<Repo>, role: Role)
    requires Launching(o, s, request, blocked, ready, counts, listed, log, names)
    ensures request.PairOf(role) !in ready ==> |LaunchedFor(o.own, s.own, s.workers, role)| == 0
    ensures request.PairOf(role) in ready && !s.done && Unique(names)
            && Brief(o, s, role, names) && Undisturbed(o, s, role, names) ==>
              |LaunchedFor(o.own, s.own, s.workers, role)|
              == Min(Max(0, request.LaneOf(role).capacity - |Occupied(listed, role)|),
                     Servable(names, ForRole(counts, role), HeldOnes(o, role, names)))
  {
    EveryRoleIsServed(role);
    hide Servable, Brief, Undisturbed, Occupied, Filled, CountRole;
    CapacityAfterTick(o, s, request, ready, counts, listed, log, LAUNCHABLE_ROLES, role);
    FilledIsLogged(o, s, request, ready, counts, listed, log, LAUNCHABLE_ROLES);
    LogCountsLaunched(o.own, s.own, s.workers, log, LaneKey("", role), role);
    if !s.done && Unique(names) {
      assert ServesExactly(o, s, request, ready, counts, listed, log, role, names);
    }
  }

  /**
   A blocked role launches nothing unless it shares its pair with an unblocked one. If it does, blocking
   has no effect: whenever that pair is ready, the role launches what it would have launched unblocked.
   */
  lemma BlockedRoleLaunchesExactlyWhen(
    o: Scene, s: Scene, request: Request, blocked: set<Role>, ready: set<Pair>, counts: map<Repo, Claimable>,
    listed: map<WorkerId, Worker>, log: seq<Started>, names: seq<Repo>, role: Role)
    requires Launching(o, s, request, blocked, ready, counts, listed, log, names) && role in blocked
    ensures (forall u :: u !in blocked ==> request.PairOf(u) != request.PairOf(role)) ==>
              |LaunchedFor(o.own, s.own, s.workers, role)| == 0
    ensures !s.done && Unique(names) && Brief(o, s, role, names) && Undisturbed(o, s, role, names) ==>
              var free := Max(0, request.LaneOf(role).capacity - |Occupied(listed, role)|);
              var work := Servable(names, ForRole(counts, role), HeldOnes(o, role, names));
              && |LaunchedFor(o.own, s.own, s.workers, role)| == (if request.PairOf(role) in ready
                                                                  then Min(free, work) else 0)
              && (|LaunchedFor(o.own, s.own, s.workers, role)| > 0 <==>
                    request.PairOf(role) in ready && free > 0 && work > 0)
  {
    hide Servable, Brief, Undisturbed, Occupied, Filled, Exact, HeldOnes, LaunchedFor;
    LaunchedExactly(o, s, request, blocked, ready, counts, listed, log, names, role);
  }

  lemma FilledIsLogged(o: Scene, s: Scene, request: Request, ready: set<Pair>, counts: map<Repo, Claimable>,
                       listed: map<WorkerId, Worker>, log: seq<Started>, roles: seq<Role>)
    requires Filled(o, s, request, ready, counts, listed, log, roles)
    ensures Logged(o.own, s.own, s.workers, log)
  {
  }
}
