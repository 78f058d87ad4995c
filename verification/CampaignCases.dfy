/**
 Concrete campaigns in which a bound or a rule gives way: a blocked role that launches all the same, and
 a worker that an inventory misreports.
 */
module CampaignCases {
  import opened Prelude
  import opened CampaignTypes
  import opened CampaignRuns
  import opened CampaignTracking
  import opened CampaignLaunch

  function Counts(r: Repo): map<Repo, Claimable> { map[r := Claimable(0, 1, 0)] }

  // ---- A blocked role launches ------------------------------------------------------------------

  /** An idle node, with the implementer lane of `other` failed and backed off for another five minutes. */
  function Blocked(other: Repo): Scene {
    Scene({}, map[], [], map[LaunchBackoff(LaneKey(other, Implementer)) := RETRY_DELAY], 0, false, map[], [], 0)
  }

  function AfterLaunch(o: Scene, r: Repo, w: WorkerId): Scene {
    var lane := LaneKey(r, Implementer);
    o.(own := {w}, workers := map[w := Worker(lane, WorkerRunning)], probes := map[w := Probe(lane, false, false)],
       ids := [w],
       attempts := [Attempt(lane, "", Some(w), None, false, false, Some(true))])
  }

  /**
   Implementer and reviewer share a pair, the implementer role is blocked by a failed lane, and the pair is
   ready on the reviewer's behalf: an implementer is launched in another repository, while the one with the
   failed lane, ready too but without an observation, gets none.
   */
  lemma BlockedRoleLaunches(request: Request, r: Repo, other: Repo, w: WorkerId)
    requires r != other && request.implementer.capacity > 0
    requires request.PairOf(Implementer) == request.PairOf(Reviewer)
    ensures var failures := map[LaneKey(other, Implementer) := LaneFailure(LaneKey(other, Implementer), "",
                                                                           RETRY_DELAY)];
            var o, blocked := Blocked(other), RolesOf(Unexpired(failures, 0).Keys);
            var s := AfterLaunch(o, r, w);
            && blocked == {Implementer} && Held(o, LaneKey(other, Implementer))
            && Launching(o, s, request, blocked, {request.PairOf(Implementer)}, Counts(r), map[],
                         [Started(LaneKey(r, Implementer), w)], [other, r])
            && |LaunchedFor(o.own, s.own, s.workers, Implementer)| == 1
  {
    var lane := LaneKey(r, Implementer);
    var o, log := Blocked(other), [Started(lane, w)];
    var s := AfterLaunch(o, r, w);
    assert LaneKey(other, Implementer) in
           Unexpired(map[LaneKey(other, Implementer) := LaneFailure(LaneKey(other, Implementer), "", RETRY_DELAY)], 0);
    assert request.PairOf(Reviewer) in {request.PairOf(Implementer)};
    OneStarted(request, r, w, o, s);
    OneExactly(request, r, other, w, o, s);
    assert LaunchedFor(o.own, s.own, s.workers, Implementer) == {w};
  }

  lemma OneStarted(request: Request, r: Repo, w: WorkerId, o: Scene, s: Scene)
    requires o.own == {} && o.workers == map[] && o.attempts == [] && o.probes == map[] && o.ids == [] && !o.done
    requires s == AfterLaunch(o, r, w) && request.implementer.capacity > 0 && !Held(o, LaneKey(r, Implementer))
    ensures Filled(o, s, request, {request.PairOf(Implementer)}, Counts(r), map[],
                   [Started(LaneKey(r, Implementer), w)], LAUNCHABLE_ROLES)
  {
    var log := [Started(LaneKey(r, Implementer), w)];
    CountOne(log[0]);
    forall role ensures |Occupied(map[], role)| == 0 {
      assert Occupied(map[], role) == {};
    }
    forall role: Role ensures role in LAUNCHABLE_ROLES {
      EveryRoleIsServed(role);
    }
    assert Front(log) == [] && Ids(log) == [w];
    assert s.attempts[|o.attempts|..] == s.attempts;
    assert log[0].worker == w;
  }

  lemma CountOne(e: Started)
    ensures forall lane :: CountLane([e], lane) == if lane == e.lane then 1 else 0
    ensures forall role :: CountRole([e], role) == if role == e.lane.role then 1 else 0
  {
    CountMore([], e);
    assert [] + [e] == [e];
  }

  lemma OneExactly(request: Request, r: Repo, other: Repo, w: WorkerId, o: Scene, s: Scene)
    requires r != other && !Held(o, LaneKey(r, Implementer)) && request.implementer.capacity > 0
    requires s == AfterLaunch(o, r, w)
    ensures Exact(o, s, request, {request.PairOf(Implementer)}, Counts(r), map[],
                  [Started(LaneKey(r, Implementer), w)], LAUNCHABLE_ROLES, [other, r])
  {
    CountOne(Started(LaneKey(r, Implementer), w));
    forall role ensures Servable([other, r], ForRole(Counts(r), role), HeldOnes(o, role, [other, r]))
                        == if role == Implementer then 1 else 0 {
      var counts, held := ForRole(Counts(r), role), HeldOnes(o, role, [other, r]);
      assert [other, r][1..] == [r] && [r][1..] == [] && other !in counts;
      assert counts[r] == if role == Implementer then 1 else 0;
      assert Servable([], counts, held) == 0;
      assert Servable([r], counts, held) == if role == Implementer then 1 else 0;
    }
    forall role ensures |Occupied(map[], role)| == 0 {
      assert Occupied(map[], role) == {};
    }
  }

  // ---- A misreported worker -----------------------------------------------------------------------

  function Launch(r: Repo, w: WorkerId): Attempt {
    Attempt(LaneKey(r, Implementer), "", Some(w), None, false, false, Some(true))
  }

  function Running(r: Repo, ids: set<WorkerId>): map<WorkerId, Worker> {
    map id | id in ids :: Worker(LaneKey(r, Implementer), WorkerRunning)
  }

  function FailedListing(r: Repo, w: WorkerId): map<WorkerId, Worker> {
    map[w := Worker(LaneKey(r, Implementer), Failed)]
  }

  function Fresh(r: Repo): Probe { Probe(LaneKey(r, Implementer), false, false) }

  /** The exit that the second tick's inventory makes of the running worker. */
  function FalseExit(r: Repo, w: WorkerId): Exit { Exit(w, Failed, Fresh(r)) }

  /** Before, after the first launch, after the misreport, and after the second launch. */
  function Misled(r: Repo, w: WorkerId, x: WorkerId): seq<View> {
    [View(map[], {}, {}, map[], {}, [], [], {}, {}, false),
     View(Running(r, {w}), {}, {w}, map[w := Fresh(r)], {}, [Launch(r, w)], [], {}, {}, false),
     View(Running(r, {w}), {}, {w}, map[], {}, [Launch(r, w)], [], {Sighting(FalseExit(r, w), Unmatched)}, {w}, false),
     View(Running(r, {w, x}), {}, {w, x}, map[x := Fresh(r)], {}, [Launch(r, w), Launch(r, x)], [],
          {Sighting(FalseExit(r, w), Unmatched)}, {w}, false)]
  }

  function MisledTicks(r: Repo, w: WorkerId): seq<Option<TickInput>> {
    [Some(TickInput(map[], map[], Counts(r))),
     Some(TickInput(Running(r, {w}), FailedListing(r, w), Counts(r))),
     Some(TickInput(Running(r, {w}), FailedListing(r, w), Counts(r)))]
  }

  /**
   One claimable item, a lane of capacity one, and an inventory that lists the running worker as failed: its
   probe is forgotten, and once the lane may launch again a second worker joins it. Both run and wait for
   the same item: the bounds are reached exactly, with one misreported worker above the plain ones.
   */
  lemma MisreportReachesTheBounds(request: Request, r: Repo, w: WorkerId, x: WorkerId)
    requires w != x && request.implementer.capacity == 1
    ensures var vs, steps, lane := Misled(r, w, x), MisledTicks(r, w), LaneKey(r, Implementer);
            && Campaign(request, vs, steps) && Tracked(vs[0]) && CleansOnlySettled(vs[0]) && vs[0].own == {}
            && CountsWithin(steps, lane, 1)
            && (forall k :: 0 <= k < 3 ==> OnlyCampaignLaunches(vs[k], vs[k + 1]))
            && |Waiting(vs[3], lane)| == 2 == 1 + |Waiting(vs[3], lane) * vs[3].misreported|
            && |Occupied(vs[3].workers, Implementer)| == 2
               == request.implementer.capacity + |Occupied(vs[3].workers, Implementer) * vs[3].misreported|
    // and the second tick does with the false exit what the code does
    ensures FailedLanes([FalseExit(r, w)], [Some(Unmatched)]) == {LaneKey(r, Implementer)}
    ensures ExitsOf([FalseExit(r, w)], Misled(r, w, x)[1].probes, FailedListing(r, w))
    ensures Misled(r, w, x)[2].probes
            == Inspected(Misled(r, w, x)[1].probes, FailedListing(r, w))
               - Forgotten([FalseExit(r, w)], [Some(Unmatched)])
  {
    MisledCampaign(request, r, w, x);
    TheyWait(request, r, w, x);
    FalselyEnded(r, w, x);
    hide Campaign, Waiting, Occupied, ExitsOf, Inspected, Forgotten, FailedLanes;
  }

  lemma MisledCampaign(request: Request, r: Repo, w: WorkerId, x: WorkerId)
    requires w != x && request.implementer.capacity == 1
    ensures var vs, steps := Misled(r, w, x), MisledTicks(r, w);
            Campaign(request, vs, steps) && forall k :: 0 <= k < 3 ==> OnlyCampaignLaunches(vs[k], vs[k + 1])
  {
    var vs, steps := Misled(r, w, x), MisledTicks(r, w);
    FirstTick(request, r, w, x);
    SecondTick(request, r, w, x);
    ThirdTick(request, r, w, x);
    hide Tick;
    forall k | 0 <= k < |steps| ensures Next(request, vs[k], vs[k + 1], steps[k])
      && OnlyCampaignLaunches(vs[k], vs[k + 1]) {
      assert k == 0 || k == 1 || k == 2;
    }
  }

  lemma TheyWait(request: Request, r: Repo, w: WorkerId, x: WorkerId)
    requires w != x && request.implementer.capacity == 1
    ensures var v, lane := Misled(r, w, x)[3], LaneKey(r, Implementer);
            && Waiting(v, lane) == {w, x} == Occupied(v.workers, Implementer)
            && |Waiting(v, lane)| == 2 && Waiting(v, lane) * v.misreported == {w}
  {
  }

  lemma FalselyEnded(r: Repo, w: WorkerId, x: WorkerId)
    ensures ExitsOf([FalseExit(r, w)], Misled(r, w, x)[1].probes, FailedListing(r, w))
    ensures Inspected(Misled(r, w, x)[1].probes, FailedListing(r, w))
            - Forgotten([FalseExit(r, w)], [Some(Unmatched)]) == map[]
    ensures FailedLanes([FalseExit(r, w)], [Some(Unmatched)]) == {LaneKey(r, Implementer)}
  {
    var exits, answers := [FalseExit(r, w)], [Some(Unmatched)];
    assert ExitIds(Misled(r, w, x)[1].probes, FailedListing(r, w)) == {w};
    assert exits[0].worker == w;
    assert Answered(answers[0]) && Fails(exits[0], answers[0]) && exits[0].probe.lane == LaneKey(r, Implementer);
    assert Forgotten(exits, answers) == {w};
  }

  lemma FirstTick(request: Request, r: Repo, w: WorkerId, x: WorkerId)
    requires request.implementer.capacity == 1
    ensures Tick(request, Misled(r, w, x)[0], Misled(r, w, x)[1], MisledTicks(r, w)[0].value)
  {
    OneMore(request, Misled(r, w, x)[0], Misled(r, w, x)[1], MisledTicks(r, w)[0].value, r, w);
  }

  lemma SecondTick(request: Request, r: Repo, w: WorkerId, x: WorkerId)
    ensures Tick(request, Misled(r, w, x)[1], Misled(r, w, x)[2], MisledTicks(r, w)[1].value)
  {
    var b, a, i := Misled(r, w, x)[1], Misled(r, w, x)[2], MisledTicks(r, w)[1].value;
    assert Misreported(i.actual, i.listed) == {w};
    NothingLaunched(b, a);
    forall lane ensures |WaitingSeen(a, lane)| == 0 {
      assert WaitingSeen(a, lane) == {};
    }
  }

  lemma ThirdTick(request: Request, r: Repo, w: WorkerId, x: WorkerId)
    requires w != x && request.implementer.capacity == 1
    ensures Tick(request, Misled(r, w, x)[2], Misled(r, w, x)[3], MisledTicks(r, w)[2].value)
  {
    OneMore(request, Misled(r, w, x)[2], Misled(r, w, x)[3], MisledTicks(r, w)[2].value, r, x);
  }

  /** A tick that counts nobody and launches one worker. */
  ghost predicate LaunchesOne(b: View, a: View, i: TickInput, r: Repo, x: WorkerId) {
    && x !in b.workers && a.workers == b.workers[x := Worker(LaneKey(r, Implementer), WorkerRunning)]
    && i.actual == b.workers && Reports(i.actual, i.listed) && i.counts == Counts(r)
    && a.misreported == b.misreported + Misreported(i.actual, i.listed) && b.workers.Keys <= a.misreported
    && x !in a.misreported && b.own <= b.workers.Keys
    && (forall id <- i.listed :: !OccupiesLane(i.listed[id]))
    && a == b.(workers := a.workers, own := b.own + {x}, probes := b.probes[x := Fresh(r)],
               attempts := b.attempts + [Launch(r, x)], misreported := a.misreported)
  }

  lemma OneMore(request: Request, b: View, a: View, i: TickInput, r: Repo, x: WorkerId)
    requires request.implementer.capacity == 1 && LaunchesOne(b, a, i, r, x) && !b.done
    ensures Tick(request, b, a, i)
  {
    hide LaunchesOne, Tracked, CleansOnlySettled, WaitingSeen, LaunchedFor, Occupied, CountOf, Misreported, Drifted,
         Reports;
    hide EndRespected;
    OneWaits(b, a, i, r, x);
    OneLaunched(request, b, a, i, r, x);
    OneTracked(b, a, i, r, x);
    OneDrifts(b, a, i, r, x);
    OneAttempt(b, a, i, r, x);
  }

  lemma OneDrifts(b: View, a: View, i: TickInput, r: Repo, x: WorkerId)
    requires LaunchesOne(b, a, i, r, x)
    ensures Drifted(b.workers, b.claimed, a.workers, a.claimed)
    ensures Drifted(b.workers, {}, i.actual, {}) && Drifted(i.actual, {}, a.workers, {})
    ensures Reports(i.actual, i.listed) && a.misreported == b.misreported + Misreported(i.actual, i.listed)
    ensures b.own <= a.own && forall id <- a.own :: id in b.own || id !in i.listed
  {
  }

  lemma OneAttempt(b: View, a: View, i: TickInput, r: Repo, x: WorkerId)
    requires LaunchesOne(b, a, i, r, x) && !b.done
    ensures b.attempts <= a.attempts && EndRespected(a.attempts[|b.attempts|..])
    ensures forall y <- a.attempts[|b.attempts|..] :: !y.afterStop
  {
    assert a.attempts[|b.attempts|..] == [Launch(r, x)];
  }

  lemma OneWaits(b: View, a: View, i: TickInput, r: Repo, x: WorkerId)
    requires LaunchesOne(b, a, i, r, x)
    ensures forall lane :: |WaitingSeen(a, lane)| <= CountOf(i.counts, lane)
  {
    forall lane ensures |WaitingSeen(a, lane)| <= CountOf(i.counts, lane) {
      if lane == LaneKey(r, Implementer) {
        Included(WaitingSeen(a, lane), {x});
      } else {
        assert WaitingSeen(a, lane) == {};
      }
    }
  }

  lemma OneLaunched(request: Request, b: View, a: View, i: TickInput, r: Repo, x: WorkerId)
    requires request.implementer.capacity == 1 && LaunchesOne(b, a, i, r, x)
    ensures forall role :: |LaunchedFor(b.own, a.own, a.workers, role)|
                           <= Max(0, request.LaneOf(role).capacity - |Occupied(i.listed, role)|)
  {
    forall role ensures |LaunchedFor(b.own, a.own, a.workers, role)|
                        <= Max(0, request.LaneOf(role).capacity - |Occupied(i.listed, role)|) {
      assert Occupied(i.listed, role) == {};
      assert LaunchedFor(b.own, a.own, a.workers, role) == if role == Implementer then {x} else {};
    }
  }

  lemma OneTracked(b: View, a: View, i: TickInput, r: Repo, x: WorkerId)
    requires LaunchesOne(b, a, i, r, x)
    ensures (Tracked(b) ==> Tracked(a)) && (CleansOnlySettled(b) ==> CleansOnlySettled(a))
  {
    SettledGrows(b, a);
  }
}
