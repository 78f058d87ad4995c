/**
 Everything a campaign talks to: the worker manager, Snowcat's queue, the repository catalog and the
 preflight service. Every answer is arbitrary within what that party promises, so whatever is proved
 of the controller holds for every behaviour of its surroundings.
 */
module CampaignWorld {
  import opened Prelude
  import opened CampaignTypes
  import opened CampaignRuns

  class World {
    var workers: map<WorkerId, Worker>
    var claimed: set<WorkerId>
    var clock: int
    ghost var attempts: seq<Attempt>
    ghost var cleanups: seq<WorkerId>
    ghost var sightings: set<Sighting>
    ghost var calls: seq<Call>
    ghost var setups: seq<SetupAnswer>
    ghost var proofs: seq<ProofAnswer>
    ghost var misreported: set<WorkerId>
    ghost var unlisted: nat                            // how often the inventory failed

    /** Time passed, and workers only moved the way workers move. */
    twostate predicate Onward()
      reads `workers, `claimed, `clock
    {
      Drifted(old(workers), old(claimed), workers, claimed) && old(clock) <= clock
    }

    /** Workers end, claim, or are launched by others; time passes. */
    method Drift()
      modifies `workers, `claimed, `clock
      ensures Onward()
    {
      var w: map<WorkerId, Worker> := *;
      var c: set<WorkerId> := *;
      var t: int := *;
      if Drifted(workers, claimed, w, c) && clock <= t {
        workers, claimed, clock := w, c, t;
      }
    }

    /** The manager's inventory, or its failure. A running worker whose terminal does not answer is listed as failed. */
    method ListWorkers() returns (r: Option<map<WorkerId, Worker>>)
      modifies `workers, `claimed, `clock, `misreported, `unlisted
      ensures Onward()
      ensures r.Some? ==> Reports(workers, r.value) && misreported == old(misreported) + Misreported(workers, r.value)
      ensures r.None? ==> misreported == old(misreported)
      ensures unlisted == old(unlisted) + (if r.None? then 1 else 0)
    {
      Drift();
      var answers: bool := *;
      r := None;
      if answers {
        var silent: set<WorkerId> := *;
        var listed := map id | id in workers ::
          if id in silent && workers[id].status == WorkerRunning then workers[id].(status := Failed) else workers[id];
        r := Some(listed);
        misreported := misreported + Misreported(workers, listed);
      } else {
        unlisted := unlisted + 1;
      }
    }

    /** Snowcat's correlation for one exited worker; the exit and the answer are remembered. */
    method ObserveExit(e: Exit) returns (r: Option<Outcome>)
      modifies `workers, `claimed, `clock, `sightings, `calls
      ensures Onward() && calls == old(calls) + [Correlated(Question(e.worker, r))]
      ensures sightings == old(sightings) + (if r.Some? then {Sighting(e, r.value)} else {})
      ensures r.Some? ==> (r.value == Unmatched <==> e.worker !in claimed)
    {
      r := ObserveWorker(e.worker);
      if r.Some? {
        sightings := sightings + {Sighting(e, r.value)};
      }
    }

    /** Snowcat reports `unmatched` exactly for a worker without attempts. */
    method ObserveWorker(id: WorkerId) returns (r: Option<Outcome>)
      modifies `workers, `claimed, `clock, `calls
      ensures Onward() && calls == old(calls) + [Correlated(Question(id, r))]
      ensures r.Some? ==> (r.value == Unmatched <==> id !in claimed)
    {
      Drift();
      var answers: bool := *;
      var o: Outcome := *;
      if !answers {
        r := None;
      } else if id !in claimed {
        r := Some(Unmatched);
      } else {
        r := Some(if o == Unmatched then ClaimedNow else o);
      }
      calls := calls + [Correlated(Question(id, r))];
    }

    /** The claimable counts of one repository. */
    method ObserveQueue(repository: Repo) returns (r: Option<Claimable>)
      modifies `workers, `claimed, `clock, `calls
      ensures Onward() && calls == old(calls) + [ObservedQueue(QueueAnswer(repository, r))]
    {
      Drift();
      r := *;
      calls := calls + [ObservedQueue(QueueAnswer(repository, r))];
    }

    /** The managed source is prepared again; the new base commit, or a refusal. */
    method Setup(repository: Repo) returns (base: Option<string>)
      modifies `workers, `claimed, `clock, `setups
      ensures Onward() && setups == old(setups) + [SetupAnswer(repository, base)]
    {
      Drift();
      base := *;
      setups := setups + [SetupAnswer(repository, base)];
    }

    /** One live provider proof: its expiry, or a failure. */
    method RefreshPreflight(pair: Pair) returns (expiresAt: Option<int>)
      modifies `workers, `claimed, `clock, `proofs
      ensures Onward() && proofs == old(proofs) + [ProofAnswer(pair, expiresAt)]
    {
      Drift();
      expiresAt := *;
      proofs := proofs + [ProofAnswer(pair, expiresAt)];
    }

    /** A launch starts a fresh running worker, or fails and may leave a record of any status. */
    method Launch(lane: LaneKey, base: string, ghost afterStop: bool, ghost afterLoss: bool,
                  ghost refreshWrote: Option<bool>)
      returns (r: Option<WorkerId>)
      modifies `workers, `claimed, `clock, `attempts
      ensures Onward()
      ensures |attempts| == |old(attempts)| + 1 && old(attempts) <= attempts
      ensures var a := attempts[|old(attempts)|];
              && a.lane == lane && a.base == base && a.worker == r
              && a.afterStop == afterStop && a.afterLoss == afterLoss && a.refreshWrote == refreshWrote
      ensures r.Some? ==> r.value !in old(workers) && r.value !in old(claimed)
                          && r.value in workers && workers[r.value] == Worker(lane, WorkerRunning)
    {
      Drift();
      var starts: bool := *;
      var id: WorkerId := *;
      var leaves: bool := *;
      var status: WorkerStatus := *;
      if id in workers || id in claimed {
        // worker IDs are random and fresh; a colliding draw counts as a failed launch
        r := None;
        attempts := attempts + [Attempt(lane, base, None, None, afterStop, afterLoss, refreshWrote)];
      } else if starts {
        r := Some(id);
        workers := workers[id := Worker(lane, WorkerRunning)];
        attempts := attempts + [Attempt(lane, base, r, None, afterStop, afterLoss, refreshWrote)];
      } else {
        r := None;
        if leaves {
          workers := workers[id := Worker(lane, status)];
        }
        attempts := attempts + [Attempt(lane, base, None, if leaves then Some(status) else None, afterStop,
                                        afterLoss, refreshWrote)];
      }
    }

    /** The manager refuses to clean an unknown or allocating worker; of all others it may refuse any. */
    method Cleanup(id: WorkerId) returns (ok: bool)
      modifies `workers, `claimed, `clock, `cleanups, `calls
      ensures Onward() && calls == old(calls) + [CleanedUp(id)]
      ensures cleanups == old(cleanups) + [id]
      ensures ok ==> id in workers && workers[id].status == Cleaned
    {
      Drift();
      cleanups, calls := cleanups + [id], calls + [CleanedUp(id)];
      ok := *;
      if id !in workers || workers[id].status == Allocating {
        ok := false;
      }
      if ok {
        workers := workers[id := workers[id].(status := Cleaned)];
      }
    }
  }
}
