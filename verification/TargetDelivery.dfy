/** Preparing a bound pull-request target in a worker's workspace, and pushing to it. */
module TargetDelivery {
  import opened Prelude
  import opened Texts
  import opened PullRequestTarget

  datatype Ref = Ref(repository: string, branch: string)

  datatype PushResult = PushResult(pullRequestUrl: string, targetBranch: string, previousHead: Commit,
                                   pushedHead: Commit)

  /** One worker's workspace, and the hub whose branches it and everybody else push to. */
  class Site {
    const os: Platform
    const parents: Commit -> set<Commit>

    // ---- the workspace ----
    var head: Commit
    var branch: string                 // empty when the head is detached
    var clean: bool
    var marker: Option<Target>

    // ---- the hub ----
    var heads: map<Ref, Commit>

    // ---- outside steps that failed, and what GitHub reported ----
    ghost var faults: nat
    ghost var reports: seq<Pull>

    // ---- history of the target branch since the target was prepared ----
    ghost var start: Option<Commit>
    ghost var history: seq<Event>

    function HeadOf(ref: Ref): Option<Commit>
      reads `heads
    {
      if ref in heads then Some(heads[ref]) else None
    }

    ghost function Now(): Line
      requires marker.Some?
      reads `marker, `start, `history
    {
      Run(Prepared(marker.value.boundHead, start), history)
    }

    /** The marker is one that reads back, and its lease is what the branch's history says it is. */
    ghost predicate Valid()
      reads `marker, `start, `history, `heads
    {
      marker.Some? ==>
        var t := marker.value;
        && ValidTarget(os, t)
        && Possible(parents, Prepared(t.boundHead, start), history)
        && Now().lease == t.leaseHead
        && Now().head == HeadOf(Ref(t.targetRepository, t.targetBranch))
    }

    ghost function Pushes(): seq<Push>
      reads `marker, `start, `history
    {
      if marker.Some? then Now().pushes else []
    }

    ghost method Happened(e: Event, before: Line)
      requires marker.Some? && Possible(parents, Prepared(marker.value.boundHead, start), history) && Now() == before
      requires Enabled(parents, before, e)
      modifies `history
      ensures history == old(history) + [e] && Now() == Step(before, e)
      ensures Possible(parents, Prepared(marker.value.boundHead, start), history)
    {
      ExtendRun(parents, Prepared(marker.value.boundHead, start), history, e);
      history := history + [e];
    }

    /** The worker goes on working, and others push. */
    method Elsewhere()
      requires Valid()
      modifies `head, `branch, `clean, `heads, `history
      ensures Valid() && Pushes() == old(Pushes())
    {
      head, branch, clean, heads := *, *, *, *;
      if marker.Some? {
        ghost var ref := Ref(marker.value.targetRepository, marker.value.targetBranch);
        Happened(Foreign(HeadOf(ref)), Now());
      }
    }

    /** GitHub's report on a pull request, whatever it says; an unreadable head is refused. */
    method InspectPullRequest(repository: string, number: nat) returns (r: Result<Pull, Refusal>)
      requires Valid()
      modifies `head, `branch, `clean, `heads, `history, `faults, `reports
      ensures Valid() && Pushes() == old(Pushes()) && faults >= old(faults)
      ensures r.Ok? ==> IsCommit(os.lower(r.value.sha)) && reports == old(reports) + [r.value]
      ensures r.Err? ==> faults > old(faults) || (|reports| > |old(reports)| && !IsCommit(os.lower(Last(reports).sha)))
    {
      hide IsCommit, ValidTarget;
      Elsewhere();
      var answer := Ask();
      if answer.Some? {
        reports := reports + [answer.value];
      }
      if answer.None? {
        return Err(Unavailable("inspect bound pull request"));
      }
      if !IsCommit(os.lower(answer.value.sha)) {
        return Err(Invalid("GitHub returned an invalid pull-request head"));
      }
      r := Ok(answer.value);
    }

    method Ask() returns (answer: Option<Pull>)
      modifies `faults
      ensures faults == old(faults) + (if answer.None? then 1 else 0)
    {
      answer := AnyPull();
      if answer.None? {
        faults := faults + 1;
      }
    }

    method AnyPull() returns (answer: Option<Pull>)
    {
      answer := *;
    }

    method Fails() returns (fails: bool)
      modifies `faults
      ensures faults == old(faults) + (if fails then 1 else 0)
    {
      fails := *;
      if fails {
        faults := faults + 1;
      }
    }

    /** Fetching the head branch: does it resolve to the bound commit? */
    method Fetch(bound: Commit) returns (r: Result<(), Refusal>)
      modifies `faults
      ensures faults == old(faults) + (if r.Err? then 1 else 0)
    {
      var commit := AnyCommit();
      if commit.None? {
        faults := faults + 1;
        return Err(Unavailable("fetch bound pull-request head"));
      }
      if os.lower(commit.value) != bound {
        faults := faults + 1;
        return Err(Conflict("pull-request head moved while it was fetched"));
      }
      r := Ok(());
    }

    method AnyCommit() returns (commit: Option<Commit>)
    {
      commit := *;
    }

    /** The marker is validated, then replaced at once or not at all. */
    method WriteTarget(t: Target) returns (wrote: bool)
      modifies `marker, `faults
      ensures wrote ==> ValidTarget(os, t) && marker == Some(t) && faults == old(faults)
      ensures !wrote ==> marker == old(marker) && faults >= old(faults) && (ValidTarget(os, t) ==> faults > old(faults))
    {
      var fails := Fails();
      wrote := !fails && ValidTarget(os, t);
      if wrote {
        marker := Some(t);
      }
    }

    predicate AcceptableRequest(request: TargetRequest) {
      && TargetMode(request.kind).Some?
      && IsWorkerId(request.workerId) && IsRepository(request.repository) && IsItemId(request.itemId)
      && IsCommit(os.lower(request.headSha))
      && ParseUrl(os, request.pullRequestUrl, request.repository).Some?
    }

    /** The pull request is open at the bound head, and names a repository and branch a worker may push to. */
    predicate Deliverable(pull: Pull, bound: Commit) {
      && !pull.merged && os.lower(pull.state) == "open" && os.lower(pull.sha) == bound
      && pull.repository.Some? && IsRepository(pull.repository.value) && IsSafeRef(pull.ref)
    }

    /** The mode, pull-request number and canonical address of an acceptable request. */
    method CheckRequest(request: TargetRequest) returns (r: Result<(Mode, nat, string), Refusal>)
      ensures r.Ok? <==> AcceptableRequest(request)
      ensures r.Err? ==> r.error.Invalid?
      ensures r.Ok? ==>
                && TargetMode(request.kind) == Some(r.value.0)
                && IsWorkerId(request.workerId) && IsRepository(request.repository) && IsItemId(request.itemId)
                && IsCommit(os.lower(request.headSha))
                && ParseUrl(os, request.pullRequestUrl, request.repository) == Some((r.value.1, r.value.2))
    {
      var mode := TargetMode(request.kind);
      if mode.None? {
        return Err(Invalid("kind is not bound to an existing pull request"));
      }
      if !IsWorkerId(request.workerId) || !IsRepository(request.repository) || !IsItemId(request.itemId)
         || !IsCommit(os.lower(request.headSha)) {
        return Err(Invalid("worker, repository, item, and 40-hex head are required"));
      }
      var parsed := ParseUrl(os, request.pullRequestUrl, request.repository);
      if parsed.None? {
        return Err(Invalid("pull request address or number"));
      }
      r := Ok((mode.value, parsed.value.0, parsed.value.1));
    }

    /** The reported pull request is open, unmoved, and names a head this worker may deliver to. */
    method CheckPull(pull: Pull, bound: Commit) returns (r: Result<Ref, Refusal>)
      ensures r.Ok? <==> Deliverable(pull, bound)
      ensures r.Ok? ==> os.lower(pull.sha) == bound && IsRepository(r.value.repository) && IsSafeRef(r.value.branch)
                        && pull.repository == Some(r.value.repository) && pull.ref == r.value.branch && !pull.merged
    {
      if pull.merged || os.lower(pull.state) != "open" {
        return Err(Conflict("bound pull request is merged or closed"));
      }
      if os.lower(pull.sha) != bound {
        return Err(Conflict("pull-request head moved"));
      }
      if pull.repository.None? || !IsRepository(pull.repository.value) || !IsSafeRef(pull.ref) {
        return Err(Invalid("GitHub returned an invalid pull-request head repository or branch"));
      }
      r := Ok(Ref(pull.repository.value, pull.ref));
    }

    /** Fetch the head branch and check out exactly the bound head. */
    method CheckOut(bound: Commit, local: string) returns (r: Result<(), Refusal>)
      requires IsCommit(bound)
      modifies `head, `branch, `faults
      ensures faults == old(faults) + (if r.Err? then 1 else 0)
      ensures r.Ok? ==> head == bound && branch == local
    {
      r := Fetch(bound);
      if r.Err? {
        return;
      }
      var fails := Fails();
      if fails {
        return Err(Unavailable("check out bound pull-request head"));
      }
      head, branch := bound, local;
    }

    /** Where to deliver to, as GitHub reports it. */
    method FindDelivery(repository: string, number: nat, bound: Commit) returns (r: Result<Ref, Refusal>)
      requires Valid() && IsCommit(bound)
      modifies `head, `branch, `clean, `heads, `history, `faults, `reports
      ensures Valid() && Pushes() == old(Pushes()) && faults >= old(faults)
      ensures r.Ok? ==> |reports| > |old(reports)| && Deliverable(Last(reports), bound)
                        && r.value == Ref(Last(reports).repository.value, Last(reports).ref)
      ensures r.Err? ==> faults > old(faults) || (|reports| > |old(reports)| && !Deliverable(Last(reports), bound))
      ensures r.Ok? ==> IsRepository(r.value.repository) && IsSafeRef(r.value.branch)
    {
      hide ValidTarget, IsSafeRef, IsRepository, IsCommit;
      var inspected := InspectPullRequest(repository, number);
      if inspected.Err? {
        return Err(inspected.error);
      }
      r := CheckPull(inspected.value, bound);
    }

    /** Bind the workspace to the exact head the request names. */
    method PrepareTarget(request: TargetRequest) returns (r: Result<Target, Refusal>)
      requires Valid() && Standard(os)
      modifies `head, `branch, `clean, `heads, `marker, `start, `history, `faults, `reports
      ensures Valid()
      ensures r.Err? ==>
                || faults > old(faults) || !AcceptableRequest(request)
                || old(marker).Some? || !old(clean) || old(branch) != "cockpit/" + request.workerId
                || (|reports| > |old(reports)| && !Deliverable(Last(reports), os.lower(request.headSha)))
      ensures r.Ok? ==>
                && AcceptableRequest(request) && old(clean) && old(branch) == "cockpit/" + request.workerId
                && |reports| > |old(reports)| && Deliverable(Last(reports), os.lower(request.headSha))
                && old(marker).None? && marker == Some(r.value) && Pushes() == []
                && r.value == BuiltTarget(request, TargetMode(request.kind).value, os.lower(request.headSha),
                                          ParseUrl(os, request.pullRequestUrl, request.repository).value.1,
                                          Last(reports).repository.value, Last(reports).ref)
                && head == r.value.boundHead && branch == r.value.localBranch
      ensures r.Ok? ==> |reports| > 0 && IsBinding(os, request, Last(reports), r.value)
      ensures r.Err? ==> marker == old(marker) && Pushes() == old(Pushes())
    {
      hide IsBinding;
      hide Standard, ParseUrl, ValidTarget, IsSafeRef, IsRepository, IsWorkerId, IsItemId, TargetMode, IsCommit;
      var checked := CheckRequest(request);
      if checked.Err? {
        return Err(checked.error);
      }
      if marker.Some? {
        return Err(Conflict("worker target is already prepared"));
      }
      if !clean || branch != "cockpit/" + request.workerId {
        return Err(Conflict("target workspace is not clean, or not on its Cockpit branch"));
      }
      var (mode, number, url) := checked.value;
      var bound := os.lower(request.headSha);
      var ref := FindDelivery(request.repository, number, bound);
      if ref.Err? {
        return Err(ref.error);
      }
      var t := BuiltTarget(request, mode, bound, url, ref.value.repository, ref.value.branch);
      var done := CheckOut(bound, t.localBranch);
      if done.Err? {
        return Err(done.error);
      }
      BuiltTargetIsValid(os, request, mode, bound, ref.value.repository, ref.value.branch);
      ParsedNumberIsPositive(os, request.pullRequestUrl, request.repository);
      var wrote := WriteTarget(t);
      if !wrote {
        return Err(Unavailable("write worker target"));
      }
      start, history := HeadOf(ref.value), [];
      BuiltIsBinding(os, request, Last(reports));
      r := Ok(t);
    }

    /**
     Git's push with a lease: it takes the workspace head of that moment and takes effect only if the
     branch is still at the expected head, or already at the head it pushes, which Git finds out first. A
     push that took effect can still be reported as failed.
     */
    method GitPush(ref: Ref, lease: Commit) returns (reported: bool, ghost pushed: Option<Commit>)
      modifies `heads, `faults
      ensures faults >= old(faults)
      ensures !reported ==> faults > old(faults) || old(HeadOf(ref)) !in {Some(lease), Some(head)}
      ensures pushed.Some? ==> old(HeadOf(ref)) in {Some(lease), Some(head)} && pushed.value == head
                               && heads == old(heads)[ref := head]
      ensures pushed.None? ==> heads == old(heads) && !reported
    {
      var refused := Fails();
      reported, pushed := false, None;
      if ref in heads && (heads[ref] == head || heads[ref] == lease) && !refused {
        heads := heads[ref := head];
        pushed := Some(head);
        var lost := Fails();
        reported := !lost;
      }
    }

    /** GitHub reports the target at the expected head. */
    predicate SameTarget(pull: Pull, t: Target) {
      os.lower(pull.sha) == t.leaseHead && pull.repository == Some(t.targetRepository) && pull.ref == t.targetBranch
    }

    /** The branch is neither at the head the marker expects nor at the workspace's. */
    predicate BranchMoved(t: Target)
      reads `heads, `head
    {
      HeadOf(Ref(t.targetRepository, t.targetBranch)) !in {Some(t.leaseHead), Some(head)}
    }

    /** The workspace is this worker's, on its own branch of a writable target. */
    predicate Pushable(workerId: string)
      reads `marker, `branch, `head
    {
      && IsWorkerId(workerId) && marker.Some?
      && marker.value.workerId == workerId && marker.value.mode == Branch && branch == marker.value.localBranch
      && IsCommit(os.lower(head))
    }

    /** The checks that need nobody else. */
    method CheckWorkspace(workerId: string) returns (r: Option<Refusal>)
      ensures r.None? <==> Pushable(workerId)
    {
      if !IsWorkerId(workerId) {
        return Some(Invalid("invalid worker ID"));
      }
      if marker.None? {
        return Some(Conflict("worker target is not prepared"));
      }
      if marker.value.workerId != workerId || marker.value.mode != Branch {
        return Some(Conflict("worker target is not a writable branch"));
      }
      if branch != marker.value.localBranch {
        return Some(Conflict("worker left its prepared target branch"));
      }
      r := if IsCommit(os.lower(head)) then None else Some(Invalid("Git returned an invalid workspace head"));
    }

    /** GitHub is asked once more: the pull request must be where the marker expects it. */
    method CheckReport(t: Target) returns (r: Option<Refusal>)
      requires Valid() && marker == Some(t)
      modifies `head, `branch, `clean, `heads, `history, `faults, `reports
      ensures Valid() && Pushes() == old(Pushes()) && faults >= old(faults)
      ensures r.None? ==> |reports| > |old(reports)| && SameTarget(Last(reports), t)
      ensures r.Some? ==> faults > old(faults) || (|reports| > |old(reports)| && !SameTarget(Last(reports), t))
    {
      hide Standard, ParseUrl, IsSafeRef, IsRepository, IsWorkerId, IsItemId, TargetMode;
      var parsed := ParseUrl(os, t.pullRequestUrl, t.repository);
      var inspected := InspectPullRequest(t.repository, parsed.value.0);
      if inspected.Err? {
        return Some(inspected.error);
      }
      var pull := inspected.value;
      if os.lower(pull.sha) != t.leaseHead {
        return Some(Conflict("pull-request head moved"));
      }
      if pull.repository != Some(t.targetRepository) || pull.ref != t.targetBranch {
        return Some(Conflict("pull-request target changed after preparation"));
      }
      r := None;
    }

    /** Push the workspace head to the bound branch; `push` is set exactly when the branch was changed. */
    method PushTarget(workerId: string) returns (r: Result<PushResult, Refusal>, ghost push: Option<Push>)
      requires Valid()
      modifies `head, `branch, `clean, `heads, `marker, `history, `faults, `reports
      ensures Valid() && faults >= old(faults)
      ensures r.Err? ==>
                || faults > old(faults) || !old(Pushable(workerId))
                || var t := old(marker).value;
                   || !Descends(parents, os.lower(old(head)), t.boundHead)
                   || (|reports| > |old(reports)| && !SameTarget(Last(reports), t))
                   || (|Pushes()| == |old(Pushes())| && BranchMoved(t))
      ensures Pushes() == old(Pushes()) + (if push.Some? then [push.value] else [])
      ensures r.Ok? ==> push.Some? && old(marker).Some?
                        && r.value == PushResult(old(marker).value.pullRequestUrl, old(marker).value.targetBranch,
                                                 old(marker).value.leaseHead, push.value.checked)
                        && marker == Some(old(marker).value.(leaseHead := push.value.checked))
      ensures push.Some? ==>
                && old(Pushable(workerId)) && push.value.checked == os.lower(old(head))
                && old(marker).value.kind in {"pr-cure", "pr-cure-change", "pr-review-fix"}
                && |reports| > |old(reports)| && SameTarget(Last(reports), old(marker).value)
                && push.value.pushed == head && push.value.replaced in {old(marker).value.leaseHead, head}
                && Descends(parents, push.value.checked, old(marker).value.boundHead)
                && (marker == old(marker) || marker == Some(old(marker).value.(leaseHead := push.value.checked)))
      ensures push.None? ==> marker == old(marker)
    {
      hide Standard, ParseUrl, IsSafeRef, IsRepository, IsWorkerId, IsItemId, TargetMode, Descends, IsCommit;
      push := None;
      var refusal := CheckWorkspace(workerId);
      if refusal.Some? {
        return Err(refusal.value), None;
      }
      var t := marker.value;
      ValidTargetsAre(os, t);
      var checked := os.lower(head);
      var descends := IsAncestor(t.boundHead, checked);
      if !descends {
        return Err(Conflict("workspace head does not descend from the bound pull-request head")), None;
      }
      refusal := CheckReport(t);
      if refusal.Some? {
        return Err(refusal.value), None;
      }
      Elsewhere();
      r, push := Deliver(t, checked);
    }

    /** `git merge-base --is-ancestor`, which answers yes only for a chain of parents it has found. */
    method IsAncestor(a: Commit, c: Commit) returns (yes: bool)
      modifies `faults
      ensures yes ==> Descends(parents, c, a)
      ensures faults >= old(faults) && (!yes ==> faults > old(faults) || !Descends(parents, c, a))
    {
      var path := Chain();
      yes := Leads(parents, c, a, path);
      if !yes {
        faults := faults + 1;
      }
    }

    method Chain() returns (path: seq<Commit>)
    {
      path := *;
    }

    method Deliver(t: Target, checked: Commit) returns (r: Result<PushResult, Refusal>, ghost push: Option<Push>)
      requires Valid() && marker == Some(t) && IsCommit(checked) && Descends(parents, checked, t.boundHead)
      modifies `heads, `marker, `history, `faults
      ensures Valid() && faults >= old(faults)
      ensures r.Err? ==> faults > old(faults) || (|Pushes()| == |old(Pushes())| && BranchMoved(t))
      ensures Pushes() == old(Pushes()) + (if push.Some? then [push.value] else [])
      ensures r.Ok? ==> push.Some?
                        && r.value == PushResult(t.pullRequestUrl, t.targetBranch, t.leaseHead, checked)
                        && marker == Some(t.(leaseHead := checked))
      ensures push.Some? ==> push.value.replaced in {t.leaseHead, head} && push.value.checked == checked
                             && push.value.pushed == head
                             && (marker == old(marker) || marker == Some(t.(leaseHead := checked)))
      ensures push.None? ==> marker == old(marker)
    {
      hide Standard, ParseUrl, IsSafeRef, IsRepository, IsWorkerId, IsItemId, TargetMode, IsCommit, Descends;
      ghost var before := Now();
      var ref := Ref(t.targetRepository, t.targetBranch);
      var reported;
      ghost var pushed;
      reported, pushed := GitPush(ref, t.leaseHead);
      push := if pushed.Some? then Some(Push(before.head.value, checked, pushed.value)) else None;
      var wrote := false;
      if reported {
        wrote := WriteTarget(t.(leaseHead := checked));
      }
      if pushed.Some? {
        BoundStays(Prepared(t.boundHead, start), history);
        Happened(Own(push.value, wrote), before);
      }
      r := if !reported then Err(Unavailable("push bound pull-request branch"))
           else if !wrote then Err(Unavailable("write worker target"))
           else Ok(PushResult(t.pullRequestUrl, t.targetBranch, t.leaseHead, checked));
    }
  }
}
