/** Observing one repository's queue: which claimed items are claimable again, and the counts per role. */
module QueueView {
  import opened Prelude
  import opened Texts

  datatype Role = Discoverer | Implementer | Reviewer | Unassigned

  /** One attempt at an item; a zero claim time is None, an open attempt has no outcome. */
  datatype Attempt = Attempt(sequence: int, claimedAt: Option<int>, outcome: string, endedAt: Option<int>)

  datatype WorkItem = WorkItem(
    id: string, repository: string, kind: string, status: string,
    requiredArtifact: string, allowedActions: seq<string>, attempts: seq<Attempt>)

  // ---- The latest attempt --------------------------------------------------------------------

  predicate Complete(a: Attempt) { a.sequence >= 1 && a.claimedAt.Some? }

  ghost predicate WellFormed(attempts: seq<Attempt>) {
    && attempts != []
    && (forall a <- attempts :: Complete(a))
    && (forall i, j | 0 <= i < j < |attempts| :: attempts[i].sequence != attempts[j].sequence)
  }

  ghost predicate IsLatest(attempts: seq<Attempt>, a: Attempt) {
    a in attempts && forall b <- attempts :: b.sequence <= a.sequence
  }

  /** The latest attempt is either still open, or expired no earlier than it was claimed. */
  predicate Consistent(a: Attempt) {
    if a.outcome == "" then a.endedAt.None?
    else a.outcome == "expired" && a.endedAt.Some? && a.claimedAt.Some? && a.claimedAt.value <= a.endedAt.value
  }

  /** Whether a claimed item's current attempt has expired, or None when its attempts make no sense. */
  ghost predicate Answers(attempts: seq<Attempt>, r: Option<bool>) {
    if WellFormed(attempts) && exists a :: IsLatest(attempts, a) && Consistent(a) then
      exists a :: IsLatest(attempts, a) && Consistent(a) && r == Some(a.outcome == "expired")
    else r == None
  }

  method CurrentAttemptExpired(item: WorkItem) returns (r: Option<bool>)
    ensures if item.status != "claimed" then r == None else Answers(item.attempts, r)
  {
    hide Answers;
    var attempts := item.attempts;
    if item.status != "claimed" || attempts == [] {
      SenselessWithout(attempts);
      return None;
    }
    var latest := attempts[0];
    if latest.sequence < 1 || latest.claimedAt.None? {
      SenselessAt(attempts, 0);
      return None;
    }
    var seen := {latest.sequence};
    for i := 1 to |attempts|
      invariant seen == set k | 0 <= k < i :: attempts[k].sequence
      invariant forall k | 0 <= k < i :: Complete(attempts[k]) && attempts[k].sequence <= latest.sequence
      invariant forall j, k | 0 <= j < k < i :: attempts[j].sequence != attempts[k].sequence
      invariant exists k | 0 <= k < i :: attempts[k] == latest
    {
      var attempt := attempts[i];
      if attempt.sequence < 1 || attempt.claimedAt.None? {
        SenselessAt(attempts, i);
        return None;
      }
      if attempt.sequence in seen {
        var k :| 0 <= k < i && attempts[k].sequence == attempt.sequence;
        SenselessTwice(attempts, k, i);
        return None;
      }
      seen := seen + {attempt.sequence};
      if attempt.sequence > latest.sequence {
        latest := attempt;
      }
    }
    LatestDecides(attempts, latest);
    if latest.outcome == "" {
      return if latest.endedAt.None? then Some(false) else None;
    }
    if latest.outcome != "expired" || latest.endedAt.None? || latest.endedAt.value < latest.claimedAt.value {
      return None;
    }
    r := Some(true);
  }

  lemma SenselessWithout(attempts: seq<Attempt>)
    ensures attempts == [] ==> Answers(attempts, None)
  {
  }

  lemma SenselessAt(attempts: seq<Attempt>, i: nat)
    requires i < |attempts| && !Complete(attempts[i])
    ensures Answers(attempts, None)
  {
    assert attempts[i] in attempts;
  }

  lemma SenselessTwice(attempts: seq<Attempt>, i: nat, j: nat)
    requires i < j < |attempts| && attempts[i].sequence == attempts[j].sequence
    ensures Answers(attempts, None)
  {
  }

  lemma LatestDecides(attempts: seq<Attempt>, latest: Attempt)
    requires WellFormed(attempts) && IsLatest(attempts, latest)
    ensures Answers(attempts, if Consistent(latest) then Some(latest.outcome == "expired") else None)
  {
    LatestIsUnique(attempts, latest);
    hide WellFormed, IsLatest, Consistent;
  }

  lemma LatestIsUnique(attempts: seq<Attempt>, a: Attempt)
    requires WellFormed(attempts) && IsLatest(attempts, a)
    ensures forall b :: IsLatest(attempts, b) ==> b == a
  {
    forall b | IsLatest(attempts, b) ensures b == a {
      var i :| 0 <= i < |attempts| && attempts[i] == a;
      var j :| 0 <= j < |attempts| && attempts[j] == b;
      assert a.sequence == b.sequence;
    }
  }

  /** In whatever order the attempts are listed, the answer is the same. */
  lemma OrderDoesNotMatter(x: seq<Attempt>, y: seq<Attempt>, r: Option<bool>, s: Option<bool>)
    requires multiset(x) == multiset(y) && Answers(x, r) && Answers(y, s)
    ensures r == s
  {
    SameAttempts(x, y);
    LatestUnordered(x, y);
    hide Consistent, IsLatest, WellFormed;
    if a :| WellFormed(x) && IsLatest(x, a) && Consistent(a) {
      LatestIsUnique(x, a);
      LatestIsUnique(y, a);
    }
  }

  lemma LatestUnordered(x: seq<Attempt>, y: seq<Attempt>)
    requires forall a :: a in x <==> a in y
    ensures forall a :: IsLatest(x, a) <==> IsLatest(y, a)
  {
  }

  lemma SameAttempts(x: seq<Attempt>, y: seq<Attempt>)
    requires multiset(x) == multiset(y)
    ensures (forall a :: a in x <==> a in y) && (WellFormed(x) <==> WellFormed(y))
  {
    forall a ensures a in x <==> a in y {
      assert a in x <==> a in multiset(x);
      assert a in y <==> a in multiset(y);
    }
    assert |multiset(x)| == |x| && |multiset(y)| == |y|;
    if WellFormed(x) {
      StaysDistinct(x, y);
    }
    if WellFormed(y) {
      StaysDistinct(y, x);
    }
  }

  lemma StaysDistinct(x: seq<Attempt>, y: seq<Attempt>)
    requires multiset(x) == multiset(y) && WellFormed(x) && forall a :: a in x <==> a in y
    ensures forall i, j | 0 <= i < j < |y| :: y[i].sequence != y[j].sequence
  {
    forall i, j | 0 <= i < j < |y| ensures y[i].sequence != y[j].sequence {
      assert y[i] in x && y[j] in x;
      if y[i] == y[j] {
        TwiceCounts(y, i, j);
        OnceCounts(x, y[i]);
      }
    }
  }

  lemma TwiceCounts<T>(s: seq<T>, i: nat, j: nat)
    requires i < j < |s| && s[i] == s[j]
    ensures multiset(s)[s[i]] >= 2
  {
    assert s == s[..j] + [s[j]] + s[j + 1..];
    assert s[..j][i] == s[i] && s[i] in s[..j];
  }

  lemma {:induction false} OnceCounts(s: seq<Attempt>, a: Attempt)
    requires forall i, j | 0 <= i < j < |s| :: s[i].sequence != s[j].sequence
    ensures multiset(s)[a] <= 1
    decreases |s|
  {
    if s != [] {
      OnceCounts(Front(s), a);
      assert s == Front(s) + [Last(s)];
      if a == Last(s) {
        assert a !in Front(s);
      }
    }
  }

  // ---- Roles and contracts ----------------------------------------------------------------------

  /** A row of the classification; its role is rendered as text in the generated table. */
  datatype Rule<R> =
    | Suffix(suffix: string, role: R)
    | Exact(kinds: seq<string>, role: R)
    | Fallback(role: R)

  const RULES := [
    Suffix("-discovery", Discoverer), Exact(["pr-review"], Reviewer), Exact(["release-needed"], Unassigned),
    Fallback(Implementer)]

  predicate Applies(rule: Rule<Role>, kind: string) {
    match rule
    case Suffix(suffix, _) => HasSuffix(kind, suffix)
    case Exact(kinds, _) => kind in kinds
    case Fallback(_) => true
  }

  function FirstRole(rules: seq<Rule<Role>>, kind: string): Role {
    if rules == [] then Unassigned else if Applies(rules[0], kind) then rules[0].role else FirstRole(rules[1..], kind)
  }

  lemma FirstRoleIs(kind: string)
    ensures FirstRole(RULES, kind) == if HasSuffix(kind, "-discovery") then Discoverer
                                      else if kind == "pr-review" then Reviewer
                                      else if kind == "release-needed" then Unassigned else Implementer
  {
    var r1, r2, r3 := RULES[1..], RULES[2..], RULES[3..];
    assert r1[0] == RULES[1] && r1[1..] == r2 && r2[0] == RULES[2] && r2[1..] == r3 && r3[0] == RULES[3];
    assert FirstRole(r3, kind) == Implementer;
    assert FirstRole(r2, kind) == if kind == "release-needed" then Unassigned else Implementer;
    assert FirstRole(r1, kind) == if kind == "pr-review" then Reviewer else FirstRole(r2, kind);
  }

  /** The first rule that applies decides. */
  method Classify(kind: string) returns (role: Role)
    ensures role == FirstRole(RULES, kind)
    ensures role == if HasSuffix(kind, "-discovery") then Discoverer else if kind == "pr-review" then Reviewer
                    else if kind == "release-needed" then Unassigned else Implementer
  {
    FirstRoleIs(kind);
    for i := 0 to |RULES|
      invariant FirstRole(RULES, kind) == FirstRole(RULES[i..], kind)
    {
      assert RULES[i..][1..] == RULES[i + 1..];
      if Applies(RULES[i], kind) {
        return RULES[i].role;
      }
    }
    role := Unassigned;
  }

  datatype Contract = Ready | Unknown | Suspicious

  method AssessContract(artifact: string, actions: seq<string>) returns (c: Contract)
    ensures c.Ready? <==> (artifact == "none" && "write" !in actions)
                          || (artifact == "pull-request" && "write" in actions && "open-pr" in actions)
    ensures c.Unknown? <==> artifact != "none" && artifact != "pull-request"
  {
    if artifact != "none" && artifact != "pull-request" {
      return Unknown;
    }
    var write, open := false, false;
    for i := 0 to |actions|
      invariant write <==> "write" in actions[..i]
      invariant open <==> "open-pr" in actions[..i]
    {
      assert actions[..i + 1] == actions[..i] + [actions[i]];
      write := write || actions[i] == "write";
      open := open || actions[i] == "open-pr";
    }
    assert actions[..|actions|] == actions;
    if artifact == "pull-request" && (!write || !open) {
      return Suspicious;
    }
    c := if write && (artifact != "pull-request" || !open) then Suspicious else Ready;
  }

  // ---- Counting -----------------------------------------------------------------------------------

  /** A worker could deliver this item as declared. */
  predicate IsReady(i: WorkItem) {
    (i.requiredArtifact == "none" && "write" !in i.allowedActions)
    || (i.requiredArtifact == "pull-request" && "write" in i.allowedActions && "open-pr" in i.allowedActions)
  }

  predicate CountsFor(i: WorkItem, role: Role) {
    FirstRole(RULES, i.kind) == role && (role == Unassigned || IsReady(i))
  }

  function Count(items: seq<WorkItem>, role: Role): nat
    decreases |items|
  {
    if items == [] then 0 else Count(Front(items), role) + (if CountsFor(Last(items), role) then 1 else 0)
  }

  function Flagged(items: seq<WorkItem>): nat
    decreases |items|
  {
    if items == [] then 0
    else Flagged(Front(items)) + (if FirstRole(RULES, Last(items).kind) != Unassigned && !IsReady(Last(items)) then 1
                                  else 0)
  }

  /** Every item is counted once: for one role, or as flagged. */
  lemma {:induction false} EveryItemCountsOnce(items: seq<WorkItem>)
    ensures Count(items, Discoverer) + Count(items, Implementer) + Count(items, Reviewer) + Count(items, Unassigned)
            + Flagged(items)
            == |items|
    decreases |items|
  {
    if items != [] {
      EveryItemCountsOnce(Front(items));
      var role := FirstRole(RULES, Last(items).kind);
      match role case Discoverer => case Implementer => case Reviewer => case Unassigned =>
    }
  }

  predicate InProjection(i: WorkItem, repository: string) {
    i.repository == repository && (i.status == "queued" || i.status == "claimed") && i.id != "" && i.kind != ""
  }

  datatype Snapshot = Snapshot(counts: map<Role, nat>, flagged: nat, items: seq<WorkItem>)

  /** These are the queued items and, in order, the claimed ones whose current attempt has expired. */
  ghost predicate Claimable(queued: seq<WorkItem>, claimed: seq<WorkItem>, items: seq<WorkItem>) {
    exists expired: seq<bool> ::
      |expired| == |claimed| && (forall i | 0 <= i < |claimed| :: Answers(claimed[i].attempts, Some(expired[i])))
      && items == queued + Kept(claimed, expired)
  }

  /** A claimed item Snowcat should not have listed as claimed, or whose attempts make no sense. */
  ghost predicate Senseless(i: WorkItem) { i.status != "claimed" || Answers(i.attempts, None) }

  function Kept(claimed: seq<WorkItem>, expired: seq<bool>): seq<WorkItem>
    requires |claimed| == |expired|
    decreases |claimed|
  {
    if claimed == [] then [] else Kept(Front(claimed), Front(expired)) + (if Last(expired) then [Last(claimed)] else [])
  }

  method ExpiredOnes(claimed: seq<WorkItem>) returns (r: Option<seq<WorkItem>>, ghost expired: seq<bool>)
    ensures r.Some? ==> |expired| == |claimed|
                        && (forall i | 0 <= i < |claimed| :: claimed[i].status == "claimed"
                                                             && Answers(claimed[i].attempts, Some(expired[i])))
                        && r.value == Kept(claimed, expired)
    ensures r.None? ==> exists i <- claimed :: Senseless(i)
  {
    expired := [];
    var kept := [];
    for i := 0 to |claimed|
      invariant |expired| == i
      invariant forall k | 0 <= k < i :: claimed[k].status == "claimed" && Answers(claimed[k].attempts,
            Some(expired[k]))
      invariant kept == Kept(claimed[..i], expired)
    {
      var e := CurrentAttemptExpired(claimed[i]);
      if e.None? {
        assert claimed[i] in claimed && Senseless(claimed[i]);
        return None, expired;
      }
      assert Front(claimed[..i + 1]) == claimed[..i] && Front(expired + [e.value]) == expired;
      expired := expired + [e.value];
      if e.value {
        kept := kept + [claimed[i]];
      }
    }
    assert claimed[..|claimed|] == claimed;
    r := Some(kept);
  }

  /** One observation: exact counts of what is claimable now, or nothing at all. */
  method Observe(repository: string, queued: seq<WorkItem>, claimed: seq<WorkItem>) returns (r: Option<Snapshot>)
    ensures r.Some? ==>
              && (forall i <- claimed :: i.status == "claimed") && Claimable(queued, claimed, r.value.items)
              && (forall i <- r.value.items :: InProjection(i, repository))
              && (forall role :: role in r.value.counts && r.value.counts[role] == Count(r.value.items, role))
              && r.value.flagged == Flagged(r.value.items)
    ensures r.Some? ==>
              && |r.value.items| >= |queued| && r.value.items[..|queued|] == queued
              && |r.value.items| == |queued| + |Expired(claimed)|
              && (forall i :: i in r.value.items <==> i in queued || IsReclaimable(claimed, i))
              && (forall role :: role in r.value.counts && r.value.counts[role] == |Counting(r.value.items, role)|)
    ensures r.None? ==> || (exists i <- claimed :: Senseless(i))
                        || (exists items :: Claimable(queued, claimed, items)
                                            && exists i <- items :: !InProjection(i, repository))
  {
    var more;
    ghost var expired;
    more, expired := ExpiredOnes(claimed);
    if more.None? {
      return None;
    }
    assert Claimable(queued, claimed, queued + more.value);
    KeptAre(claimed, expired);
    forall role: Role ensures Count(queued + more.value, role) == |Counting(queued + more.value, role)| {
      CountIs(queued + more.value, role);
    }
    hide Count, Counting, Kept, Answers;
    r := CountItems(repository, queued + more.value);
  }

  /** A listed claimed item whose current attempt has expired. */
  ghost predicate IsReclaimable(claimed: seq<WorkItem>, i: WorkItem) {
    i in claimed && Answers(i.attempts, Some(true))
  }

  ghost function Expired(claimed: seq<WorkItem>): set<int> {
    set k | 0 <= k < |claimed| && Answers(claimed[k].attempts, Some(true))
  }

  lemma AnswersOnce(attempts: seq<Attempt>, x: bool, y: bool)
    requires Answers(attempts, Some(x)) && Answers(attempts, Some(y))
    ensures x == y
  {
    OrderDoesNotMatter(attempts, attempts, Some(x), Some(y));
  }

  /** Kept are exactly the items whose answer is yes. */
  lemma {:induction false} KeptAre(claimed: seq<WorkItem>, expired: seq<bool>)
    requires |expired| == |claimed|
    requires forall k | 0 <= k < |claimed| :: Answers(claimed[k].attempts, Some(expired[k]))
    ensures forall i :: i in Kept(claimed, expired) <==> IsReclaimable(claimed, i)
    ensures |Kept(claimed, expired)| == |Expired(claimed)|
    decreases |claimed|
  {
    hide Answers, Expired, IsReclaimable;
    if claimed == [] {
      OneMoreExpired([], None);
    } else {
      var front, last := Front(claimed), Last(claimed);
      KeptAre(front, Front(expired));
      assert claimed == front + [last];
      if Answers(last.attempts, Some(true)) {
        AnswersOnce(last.attempts, true, Last(expired));
      }
      OneMoreExpired(front, Some(last));
    }
  }

  /** Nothing is reclaimable of nothing, and one more item adds itself if its attempt has expired. */
  lemma OneMoreExpired(claimed: seq<WorkItem>, last: Option<WorkItem>)
    ensures claimed == [] ==> |Expired(claimed)| == 0 && forall i :: !IsReclaimable(claimed, i)
    ensures last.Some? ==>
              var more := Answers(last.value.attempts, Some(true));
              && |Expired(claimed + [last.value])| == |Expired(claimed)| + (if more then 1 else 0)
              && forall i :: IsReclaimable(claimed + [last.value], i)
                             <==> IsReclaimable(claimed, i) || (more && i == last.value)
  {
    hide Answers;
    if last.Some? {
      assert Expired(claimed + [last.value])
             == Expired(claimed) + (if Answers(last.value.attempts, Some(true)) then {|claimed|} else {});
    }
    if claimed == [] {
      assert Expired(claimed) == {};
    }
  }

  /** The items that count for a role: of its kinds, and, unless unassigned, deliverable as declared. */
  ghost function Counting(items: seq<WorkItem>, role: Role): set<int> {
    set k | 0 <= k < |items| && CountsPlainly(items[k], role)
  }

  predicate CountsPlainly(i: WorkItem, role: Role) {
    match role
    case Discoverer => HasSuffix(i.kind, "-discovery") && Deliverable(i)
    case Reviewer => i.kind == "pr-review" && Deliverable(i)
    case Unassigned => i.kind == "release-needed"
    case Implementer =>
      !HasSuffix(i.kind, "-discovery") && i.kind != "pr-review" && i.kind != "release-needed" && Deliverable(i)
  }

  predicate Deliverable(i: WorkItem) {
    if i.requiredArtifact == "pull-request" then "write" in i.allowedActions && "open-pr" in i.allowedActions
    else i.requiredArtifact == "none" && "write" !in i.allowedActions
  }

  lemma {:induction false} CountIs(items: seq<WorkItem>, role: Role)
    ensures Count(items, role) == |Counting(items, role)|
    decreases |items|
  {
    hide CountsPlainly, CountsFor, Counting;
    if items == [] {
      NothingCounts(role);
    } else {
      CountIs(Front(items), role);
      CountsAlike(Last(items), role);
      OneMoreCounts(Front(items), Last(items), role);
      assert items == Front(items) + [Last(items)];
    }
  }

  lemma NothingCounts(role: Role)
    ensures Counting([], role) == {}
  {
  }

  lemma OneMoreCounts(items: seq<WorkItem>, i: WorkItem, role: Role)
    ensures |Counting(items + [i], role)| == |Counting(items, role)| + (if CountsPlainly(i, role) then 1 else 0)
  {
    hide CountsPlainly;
    assert Counting(items + [i], role)
           == Counting(items, role) + (if CountsPlainly(i, role) then {|items|} else {});
  }

  lemma CountsAlike(i: WorkItem, role: Role)
    ensures CountsFor(i, role) <==> CountsPlainly(i, role)
  {
    FirstRoleIs(i.kind);
    SuffixApart(i.kind);
    hide FirstRole, HasSuffix;
  }

  lemma SuffixApart(kind: string)
    ensures HasSuffix(kind, "-discovery") ==> kind != "pr-review" && kind != "release-needed"
  {
    assert "pr-review"[|"pr-review"| - 1] == 'w' && "release-needed"[|"release-needed"| - 1] == 'd';
    if HasSuffix(kind, "-discovery") {
      assert kind[|kind| - |"-discovery"|..][|"-discovery"| - 1] == 'y';
    }
  }

  method CountItems(repository: string, items: seq<WorkItem>) returns (r: Option<Snapshot>)
    ensures r.Some? <==> forall i <- items :: InProjection(i, repository)
    ensures r.Some? ==> r.value.items == items && r.value.flagged == Flagged(items)
                        && forall role :: role in r.value.counts && r.value.counts[role] == Count(items, role)
  {
    hide FirstRole, IsReady;
    var counts: map<Role, nat> := map[Discoverer := 0, Implementer := 0, Reviewer := 0, Unassigned := 0];
    var flagged: nat := 0;
    forall role: Role ensures role in counts && counts[role] == 0 {
      match role case Discoverer => case Implementer => case Reviewer => case Unassigned =>
    }
    for k := 0 to |items|
      invariant forall i <- items[..k] :: InProjection(i, repository)
      invariant forall role :: role in counts && counts[role] == Count(items[..k], role)
      invariant flagged == Flagged(items[..k])
    {
      var item := items[k];
      assert item in items && Front(items[..k + 1]) == items[..k] && Last(items[..k + 1]) == item;
      if item.repository != repository || (item.status != "queued" && item.status != "claimed")
        || item.id == "" || item.kind == "" {
        return None;
      }
      var role := Classify(item.kind);
      var contract := AssessContract(item.requiredArtifact, item.allowedActions);
      assert contract.Ready? <==> IsReady(item) by { ReadyMeans(item); }
      if role == Unassigned || contract.Ready? {
        counts := counts[role := counts[role] + 1];
      } else {
        flagged := flagged + 1;
      }
    }
    assert items[..|items|] == items;
    r := Some(Snapshot(counts, flagged, items));
  }

  lemma ReadyMeans(i: WorkItem)
    ensures IsReady(i) <==> (i.requiredArtifact == "none" && "write" !in i.allowedActions)
                            || (i.requiredArtifact == "pull-request" && "write" in i.allowedActions
                                && "open-pr" in i.allowedActions)
  {
  }
}
