/**
 A worker bound to one pull request: its target is prepared once and pushed to with a lease on the
 head it expects, while others push to the same branch.
 */
module PullRequestTarget {
  import opened Prelude
  import opened Texts

  // ---- Identities ------------------------------------------------------------------------------

  type Commit = string

  predicate IsCommit(s: string) { |s| == 40 && forall c <- s :: IsLowerHex(c) }

  predicate IsWorkerId(s: string) {
    HasPrefix(s, "worker-") && |s| == 23 && forall c <- s[7..] :: IsLowerHex(c)
  }

  /** owner/name */
  predicate IsRepository(s: string) {
    exists i | 0 <= i < |s| :: s[i] == '/' && IsName(s[..i]) && IsName(s[i + 1..])
  }

  predicate IsItemId(s: string) {
    |s| == 36 && forall i | 0 <= i < 36 :: if i in {8, 13, 18, 23} then s[i] == '-' else IsLowerHex(s[i])
  }

  predicate IsRefChar(c: char) { IsAlnum(c) || c == '.' || c == '_' || c == '/' || c == '-' }

  /** The branch names a push may name. */
  predicate IsSafeRef(s: string) {
    && 1 <= |s| <= 240 && IsAlnum(s[0]) && (forall c <- s :: IsRefChar(c))
    && !Contains(s, "..") && !Contains(s, "//") && !Contains(s, "@{") && !HasSuffix(s, "/") && !HasSuffix(s, ".")
    && forall part <- Split(s, '/') :: !HasPrefix(part, ".") && !HasSuffix(part, ".lock")
  }

  predicate Adjacent(s: string, c: char, d: char) { exists i: nat | i < |s| - 1 :: s[i] == c && s[i + 1] == d }

  predicate HasRefChars(s: string) {
    forall c <- s :: 'A' <= c <= 'Z' || 'a' <= c <= 'z' || '0' <= c <= '9' || c in {'.', '_', '/', '-'}
  }

  /** No part between slashes begins with a dot or ends in ".lock". */
  predicate HasPlainParts(s: string) {
    forall part <- Split(s, '/') :: (part == "" || part[0] != '.') && !(|part| >= 5 && part[|part| - 5..] == ".lock")
  }

  /** A branch name, by its characters and by its parts between slashes. */
  predicate IsBranchName(s: string) {
    && 1 <= |s| <= 240 && s[0] !in {'.', '_', '/', '-'} && s[|s| - 1] !in {'/', '.'}
    && HasRefChars(s) && !Adjacent(s, '.', '.') && !Adjacent(s, '/', '/') && HasPlainParts(s)
  }

  lemma SafeRefsAre(s: string)
    ensures IsSafeRef(s) <==> IsBranchName(s)
  {
    if s != "" {
      OneCharSuffix(s, '/');
      OneCharSuffix(s, '.');
      NoPair(s, '.', '.');
      NoPair(s, '/', '/');
      NoPair(s, '@', '{');
      RefCharsAre(s);
      PartsAre(s);
      hide Contains, HasSuffix, HasPrefix, Split, HasRefChars, HasPlainParts, Adjacent, IsRefChar;
      assert ".." == ['.', '.'] && "//" == ['/', '/'] && "@{" == ['@', '{'];
    }
  }

  lemma RefCharsAre(s: string)
    ensures (forall c <- s :: IsRefChar(c)) <==> HasRefChars(s)
    ensures HasRefChars(s) ==> !Adjacent(s, '@', '{')
    ensures HasRefChars(s) && s != "" ==> (IsAlnum(s[0]) <==> s[0] !in {'.', '_', '/', '-'})
  {
    if HasRefChars(s) {
      forall i: nat | i < |s| - 1 ensures s[i] != '@' {
        assert s[i] in s;
      }
    }
    if s != "" {
      assert s[0] in s;
    }
  }

  lemma PartsAre(s: string)
    ensures HasPlainParts(s) <==> forall part <- Split(s, '/') :: !HasPrefix(part, ".") && !HasSuffix(part, ".lock")
  {
    hide Split;
    forall part: string ensures HasPrefix(part, ".") <==> part != "" && part[0] == '.' {
      assert part != "" ==> part[..1] == [part[0]];
    }
  }

  lemma OneCharSuffix(s: string, c: char)
    requires s != ""
    ensures HasSuffix(s, [c]) <==> s[|s| - 1] == c
  {
    assert s[|s| - 1..] == [s[|s| - 1]];
  }

  lemma NoPair(s: string, c: char, d: char)
    ensures Contains(s, [c, d]) <==> Adjacent(s, c, d)
  {
    forall i: nat | i + 2 <= |s| ensures OccursAt(s, [c, d], i) <==> s[i] == c && s[i + 1] == d {
      assert s[i..i + 2] == [s[i], s[i + 1]];
    }
    if Adjacent(s, c, d) {
      var i: nat :| i < |s| - 1 && s[i] == c && s[i + 1] == d;
      assert OccursAt(s, [c, d], i);
    }
    if Contains(s, [c, d]) {
      var i :| 0 <= i <= |s| && OccursAt(s, [c, d], i);
      assert s[i] == c && s[i + 1] == d;
    }
  }

  lemma RepositoriesAre(s: string)
    ensures IsRepository(s) <==> exists owner, name :: s == owner + "/" + name && IsName(owner) && IsName(name)
  {
    forall i | 0 <= i < |s| && s[i] == '/' ensures s == s[..i] + "/" + s[i + 1..] {
    }
    forall owner: string, name: string | s == owner + "/" + name && IsName(owner) && IsName(name)
      ensures IsRepository(s) {
      assert s[|owner|] == '/' && s[..|owner|] == owner && s[|owner| + 1..] == name;
    }
  }

  datatype Mode = Branch | Detached

  function TargetMode(kind: string): Option<Mode> {
    if kind == "pr-review" then Some(Detached)
    else if kind == "pr-cure" || kind == "pr-cure-change" || kind == "pr-review-fix" then Some(Branch)
    else None
  }

  /** Reviews are detached, the three kinds of repair get a branch, and no other kind is bound to a pull request. */
  lemma KindsAre(kind: string)
    ensures TargetMode(kind) == Some(Detached) <==> kind == "pr-review"
    ensures TargetMode(kind) == Some(Branch) <==> kind in {"pr-cure", "pr-cure-change", "pr-review-fix"}
  {
  }

  const HEX := "0123456789abcdef"

  lemma HexDigits(s: string)
    ensures (forall c <- s :: IsLowerHex(c)) <==> forall c <- s :: c in HEX
  {
    assert HEX[0] == '0' && HEX[1] == '1' && HEX[2] == '2' && HEX[3] == '3' && HEX[4] == '4' && HEX[5] == '5'
           && HEX[6] == '6' && HEX[7] == '7' && HEX[8] == '8' && HEX[9] == '9' && HEX[10] == 'a' && HEX[11] == 'b'
           && HEX[12] == 'c' && HEX[13] == 'd' && HEX[14] == 'e' && HEX[15] == 'f';
    forall c: char ensures IsLowerHex(c) <==> c in HEX {
    }
  }

  /** Commits, worker IDs and item IDs, spelled out. */
  lemma CommitsAre(s: string)
    ensures IsCommit(s) <==> |s| == 40 && forall c <- s :: c in HEX
  {
    HexDigits(s);
  }

  lemma WorkerIdsAre(s: string)
    ensures IsWorkerId(s) <==> exists hex: string :: s == "worker-" + hex && |hex| == 16 && forall c <- hex :: c in HEX
  {
    assert |"worker-"| == 7;
    if HasPrefix(s, "worker-") {
      HexDigits(s[7..]);
      assert s == "worker-" + s[7..];
    }
    forall hex: string | s == "worker-" + hex ensures s[7..] == hex && HasPrefix(s, "worker-") {
    }
  }

  lemma ItemIdsAre(s: string)
    ensures IsItemId(s) <==>
              |s| == 36 && s[8] == s[13] == s[18] == s[23] == '-'
              && forall c <- s[..8] + s[9..13] + s[14..18] + s[19..23] + s[24..] :: c in HEX
  {
    if |s| == 36 {
      var rest := s[..8] + s[9..13] + s[14..18] + s[19..23] + s[24..];
      HexDigits(rest);
      hide IsLowerHex;
      if forall c <- rest :: IsLowerHex(c) {
        forall i | 0 <= i < 36 && i !in {8, 13, 18, 23} ensures IsLowerHex(s[i]) {
          var k := i - (if i > 23 then 4 else if i > 18 then 3 else if i > 13 then 2 else if i > 8 then 1 else 0);
          assert rest[k] == s[i] && rest[k] in rest;
        }
      }
      if IsItemId(s) {
        forall c <- rest ensures IsLowerHex(c) {
          var k :| 0 <= k < |rest| && rest[k] == c;
          assert c == s[k + (if k > 19 then 4 else if k > 15 then 3 else if k > 11 then 2 else if k > 7 then 1 else 0)];
        }
      }
    }
  }

  // ---- Pull-request addresses ----------------------------------------------------------------------

  datatype Url = Url(scheme: string, host: string, bare: bool, path: string)   // bare: no user, query or fragment

  /** What the platform's URL parser and case folding do is left to them, within `Standard`. */
  datatype Platform = Platform(parse: string -> Option<Url>, sameFold: (string, string) -> bool,
                               lower: string -> string)

  predicate IsPathChar(c: char) { IsNameChar(c) || c == '/' }

  ghost predicate Standard(os: Platform) {
    && (forall path: string {:trigger os.parse("https://github.com/" + path)} ::
          (forall c <- path :: IsPathChar(c)) ==>
            os.parse("https://github.com/" + path) == Some(Url("https", "github.com", true, "/" + path)))
    && (forall s: string {:trigger os.sameFold(s, s)} :: os.sameFold(s, s))
  }

  function CanonicalUrl(repository: string, number: nat): string {
    "https://github.com/" + (repository + "/pull/" + Itoa(number))
  }

  /** The pull request's number and canonical address. */
  function ParseUrl(os: Platform, raw: string, repository: string): Option<(nat, string)> {
    var parsed := os.parse(raw);
    if parsed.None? || parsed.value.scheme != "https" || !os.sameFold(parsed.value.host, "github.com")
      || !parsed.value.bare then None
    else
      var parts := Split(Trim(parsed.value.path, '/'), '/');
      if |parts| != 4 || !os.sameFold(parts[0] + "/" + parts[1], repository) || parts[2] != "pull" then None
      else
        var number := Atoi(parts[3]);
        if number.None? || number.value < 1 then None
        else Some((number.value, CanonicalUrl(repository, number.value)))
  }

  lemma JoinFour(a: string, b: string, c: string, d: string)
    ensures Join([a, b, c, d], '/') == a + "/" + b + "/" + c + "/" + d
  {
    assert [a, b, c, d][1..] == [b, c, d] && [b, c, d][1..] == [c, d] && [c, d][1..] == [d];
    assert Join([c, d], '/') == c + "/" + d;
    assert Join([b, c, d], '/') == b + "/" + (c + "/" + d);
  }

  lemma TrimOuter(path: string)
    requires path != "" && path[0] != '/' && path[|path| - 1] != '/'
    ensures Trim("/" + path, '/') == path
  {
    assert ("/" + path)[1..] == path;
    assert TrimLeft("/" + path, '/') == TrimLeft(path, '/') == path;
  }

  /** The path of a canonical address falls apart into owner, name, "pull" and number. */
  lemma PathOfCanonical(repository: string, number: nat, owner: string, name: string)
    requires repository == owner + "/" + name && IsName(owner) && IsName(name)
    ensures var path := repository + "/pull/" + Itoa(number);
            && (forall c <- path :: IsPathChar(c))
            && Trim("/" + path, '/') == path
            && Split(path, '/') == [owner, name, "pull", Itoa(number)]
  {
    var n := Itoa(number);
    var path := repository + "/pull/" + n;
    assert path == owner + "/" + name + "/" + "pull" + "/" + n;
    assert path[0] == owner[0] && IsNameChar(owner[0]);
    assert path[|path| - 1] == n[|n| - 1] && IsDigit(n[|n| - 1]);
    TrimOuter(path);
    JoinFour(owner, name, "pull", n);
    assert '/' !in owner && '/' !in name && '/' !in "pull" && '/' !in n;
    SplitJoin([owner, name, "pull", n], '/');
  }

  /** The canonical address of a pull request reads back as the same number and the same address. */
  lemma CanonicalUrlReadsBack(os: Platform, repository: string, number: nat)
    requires Standard(os) && IsRepository(repository) && 1 <= number <= MAX_INT
    ensures ParseUrl(os, CanonicalUrl(repository, number), repository) == Some((number,
                                                                                CanonicalUrl(repository, number)))
  {
    var i :| 0 <= i < |repository| && repository[i] == '/' && IsName(repository[..i]) && IsName(repository[i + 1..]);
    PathOfCanonical(repository, number, repository[..i], repository[i + 1..]);
    AtoiOfItoa(number);
  }

  /** The address leads to a pull request of this repository on GitHub: the host, the repository, "pull", a number. */
  ghost predicate LeadsTo(os: Platform, raw: string, repository: string, number: int, owner: string, name: string,
                          digits: string) {
    && os.parse(raw).Some?
    && var u := os.parse(raw).value;
    && u.scheme == "https" && os.sameFold(u.host, "github.com") && u.bare
    && Trim(u.path, '/') == owner + "/" + name + "/pull/" + digits && '/' !in owner + name + digits
    && os.sameFold(owner + "/" + name, repository) && Atoi(digits) == Some(number) && number >= 1
  }

  lemma FourParts(path: string, owner: string, name: string, digits: string)
    requires path == owner + "/" + name + "/pull/" + digits && '/' !in owner + name + digits
    ensures Split(path, '/') == [owner, name, "pull", digits]
  {
    JoinFour(owner, name, "pull", digits);
    assert path == owner + "/" + name + "/" + "pull" + "/" + digits;
    assert '/' !in "pull" && '/' !in owner && '/' !in name && '/' !in digits;
    SplitJoin([owner, name, "pull", digits], '/');
  }

  lemma JoinedParts(path: string)
    requires |Split(path, '/')| == 4 && Split(path, '/')[2] == "pull"
    ensures var parts := Split(path, '/');
            path == parts[0] + "/" + parts[1] + "/pull/" + parts[3] && '/' !in parts[0] + parts[1] + parts[3]
  {
    var parts := Split(path, '/');
    JoinSplit(path, '/');
    hide Split, Join;
    JoinFour(parts[0], parts[1], "pull", parts[3]);
    assert parts == [parts[0], parts[1], "pull", parts[3]];
    assert parts[0] in parts && parts[1] in parts && parts[3] in parts;
    assert path == parts[0] + "/" + parts[1] + "/" + "pull" + "/" + parts[3];
  }

  lemma LeadingIsRead(os: Platform, raw: string, repository: string, number: int, owner: string, name: string,
                      digits: string)
    requires LeadsTo(os, raw, repository, number, owner, name, digits)
    ensures ParseUrl(os, raw, repository) == Some((number, CanonicalUrl(repository, number)))
  {
    FourParts(Trim(os.parse(raw).value.path, '/'), owner, name, digits);
    hide Split, Trim, Atoi, Itoa;
  }

  lemma ReadIsLeading(os: Platform, raw: string, repository: string)
    requires ParseUrl(os, raw, repository).Some?
    ensures var (n, url) := ParseUrl(os, raw, repository).value;
            url == CanonicalUrl(repository, n)
            && exists owner, name, digits :: LeadsTo(os, raw, repository, n, owner, name, digits)
  {
    var path := Trim(os.parse(raw).value.path, '/');
    var parts := Split(path, '/');
    JoinedParts(path);
    hide Split, Trim, Itoa;
    assert LeadsTo(os, raw, repository, Atoi(parts[3]).value, parts[0], parts[1], parts[3]);
  }

  /** Those addresses are read, and no others; whatever the spelling, the canonical address is kept. */
  lemma ReadsExactlyPullRequests(os: Platform, raw: string, repository: string, number: nat)
    ensures ParseUrl(os, raw, repository) == Some((number, "https://github.com/" + repository + "/pull/"
                                                   + Itoa(number)))
            <==> exists owner, name, digits :: LeadsTo(os, raw, repository, number, owner, name, digits)
    ensures ParseUrl(os, raw, repository).Some? ==>
              exists n: nat, owner, name, digits :: LeadsTo(os, raw, repository, n, owner, name, digits)
                && ParseUrl(os, raw, repository) == Some((n, "https://github.com/" + repository + "/pull/" + Itoa(n)))
  {
    CanonicalIs(repository);
    hide ParseUrl, LeadsTo, CanonicalUrl;
    forall owner, name, digits | LeadsTo(os, raw, repository, number, owner, name, digits)
      ensures ParseUrl(os, raw, repository) == Some((number, CanonicalUrl(repository, number)))
    {
      LeadingIsRead(os, raw, repository, number, owner, name, digits);
    }
    if ParseUrl(os, raw, repository).Some? {
      ReadIsLeading(os, raw, repository);
      var (n, url) := ParseUrl(os, raw, repository).value;
      var owner, name, digits :| LeadsTo(os, raw, repository, n, owner, name, digits);
      assert url == "https://github.com/" + repository + "/pull/" + Itoa(n);
    }
  }

  lemma CanonicalIs(repository: string)
    ensures forall n: nat :: CanonicalUrl(repository, n) == "https://github.com/" + repository + "/pull/" + Itoa(n)
  {
    forall n: nat ensures CanonicalUrl(repository, n) == "https://github.com/" + repository + "/pull/" + Itoa(n) {
      assert "https://github.com/" + (repository + "/pull/" + Itoa(n))
             == "https://github.com/" + repository + "/pull/" + Itoa(n);
    }
  }

  // ---- Targets ------------------------------------------------------------------------------------

  datatype TargetRequest = TargetRequest(
    workerId: string, repository: string, itemId: string, kind: string, pullRequestUrl: string, headSha: string)

  datatype Target = Target(
    version: int, workerId: string, repository: string, itemId: string, kind: string, pullRequestUrl: string,
    boundHead: Commit, leaseHead: Commit, targetRepository: string, targetBranch: string, localBranch: string,
    mode: Mode)

  const TARGET_VERSION := 1

  /** What a target marker must satisfy to be written or read. */
  predicate ValidTarget(os: Platform, t: Target) {
    && t.version == TARGET_VERSION && IsWorkerId(t.workerId) && IsRepository(t.repository) && IsItemId(t.itemId)
    && TargetMode(t.kind) == Some(t.mode)
    && ParseUrl(os, t.pullRequestUrl, t.repository).Some?
    && IsCommit(t.boundHead) && IsCommit(t.leaseHead) && IsRepository(t.targetRepository) && IsSafeRef(t.targetBranch)
    && (t.mode == Branch ==> t.localBranch == "cockpit/" + t.workerId)
    && (t.mode == Detached ==> t.localBranch == "")
  }

  /** The pull request as GitHub reports it. */
  datatype Pull = Pull(state: string, merged: bool, ref: string, sha: string, repository: Option<string>)

  datatype Refusal = Invalid(reason: string) | Conflict(reason: string) | Unavailable(reason: string)

  /** A target built from a request and a reported pull request, when all of the checks before it passed. */
  function BuiltTarget(r: TargetRequest, mode: Mode, head: Commit, url: string, repository: string,
                       ref: string): Target {
    Target(TARGET_VERSION, r.workerId, r.repository, r.itemId, r.kind, url, head, head, repository, ref,
           if mode == Detached then "" else "cockpit/" + r.workerId, mode)
  }

  /** What a request is bound to, member by member: kinds, heads, branches. */
  ghost predicate IsBinding(os: Platform, r: TargetRequest, pull: Pull, t: Target) {
    && r.kind in {"pr-review", "pr-cure", "pr-cure-change", "pr-review-fix"}
    && (if r.kind == "pr-review" then t.mode == Detached && t.localBranch == ""
        else t.mode == Branch && t.localBranch == "cockpit/" + r.workerId)
    && t.version == 1 && t.workerId == r.workerId && t.repository == r.repository && t.itemId == r.itemId
    && t.kind == r.kind && t.boundHead == t.leaseHead == os.lower(r.headSha)
    && pull.repository == Some(t.targetRepository) && t.targetBranch == pull.ref && IsBranchName(t.targetBranch)
    && exists number: nat, owner, name, digits ::
         && LeadsTo(os, r.pullRequestUrl, r.repository, number, owner, name, digits)
         && t.pullRequestUrl == "https://github.com/" + r.repository + "/pull/" + Itoa(number)
  }

  lemma BuiltIsBinding(os: Platform, r: TargetRequest, pull: Pull)
    requires TargetMode(r.kind).Some? && ParseUrl(os, r.pullRequestUrl, r.repository).Some? && pull.repository.Some?
    requires IsSafeRef(pull.ref)
    ensures IsBinding(os, r, pull, BuiltTarget(r, TargetMode(r.kind).value, os.lower(r.headSha),
                                               ParseUrl(os, r.pullRequestUrl, r.repository).value.1,
                                               pull.repository.value, pull.ref))
  {
    KindsAre(r.kind);
    SafeRefsAre(pull.ref);
    hide IsBranchName, IsSafeRef;
    ReadsExactlyPullRequests(os, r.pullRequestUrl, r.repository, 1);
    hide ParseUrl, LeadsTo, TargetMode;
  }

  /** A valid target, member by member. */
  lemma ValidTargetsAre(os: Platform, t: Target)
    requires ValidTarget(os, t)
    ensures t.version == 1
    ensures if t.kind == "pr-review" then t.mode == Detached && t.localBranch == ""
            else t.kind in {"pr-cure", "pr-cure-change", "pr-review-fix"} && t.mode == Branch
                 && t.localBranch == "cockpit/" + t.workerId
    ensures |t.boundHead| == |t.leaseHead| == 40 && forall c <- t.boundHead + t.leaseHead :: c in HEX
    ensures exists number: nat, owner, name, digits ::
              LeadsTo(os, t.pullRequestUrl, t.repository, number, owner, name, digits)
  {
    KindsAre(t.kind);
    CommitsAre(t.boundHead);
    CommitsAre(t.leaseHead);
    ReadsExactlyPullRequests(os, t.pullRequestUrl, t.repository, 1);
    hide ParseUrl, LeadsTo, TargetMode, IsCommit, IsWorkerId, IsItemId, IsRepository, IsSafeRef;
  }

  /** Every target that preparation builds passes the validation its marker is read back with. */
  lemma BuiltTargetIsValid(os: Platform, r: TargetRequest, mode: Mode, head: Commit, repository: string, ref: string)
    requires Standard(os)
    requires TargetMode(r.kind) == Some(mode)
    requires IsWorkerId(r.workerId) && IsRepository(r.repository) && IsItemId(r.itemId) && IsCommit(head)
    requires ParseUrl(os, r.pullRequestUrl, r.repository).Some?
    requires IsRepository(repository) && IsSafeRef(ref)
    ensures var (number, url) := ParseUrl(os, r.pullRequestUrl, r.repository).value;
            && ValidTarget(os, BuiltTarget(r, mode, head, url, repository, ref))
            && ParseUrl(os, url, r.repository) == Some((number, url))
  {
    var (number, url) := ParseUrl(os, r.pullRequestUrl, r.repository).value;
    ParsedNumberIsPositive(os, r.pullRequestUrl, r.repository);
    CanonicalUrlReadsBack(os, r.repository, number);
  }

  lemma ParsedNumberIsPositive(os: Platform, raw: string, repository: string)
    requires ParseUrl(os, raw, repository).Some?
    ensures var (number, url) := ParseUrl(os, raw, repository).value;
            1 <= number <= MAX_INT && url == CanonicalUrl(repository, number)
  {
  }

  // ---- Histories ------------------------------------------------------------------------------------

  /** `a` is an ancestor of `c`, or `c` itself: `path` leads from one to the other along parents. */
  predicate Leads(parents: Commit -> set<Commit>, c: Commit, a: Commit, path: seq<Commit>) {
    && path != [] && path[0] == c && Last(path) == a
    && forall k | 0 <= k < |path| - 1 :: path[k + 1] in parents(path[k])
  }

  ghost predicate Descends(parents: Commit -> set<Commit>, c: Commit, a: Commit) {
    exists path: seq<Commit> :: Leads(parents, c, a, path)
  }

  lemma DescendsIsTransitive(parents: Commit -> set<Commit>, c: Commit, b: Commit, a: Commit)
    requires Descends(parents, c, b) && Descends(parents, b, a)
    ensures Descends(parents, c, a)
  {
    var x: seq<Commit> :| Leads(parents, c, b, x);
    var y: seq<Commit> :| Leads(parents, b, a, y);
    var path := x + y[1..];
    forall k | 0 <= k < |path| - 1 ensures path[k + 1] in parents(path[k]) {
      if k >= |x| - 1 {
        assert path[k + 1] == y[k - |x| + 2] && path[k] == y[k - |x| + 1];
      }
    }
    assert Leads(parents, c, a, path);
  }

  lemma DescendsThroughParents(parents: Commit -> set<Commit>, c: Commit, a: Commit)
    requires Descends(parents, c, a)
    ensures c == a || exists p <- parents(c) :: Descends(parents, p, a)
  {
    var path: seq<Commit> :| Leads(parents, c, a, path);
    if |path| > 1 {
      assert path[1] in parents(path[0]);
      var rest := path[1..];
      forall k | 0 <= k < |rest| - 1 ensures rest[k + 1] in parents(rest[k]) {
        assert path[k + 1 + 1] in parents(path[k + 1]);
      }
      assert Leads(parents, path[1], a, rest);
    }
  }

  lemma DescendsFromItself(parents: Commit -> set<Commit>, c: Commit)
    ensures Descends(parents, c, c)
  {
    assert Leads(parents, c, c, [c]);
  }

  // ---- The branch and the pushes to it ------------------------------------------------------------------

  /** One push of the worker's: the head it replaced, the head that was checked, the head that was pushed. */
  datatype Push = Push(replaced: Commit, checked: Commit, pushed: Commit)

  /** The target branch (absent when deleted), the bound head, the head the marker expects, the worker's pushes. */
  datatype Line = Line(head: Option<Commit>, bound: Commit, lease: Commit, pushes: seq<Push>)

  datatype Event =
    | Foreign(head: Option<Commit>)                       // anybody else moves or deletes the branch
    | Own(push: Push, recorded: bool)                     // the worker's push took effect; was it recorded?

  /** A push needs the branch at the expected head, unless the branch is already at the head it pushes. */
  ghost predicate Enabled(parents: Commit -> set<Commit>, s: Line, e: Event) {
    e.Own? ==>
      && s.head == Some(e.push.replaced) && (e.push.replaced == s.lease || e.push.replaced == e.push.pushed)
      && Descends(parents, e.push.checked, s.bound)
  }

  function Step(s: Line, e: Event): Line {
    match e
    case Foreign(head) => s.(head := head)
    case Own(push, recorded) =>
      s.(head := Some(push.pushed), pushes := s.pushes + [push], lease := if recorded then push.checked else s.lease)
  }

  /** A target just prepared; the branch may meanwhile have moved. */
  function Prepared(bound: Commit, head: Option<Commit>): Line { Line(head, bound, bound, []) }

  ghost predicate Possible(parents: Commit -> set<Commit>, s: Line, events: seq<Event>)
    decreases |events|, 0
  {
    events == [] || (Possible(parents, s, Front(events)) && Enabled(parents, Run(s, Front(events)), Last(events)))
  }

  function Run(s: Line, events: seq<Event>): Line
    decreases |events|, 1
  {
    if events == [] then s else Step(Run(s, Front(events)), Last(events))
  }

  lemma {:induction false} BoundStays(s: Line, events: seq<Event>)
    ensures Run(s, events).bound == s.bound
    decreases |events|
  {
    if events != [] {
      BoundStays(s, Front(events));
    }
  }

  lemma ExtendRun(parents: Commit -> set<Commit>, s: Line, events: seq<Event>, e: Event)
    requires Possible(parents, s, events) && Enabled(parents, Run(s, events), e)
    ensures Possible(parents, s, events + [e]) && Run(s, events + [e]) == Step(Run(s, events), e)
  {
    assert Front(events + [e]) == events;
  }

  /** What a push checked descends from the bound head; what it replaced by another head was bound or checked before. */
  ghost predicate Leased(parents: Commit -> set<Commit>, s: Line) {
    && (forall k | 0 <= k < |s.pushes| ::
          && Descends(parents, s.pushes[k].checked, s.bound)
          && (s.pushes[k].replaced in {s.pushes[k].pushed, s.bound}
              || exists j | 0 <= j < k :: s.pushes[k].replaced == s.pushes[j].checked))
    && (s.lease == s.bound || exists j | 0 <= j < |s.pushes| :: s.lease == s.pushes[j].checked)
  }

  lemma {:induction false} EveryRunIsLeased(parents: Commit -> set<Commit>, bound: Commit, head: Option<Commit>,
                                            events: seq<Event>)
    requires Possible(parents, Prepared(bound, head), events)
    ensures Leased(parents, Run(Prepared(bound, head), events)) && Run(Prepared(bound, head), events).bound == bound
    decreases |events|
  {
    if events != [] {
      var s, z := Run(Prepared(bound, head), Front(events)), Run(Prepared(bound, head), events);
      EveryRunIsLeased(parents, bound, head, Front(events));
      match Last(events)
      case Foreign(_) =>
      case Own(push, recorded) =>
        assert forall j | 0 <= j < |s.pushes| :: z.pushes[j] == s.pushes[j];
        assert z.pushes[|s.pushes|] == push;
    }
  }

  /** A commit in the history of a head that was checked before the n-th push. */
  ghost predicate CheckedWork(parents: Commit -> set<Commit>, s: Line, n: nat, c: Commit)
    requires n <= |s.pushes|
  {
    exists j | 0 <= j < n :: Descends(parents, s.pushes[j].checked, c)
  }

  /**
   However the worker's pushes and others' interleave, wherever the workspace head moves meanwhile, and
   whether or not records get written, of every push: it finds the branch at the head it pushes already, or
   replaces the bound head or a head this worker's earlier push had checked; if the head it pushes is the
   one it checked, the whole bound history stays reachable; and whenever what it pushes descends from the
   bound head, a commit that drops off the branch comes from a head checked earlier and is not one of the
   bound history.
   */
  lemma EveryPushDiscardsNothingForeign(
    parents: Commit -> set<Commit>, bound: Commit, head: Option<Commit>, events: seq<Event>, k: nat)
    requires Possible(parents, Prepared(bound, head), events)
    requires k < |Run(Prepared(bound, head), events).pushes|
    ensures var z := Run(Prepared(bound, head), events);
            var p := z.pushes[k];
            && (p.replaced in {p.pushed, bound} || exists j | 0 <= j < k :: p.replaced == z.pushes[j].checked)
            && (p.pushed == p.checked ==> Descends(parents, p.pushed, bound))
            && (Descends(parents, p.pushed, bound) ==>
                  && (forall c: Commit | Descends(parents, bound, c) :: Descends(parents, p.pushed, c))
                  && (forall c: Commit | Descends(parents, p.replaced, c) && !Descends(parents, p.pushed, c) ::
                        CheckedWork(parents, z, k, c) && !Descends(parents, bound, c)))
  {
    var z := Run(Prepared(bound, head), events);
    EveryRunIsLeased(parents, bound, head, events);
    var p := z.pushes[k];
    if Descends(parents, p.pushed, bound) {
      forall c: Commit | Descends(parents, bound, c) ensures Descends(parents, p.pushed, c) {
        DescendsIsTransitive(parents, p.pushed, bound, c);
      }
    }
  }

  /** A single push after preparing. */
  function OnePush(bound: Commit, checked: Commit, pushed: Commit): seq<Event> {
    [Own(Push(bound, checked, pushed), true)]
  }

  lemma OnePushIsPossible(parents: Commit -> set<Commit>, bound: Commit, checked: Commit, pushed: Commit)
    ensures var events := OnePush(bound, checked, pushed);
            && (Possible(parents, Prepared(bound, Some(bound)), events) <==> Descends(parents, checked, bound))
            && Run(Prepared(bound, Some(bound)), events).head == Some(pushed)
  {
    var events := OnePush(bound, checked, pushed);
    assert Front(events) == [] && Last(events) == events[0];
    assert Possible(parents, Prepared(bound, Some(bound)), []);
    assert Run(Prepared(bound, Some(bound)), []) == Prepared(bound, Some(bound));
  }

  /**
   The ancestry check reads the workspace head before the push reads it again. The check protects the bound
   history, whatever the history is, exactly when both reads give the same head (or the second gives the
   bound head itself).
   */
  lemma CheckProtectsExactlyWhen(bound: Commit, checked: Commit, pushed: Commit)
    ensures (forall parents: Commit -> set<Commit> ::
               Possible(parents, Prepared(bound, Some(bound)), OnePush(bound, checked, pushed)) ==>
                 Descends(parents, pushed, bound))
            <==> pushed == checked || pushed == bound
  {
    if pushed == checked || pushed == bound {
      forall parents: Commit -> set<Commit> | Possible(parents, Prepared(bound, Some(bound)),
                                                       OnePush(bound, checked, pushed))
        ensures Descends(parents, pushed, bound)
      {
        OnePushIsPossible(parents, bound, checked, pushed);
        DescendsFromItself(parents, bound);
      }
    } else {
      var parents: Commit -> set<Commit> := x => if x == checked && x != bound then {bound} else {};
      OnePushIsPossible(parents, bound, checked, pushed);
      DescendsFromItself(parents, bound);
      if checked != bound {
        assert Leads(parents, checked, bound, [checked, bound]);
      }
      if Descends(parents, pushed, bound) {
        DescendsThroughParents(parents, pushed, bound);
      }
      assert Possible(parents, Prepared(bound, Some(bound)), OnePush(bound, checked, pushed));
    }
  }

  /** When the head moves in between, the bound history can drop off the branch. */
  lemma MovedHeadLosesHistory(bound: Commit, stray: Commit)
    requires bound != stray
    ensures var parents: Commit -> set<Commit> := x => {};
            var events := OnePush(bound, bound, stray);
            && Possible(parents, Prepared(bound, Some(bound)), events)
            && Run(Prepared(bound, Some(bound)), events).head == Some(stray)
            && !Descends(parents, stray, bound)
  {
    var parents: Commit -> set<Commit> := x => {};
    DescendsFromItself(parents, bound);
    OnePushIsPossible(parents, bound, bound, stray);
    if Descends(parents, stray, bound) {
      DescendsThroughParents(parents, stray, bound);
    }
  }

  /** The lease still names the head before a push whose record was not written. */
  lemma UnrecordedPushBlocksTheNext(parents: Commit -> set<Commit>, s: Line, next: Event)
    requires s.head.Some? && s.head != Some(s.lease) && Enabled(parents, s, next)
    ensures next.Foreign? || (next.push.replaced == next.push.pushed == s.head.value)
  {
  }

  lemma {:induction false} PrefixIsPossible(parents: Commit -> set<Commit>, s: Line, events: seq<Event>, n: nat)
    requires Possible(parents, s, events) && n <= |events|
    ensures Possible(parents, s, events[..n])
    decreases |events|
  {
    if n == |events| {
      assert events[..n] == events;
    } else {
      assert Front(events)[..n] == events[..n];
      PrefixIsPossible(parents, s, Front(events), n);
    }
  }

  /**
   In every run, once a push took effect without being recorded, the worker's further pushes can only repeat
   the head that is on the branch, until somebody else moves the branch or such a repetition is recorded.
   */
  lemma {:induction false} UnrecordedPushIsStuck(
    parents: Commit -> set<Commit>, s: Line, events: seq<Event>, p: Push, more: seq<Event>)
    requires Possible(parents, s, events + [Own(p, false)] + more) && p.pushed != Run(s, events).lease
    requires forall k | 0 <= k < |more| - 1 :: more[k].Own? && !more[k].recorded
    ensures var z := Run(s, events + [Own(p, false)] + more);
            && (more == [] || !Last(more).Foreign? ==> z.head == Some(p.pushed))
            && (more == [] || (Last(more).Own? && !Last(more).recorded) ==> z.lease == Run(s, events).lease)
            && (more != [] ==> Last(more).Foreign? || Last(more).push.replaced == Last(more).push.pushed == p.pushed)
    decreases |more|
  {
    var start := events + [Own(p, false)];
    if more == [] {
      assert start + more == start && Front(start) == events;
    } else {
      assert Front(start + more) == start + Front(more) && Last(start + more) == Last(more);
      UnrecordedPushIsStuck(parents, s, events, p, Front(more));
      assert |more| > 1 ==> Last(Front(more)) == more[|more| - 2];
      UnrecordedPushBlocksTheNext(parents, Run(s, start + Front(more)), Last(more));
    }
  }

  /** Git finds the branch up to date before it tests the lease: a repeated push can be recorded after all. */
  lemma RepeatedPushIsRecorded(bound: Commit, work: Commit)
    requires bound != work
    ensures var parents: Commit -> set<Commit> := x => if x == work then {bound} else {};
            var events := [Own(Push(bound, work, work), false), Own(Push(work, work, work), true)];
            && Possible(parents, Prepared(bound, Some(bound)), events)
            && Run(Prepared(bound, Some(bound)), events).lease == work
  {
    var parents: Commit -> set<Commit> := x => if x == work then {bound} else {};
    var s, first, again := Prepared(bound, Some(bound)), Own(Push(bound, work, work), false),
                           Own(Push(work, work, work), true);
    assert Leads(parents, work, bound, [work, bound]);
    ExtendRun(parents, s, [], first);
    assert [] + [first] == [first];
    ExtendRun(parents, s, [first], again);
    assert [first] + [again] == [first, again];
  }
}
