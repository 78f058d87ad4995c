/** Which campaign requests are accepted. */
module CampaignRequest {
  import opened Prelude
  import opened Texts
  import opened CampaignTypes

  const HOST := "host"
  const OCI := "oci"
  const PODMAN := "podman"
  const DOCKER := "docker"
  const SECOND := 1_000_000_000

  /** A 64-bit signed integer's wrap-around. */
  function Wrap64(x: int): int {
    (x + 0x8000_0000_0000_0000) % 0x1_0000_0000_0000_0000 - 0x8000_0000_0000_0000
  }

  /** An interval as a 64-bit count of nanoseconds. */
  function Duration(seconds: int): int { Wrap64(seconds * SECOND) }

  function WithDefaults(r: Request): Request {
    var adapter := if r.adapter == "" then HOST else r.adapter;
    r.(adapter := adapter,
       runtime := if adapter == OCI && r.runtime == "" then PODMAN else r.runtime,
       intervalSeconds := if r.intervalSeconds == 0 then DEFAULT_INTERVAL else r.intervalSeconds)
  }

  predicate LaneAccepted(l: Lane) {
    IsName(l.provider) && IsName(l.mcpServer) && 1 <= l.capacity <= MAX_TOTAL_CAPACITY
  }

  predicate Acceptable(r: Request) {
    && (r.adapter == HOST || r.adapter == OCI)
    && (r.adapter == HOST ==> r.runtime == "")
    && (r.adapter == OCI ==> r.runtime == PODMAN || r.runtime == DOCKER)
    && MINIMUM_INTERVAL * SECOND <= Duration(r.intervalSeconds) <= MAXIMUM_INTERVAL * SECOND
    && (forall role :: LaneAccepted(r.LaneOf(role)))
    && (forall x, y :: r.LaneOf(x).provider == r.LaneOf(y).provider ==> r.LaneOf(x).mcpServer == r.LaneOf(y).mcpServer)
    && TotalCapacity(r, {Discoverer, Implementer, Reviewer}) <= MAX_TOTAL_CAPACITY
  }

  function TotalCapacity(r: Request, roles: set<Role>): int {
    (if Discoverer in roles then r.discoverer.capacity else 0)
    + (if Implementer in roles then r.implementer.capacity else 0)
    + (if Reviewer in roles then r.reviewer.capacity else 0)
  }

  /** The lanes are checked in no particular order. */
  method LanesAccepted(r: Request) returns (ok: bool)
    ensures ok <==>
      && (forall role :: LaneAccepted(r.LaneOf(role)))
      && (forall x, y :: r.LaneOf(x).provider == r.LaneOf(y).provider ==>
          r.LaneOf(x).mcpServer == r.LaneOf(y).mcpServer)
      && TotalCapacity(r, {Discoverer, Implementer, Reviewer}) <= MAX_TOTAL_CAPACITY
  {
    var all: set<Role> := {Discoverer, Implementer, Reviewer};
    forall role: Role ensures role in all {
      match role case Discoverer => case Implementer => case Reviewer =>
    }
    var rest, providers, total := all, map[], 0;
    while rest != {}
      invariant total == TotalCapacity(r, all - rest)
      invariant forall role :: role !in rest ==> LaneAccepted(r.LaneOf(role))
      invariant forall role :: role !in rest ==>
                  r.LaneOf(role).provider in providers && providers[r.LaneOf(role).provider] == r.LaneOf(role).mcpServer
      invariant forall p <- providers :: exists role :: role !in rest && r.LaneOf(role).provider == p
      decreases rest
    {
      var role :| role in rest;
      var lane := r.LaneOf(role);
      if !LaneAccepted(lane) {
        return false;
      }
      if lane.provider in providers && providers[lane.provider] != lane.mcpServer {
        return false;
      }
      rest := rest - {role};
      providers := providers[lane.provider := lane.mcpServer];
      total := total + lane.capacity;
    }
    assert all - rest == all;
    ok := total <= MAX_TOTAL_CAPACITY;
  }

  predicate MayName(c: char) {
    'A' <= c <= 'Z' || 'a' <= c <= 'z' || '0' <= c <= '9' || c == '_' || c == '.' || c == '-'
  }

  predicate LaneStands(l: Lane) {
    && l.provider != "" && (forall c <- l.provider :: MayName(c))
    && l.mcpServer != "" && (forall c <- l.mcpServer :: MayName(c))
    && 1 <= l.capacity <= 12
  }

  predicate OneServer(l: Lane, m: Lane) { l.provider == m.provider ==> l.mcpServer == m.mcpServer }

  /** The conditions on lanes, one by one. */
  lemma LanesOneByOne(r: Request)
    ensures (forall role :: LaneAccepted(r.LaneOf(role))) <==>
              LaneStands(r.discoverer) && LaneStands(r.implementer) && LaneStands(r.reviewer)
    ensures (forall x, y :: r.LaneOf(x).provider == r.LaneOf(y).provider ==>
                            r.LaneOf(x).mcpServer == r.LaneOf(y).mcpServer) <==>
              OneServer(r.discoverer, r.implementer) && OneServer(r.discoverer, r.reviewer)
              && OneServer(r.implementer, r.reviewer)
  {
    assert r.LaneOf(Discoverer) == r.discoverer && r.LaneOf(Implementer) == r.implementer
           && r.LaneOf(Reviewer) == r.reviewer;
    hide LaneAccepted, LaneStands;
    assert forall l: Lane :: LaneAccepted(l) <==> LaneStands(l) by { SameLanes(); }
  }

  lemma SameLanes()
    ensures forall l: Lane :: LaneAccepted(l) <==> LaneStands(l)
  {
  }

  /** The request with its defaults filled in, or a refusal. */
  method ValidateRequest(request: Request) returns (r: Option<Request>)
    ensures r == if Acceptable(WithDefaults(request)) then Some(WithDefaults(request)) else None
    ensures r.Some? ==>
              && r.value == request.(adapter := r.value.adapter, runtime := r.value.runtime,
                                     intervalSeconds := r.value.intervalSeconds)
              && (request.adapter == r.value.adapter || (request.adapter == "" && r.value.adapter == "host"))
              && (r.value.adapter == "host" ==> request.runtime == r.value.runtime == "")
              && (r.value.adapter == "oci" ==> r.value.runtime == if request.runtime == "" then "podman"
                                                                  else request.runtime)
              && r.value.intervalSeconds == (if request.intervalSeconds == 0 then 30 else request.intervalSeconds)
    ensures r.Some? <==>
              && request.adapter in {"", "host", "oci"}
              && (request.adapter != "oci" ==> request.runtime == "")
              && (request.adapter == "oci" ==> request.runtime in {"", "podman", "docker"})
              && (request.intervalSeconds == 0
                  || 10 * SECOND <= Duration(request.intervalSeconds) <= 300 * SECOND)
              && LaneStands(request.discoverer) && LaneStands(request.implementer) && LaneStands(request.reviewer)
              && OneServer(request.discoverer, request.implementer) && OneServer(request.discoverer, request.reviewer)
              && OneServer(request.implementer, request.reviewer)
              && request.discoverer.capacity + request.implementer.capacity + request.reviewer.capacity <= 12
  {
    hide LaneAccepted, LaneStands, OneServer;
    LanesOneByOne(WithDefaults(request));
    assert Wrap64(30 * SECOND) == 30 * SECOND;
    hide Wrap64;
    var checked := request;
    if checked.adapter == "" {
      checked := checked.(adapter := HOST);
    }
    if checked.adapter != HOST && checked.adapter != OCI {
      return None;
    }
    if checked.adapter == HOST && checked.runtime != "" {
      return None;
    }
    if checked.adapter == OCI && checked.runtime == "" {
      checked := checked.(runtime := PODMAN);
    }
    if checked.adapter == OCI && checked.runtime != PODMAN && checked.runtime != DOCKER {
      return None;
    }
    if checked.intervalSeconds == 0 {
      checked := checked.(intervalSeconds := DEFAULT_INTERVAL);
    }
    if Duration(checked.intervalSeconds) < MINIMUM_INTERVAL * SECOND
      || Duration(checked.intervalSeconds) > MAXIMUM_INTERVAL * SECOND {
      return None;
    }
    var ok := LanesAccepted(checked);
    r := if ok then Some(checked) else None;
  }

  /** Three lanes, at least one worker each, at most twelve together. */
  lemma AcceptedCapacity(r: Request)
    requires Acceptable(r)
    ensures 3 <= r.discoverer.capacity + r.implementer.capacity + r.reviewer.capacity <= MAX_TOTAL_CAPACITY
    ensures forall role :: 1 <= r.LaneOf(role).capacity <= MAX_TOTAL_CAPACITY - 2
  {
    assert LaneAccepted(r.LaneOf(Discoverer)) && LaneAccepted(r.LaneOf(Implementer))
           && LaneAccepted(r.LaneOf(Reviewer));
  }

  /**
   The interval is checked after conversion to nanoseconds, which can wrap. The accepted interval is
   within its documented bounds exactly when the conversion did not.
   */
  lemma IntervalWithinBoundsExactlyWhenNotWrapped(r: Request)
    requires Acceptable(r)
    ensures MINIMUM_INTERVAL <= r.intervalSeconds <= MAXIMUM_INTERVAL
            <==> -0x8000_0000_0000_0000 <= r.intervalSeconds * SECOND < 0x8000_0000_0000_0000
  {
    var x := r.intervalSeconds * SECOND;
    if -0x8000_0000_0000_0000 <= x < 0x8000_0000_0000_0000 {
      assert Wrap64(x) == x;
    }
  }

  lemma SuchADurationWraps()
    ensures Duration(36_028_797_018_963_998) == Duration(30) == 30 * SECOND
  {
    var x := 36_028_797_018_963_998 * SECOND;
    assert x + 0x8000_0000_0000_0000 == 1953125 * 0x1_0000_0000_0000_0000 + (30 * SECOND + 0x8000_0000_0000_0000);
  }

  /** Such intervals exist: thirty seconds plus two to the power of fifty-five is accepted as thirty. */
  lemma WrappedIntervalIsAccepted(r: Request)
    requires Acceptable(r) && r.intervalSeconds == 30
    ensures Acceptable(r.(intervalSeconds := 36_028_797_018_963_998))
  {
    var s := r.(intervalSeconds := 36_028_797_018_963_998);
    SuchADurationWraps();
    hide Wrap64, Duration, LaneAccepted;
    assert forall role :: s.LaneOf(role) == r.LaneOf(role);
  }
}
