/**
 Which provider pairs a tick may launch with: proofs that still hold, refreshes that are due, and what
 their answers mean.
 */
module CampaignPreflight {
  import opened Prelude
  import opened CampaignTypes
  import opened CampaignRuns
  import opened CampaignTracking

  /** What the preflights of a tick go by: the proofs and delays are those known when they begin. */
  datatype Preflight = Preflight(
    request: Request, blocked: set<Role>, eligible: set<Pair>, anyRepository: bool,
    expiries: map<Pair, int>, backoff: map<BackoffKey, int>)

  predicate HasWork(counts: map<Repo, Claimable>, role: Role) {
    exists r <- counts :: counts[r].For(role) > 0
  }

  /** The pairs that serve an unblocked role with claimable work left after reservations. */
  ghost predicate EligibleFor(request: Request, blocked: set<Role>, counts: map<Repo, Claimable>, pairs: set<Pair>) {
    forall p :: p in pairs <==> exists role :: role !in blocked && request.PairOf(role) == p && HasWork(counts, role)
  }

  /** The live proof outlives the refresh window. */
  predicate Proven(expiries: map<Pair, int>, pair: Pair, now: int) {
    pair in expiries && expiries[pair] > now + PREFLIGHT_REFRESH_WINDOW
  }

  predicate Delayed(backoff: map<BackoffKey, int>, pair: Pair, now: int) {
    PreflightBackoff(pair) in backoff && backoff[PreflightBackoff(pair)] > now
  }

  /** A refresh is due: there is work and a repository for it, no proof that lasts, and no delay to wait for. */
  predicate DueAt(f: Preflight, pair: Pair, now: int) {
    pair in f.eligible && f.anyRepository && !Proven(f.expiries, pair, now) && !Delayed(f.backoff, pair, now)
  }

  /** The pairs of the unblocked ones among these roles. */
  function PairsOf(request: Request, roles: seq<Role>, blocked: set<Role>): set<Pair> {
    set role <- roles | role !in blocked :: request.PairOf(role)
  }

  lemma PairsMore(request: Request, i: nat, blocked: set<Role>)
    requires i < |LAUNCHABLE_ROLES|
    ensures var role := LAUNCHABLE_ROLES[i];
            PairsOf(request, LAUNCHABLE_ROLES[..i + 1], blocked)
            == PairsOf(request, LAUNCHABLE_ROLES[..i], blocked)
               + (if role in blocked then {} else {request.PairOf(role)})
  {
    assert LAUNCHABLE_ROLES[..i + 1] == LAUNCHABLE_ROLES[..i] + [LAUNCHABLE_ROLES[i]];
  }

  ghost predicate AskedAbout(asked: seq<ProofAnswer>, pair: Pair) { exists a <- asked :: a.pair == pair }

  /**
   Which pairs of these roles are ready, when each was looked at once between `since` and `now`: those whose
   proof held, and those whose refresh succeeded. A refresh is asked for at most once, only when it is due,
   and always when it is due from the beginning.
   */
  ghost predicate ReadyFor(f: Preflight, roles: seq<Role>, since: int, now: int, asked: seq<ProofAnswer>,
                           ready: set<Pair>) {
    var pairs := PairsOf(f.request, roles, f.blocked);
    && since <= now && ready <= pairs
    && (forall p <- ready :: AskedAbout(asked, p) || Proven(f.expiries, p, since))
    && (forall p <- pairs :: Proven(f.expiries, p, now) ==> p in ready)
    && (forall p <- pairs :: DueAt(f, p, since) ==> AskedAbout(asked, p))
    && (forall a <- asked :: a.pair in pairs && DueAt(f, a.pair, now) && (a.pair in ready <==> a.expiresAt.Some?))
    && (forall i, j :: 0 <= i < j < |asked| ==> asked[i].pair != asked[j].pair)
  }

  lemma NothingReady(f: Preflight, now: int)
    ensures ReadyFor(f, LAUNCHABLE_ROLES[..0], now, now, [], {})
    ensures PairsOf(f.request, LAUNCHABLE_ROLES[..0], f.blocked) == {}
    ensures Learned(f.expiries, [], f.expiries) && Delays(f.backoff, [], f.backoff, now)
  {
  }

  /** One more role looked at, or passed over because it is blocked or its pair has been looked at. */
  lemma ReadyMore(f: Preflight, i: nat, since: int, at: int, now: int, asked: seq<ProofAnswer>, ready: set<Pair>,
                  looked: bool, more: seq<ProofAnswer>, ready': set<Pair>)
    requires i < |LAUNCHABLE_ROLES| && at <= now
    requires ReadyFor(f, LAUNCHABLE_ROLES[..i], since, at, asked, ready)
    requires var role := LAUNCHABLE_ROLES[i];
             var pair := f.request.PairOf(role);
             && (looked <==> role !in f.blocked && pair !in PairsOf(f.request, LAUNCHABLE_ROLES[..i], f.blocked))
             && (if looked then
                   && |more| <= 1 && (more != [] ==> more[0].pair == pair)
                   && (more != [] <==> DueAt(f, pair, at))
                   && ready' == ready + (if (if more == [] then Proven(f.expiries, pair, at)
                                             else more[0].expiresAt.Some?) then {pair} else {})
                 else more == [] && ready' == ready)
    ensures ReadyFor(f, LAUNCHABLE_ROLES[..i + 1], since, now, asked + more, ready')
  {
    PairsMore(f.request, i, f.blocked);
    var pairs, pair := PairsOf(f.request, LAUNCHABLE_ROLES[..i], f.blocked), f.request.PairOf(LAUNCHABLE_ROLES[i]);
    hide PairsOf;
    if more == [] {
      assert asked + more == asked;
      UnaskedMore(f, LAUNCHABLE_ROLES[..i], LAUNCHABLE_ROLES[..i + 1], since, at, now, asked, ready, looked, pair,
                  ready');
    } else {
      assert more == [more[0]];
      AskedMore(f, LAUNCHABLE_ROLES[..i], LAUNCHABLE_ROLES[..i + 1], since, at, now, asked, ready, more[0], ready');
    }
  }

  /** A role passed over, or whose pair needed no refresh or could not have one. */
  lemma UnaskedMore(f: Preflight, roles: seq<Role>, roles': seq<Role>, since: int, at: int, now: int,
                    asked: seq<ProofAnswer>, ready: set<Pair>, looked: bool, pair: Pair, ready': set<Pair>)
    requires ReadyFor(f, roles, since, at, asked, ready) && at <= now
    requires PairsOf(f.request, roles', f.blocked)
             == PairsOf(f.request, roles, f.blocked) + (if looked then {pair} else {})
    requires if looked then
               && !DueAt(f, pair, at)
               && ready' == ready + (if Proven(f.expiries, pair, at) then {pair} else {})
             else ready' == ready
    requires looked ==> pair !in PairsOf(f.request, roles, f.blocked)
    ensures ReadyFor(f, roles', since, now, asked, ready')
  {
    hide PairsOf;
    forall p | p in PairsOf(f.request, roles', f.blocked) && DueAt(f, p, since) ensures AskedAbout(asked, p) {
      assert DueAt(f, p, at);
    }
    forall a <- asked ensures DueAt(f, a.pair, now) {
      assert DueAt(f, a.pair, at);
    }
  }

  lemma AskedMore(f: Preflight, roles: seq<Role>, roles': seq<Role>, since: int, at: int, now: int,
                  asked: seq<ProofAnswer>, ready: set<Pair>, a: ProofAnswer, ready': set<Pair>)
    requires ReadyFor(f, roles, since, at, asked, ready) && at <= now
    requires PairsOf(f.request, roles', f.blocked) == PairsOf(f.request, roles, f.blocked) + {a.pair}
    requires a.pair !in PairsOf(f.request, roles, f.blocked) && DueAt(f, a.pair, at)
    requires ready' == ready + (if a.expiresAt.Some? then {a.pair} else {})
    ensures ReadyFor(f, roles', since, now, asked + [a], ready')
  {
    hide PairsOf;
    assert a in asked + [a] && forall x <- asked :: x in asked + [a];
    forall p: Pair ensures AskedAbout(asked + [a], p) <==> AskedAbout(asked, p) || p == a.pair {
    }
    forall x <- asked ensures DueAt(f, x.pair, now) && x.pair != a.pair {
      assert DueAt(f, x.pair, at);
    }
  }

  lemma ReadyOnBehalf(f: Preflight, since: int, now: int, asked: seq<ProofAnswer>, ready: set<Pair>)
    requires ReadyFor(f, LAUNCHABLE_ROLES, since, now, asked, ready)
    ensures forall p <- ready :: exists role :: role !in f.blocked && f.request.PairOf(role) == p
  {
    assert ready <= PairsOf(f.request, LAUNCHABLE_ROLES, f.blocked);
  }

  /** Earlier is as good a beginning: what is due then stays due. */
  lemma ReadySince(f: Preflight, roles: seq<Role>, since: int, earlier: int, now: int, asked: seq<ProofAnswer>,
                   ready: set<Pair>)
    requires ReadyFor(f, roles, since, now, asked, ready) && earlier <= since
    ensures ReadyFor(f, roles, earlier, now, asked, ready)
  {
    hide PairsOf;
  }

  /** Only the delays of pairs matter. */
  lemma ReadyAlike(f: Preflight, backoff: map<BackoffKey, int>, roles: seq<Role>, since: int, now: int,
                   asked: seq<ProofAnswer>, ready: set<Pair>)
    requires ReadyFor(f, roles, since, now, asked, ready)
    requires forall p: Pair :: SameKey(backoff, f.backoff, PreflightBackoff(p))
    ensures ReadyFor(f.(backoff := backoff), roles, since, now, asked, ready)
  {
    hide PairsOf;
    forall p: Pair, t ensures DueAt(f.(backoff := backoff), p, t) <==> DueAt(f, p, t) {
      assert SameKey(backoff, f.backoff, PreflightBackoff(p));
    }
  }

  // ---- What the answers leave ---------------------------------------------------------------------

  /** A successful refresh is the proof known from then on; a failed one leaves none. */
  ghost predicate Learned(expiries: map<Pair, int>, asked: seq<ProofAnswer>, expiries': map<Pair, int>) {
    && (forall a <- asked :: if a.expiresAt.Some? then a.pair in expiries' && expiries'[a.pair] == a.expiresAt.value
                             else a.pair !in expiries')
    && (forall p: Pair :: !AskedAbout(asked, p) ==>
          (p in expiries' <==> p in expiries) && (p in expiries ==> expiries'[p] == expiries[p]))
  }

  ghost predicate FailedFor(asked: seq<ProofAnswer>, key: BackoffKey) {
    exists a <- asked :: a.expiresAt.None? && key == PreflightBackoff(a.pair)
  }

  /** A failed refresh holds its pair back for a full retry delay; nothing else is delayed anew. */
  ghost predicate Delays(backoff: map<BackoffKey, int>, asked: seq<ProofAnswer>, backoff': map<BackoffKey, int>,
                         since: int) {
    && (forall key :: FailedFor(asked, key) ==> key in backoff' && backoff'[key] >= since + RETRY_DELAY)
    && (forall key :: !FailedFor(asked, key) ==> SameKey(backoff, backoff', key))
  }

  /** A pair not looked at yet is as it was at the beginning. */
  lemma NotAskedYet(f: Preflight, roles: seq<Role>, since: int, now: int, asked: seq<ProofAnswer>, ready: set<Pair>,
                    expiries: map<Pair, int>, backoff: map<BackoffKey, int>, pair: Pair)
    requires ReadyFor(f, roles, since, now, asked, ready) && pair !in PairsOf(f.request, roles, f.blocked)
    requires Learned(f.expiries, asked, expiries) && Delays(f.backoff, asked, backoff, since)
    ensures !AskedAbout(asked, pair)
    ensures forall t :: Proven(expiries, pair, t) <==> Proven(f.expiries, pair, t)
    ensures forall t :: Delayed(backoff, pair, t) <==> Delayed(f.backoff, pair, t)
  {
    hide PairsOf;
    assert !FailedFor(asked, PreflightBackoff(pair));
    assert SameKey(f.backoff, backoff, PreflightBackoff(pair));
  }

  /** One more answer, or none. */
  lemma LearnedMore(f: Preflight, asked: seq<ProofAnswer>, known: map<Pair, int>, delays: map<BackoffKey, int>,
                    since: int, at: int, more: seq<ProofAnswer>, known': map<Pair, int>, delays': map<BackoffKey, int>)
    requires Learned(f.expiries, asked, known) && Delays(f.backoff, asked, delays, since) && since <= at
    requires |more| <= 1
    requires if more == [] then known' == known && delays' == delays
             else
               var a := more[0];
               && !AskedAbout(asked, a.pair)
               && (if a.expiresAt.Some? then known' == known[a.pair := a.expiresAt.value] && delays' == delays
                   else known' == known - {a.pair} && PreflightBackoff(a.pair) in delays'
                        && delays'[PreflightBackoff(a.pair)] >= at + RETRY_DELAY
                        && delays' == delays[PreflightBackoff(a.pair) := delays'[PreflightBackoff(a.pair)]])
    ensures Learned(f.expiries, asked + more, known') && Delays(f.backoff, asked + more, delays', since)
  {
    if more == [] {
      assert asked + more == asked;
    } else {
      assert more == [more[0]];
      LearnedOne(f.expiries, asked, known, more[0], known');
      DelayedOne(f.backoff, asked, delays, since, at, more[0], delays');
    }
  }

  lemma LearnedOne(expiries: map<Pair, int>, asked: seq<ProofAnswer>, known: map<Pair, int>, a: ProofAnswer,
                   known': map<Pair, int>)
    requires Learned(expiries, asked, known) && !AskedAbout(asked, a.pair)
    requires known' == if a.expiresAt.Some? then known[a.pair := a.expiresAt.value] else known - {a.pair}
    ensures Learned(expiries, asked + [a], known')
  {
    assert a in asked + [a] && forall x <- asked :: x in asked + [a];
    forall p: Pair | !AskedAbout(asked + [a], p) ensures p != a.pair && !AskedAbout(asked, p) {
    }
  }

  lemma DelayedOne(backoff: map<BackoffKey, int>, asked: seq<ProofAnswer>, delays: map<BackoffKey, int>, since: int,
                   at: int, a: ProofAnswer, delays': map<BackoffKey, int>)
    requires Delays(backoff, asked, delays, since) && since <= at
    requires var key := PreflightBackoff(a.pair);
             if a.expiresAt.Some? then delays' == delays
             else key in delays' && delays'[key] >= at + RETRY_DELAY && delays' == delays[key := delays'[key]]
    ensures Delays(backoff, asked + [a], delays', since)
  {
    assert a in asked + [a] && forall x <- asked :: x in asked + [a];
    forall key ensures FailedFor(asked + [a], key) <==>
                       FailedFor(asked, key) || (a.expiresAt.None? && key == PreflightBackoff(a.pair)) {
    }
    forall key | !FailedFor(asked + [a], key) ensures SameKey(backoff, delays', key) {
      assert SameKey(backoff, delays, key);
    }
  }

  /** Preflights change nothing about when a lane may launch. */
  lemma LanesKeepTheirDelays(backoff: map<BackoffKey, int>, asked: seq<ProofAnswer>, backoff': map<BackoffKey, int>,
                             since: int)
    requires Delays(backoff, asked, backoff', since)
    ensures forall lane: LaneKey :: SameLane(backoff, backoff', lane)
  {
    forall lane: LaneKey ensures SameLane(backoff, backoff', lane) {
      assert !FailedFor(asked, LaunchBackoff(lane));
    }
  }
}
