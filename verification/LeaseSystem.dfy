/**
 The relay, Snowcat and the rest of the world as one system of events, and what holds in every run:
 lost replies, late deliveries, renewal ticks and other clients in any order.
 */
module LeaseSystem {
  import opened Prelude
  import opened LeaseRelay

  // ---- Snowcat ---------------------------------------------------------------------------------

  datatype Grant = Grant(item: string, worker: string, expiresAt: int, ended: bool)

  type Grants = map<string, Grant>

  predicate Live(g: Grant, now: int) { !g.ended && now < g.expiresAt }

  /** Snowcat accepts a lifecycle call only for a live grant whose token, item and worker all match. */
  predicate Accepts(grants: Grants, now: int, call: Call) {
    var token := call.Arg("leaseToken");
    token in grants && Live(grants[token], now)
    && grants[token].item == call.Arg("id") && grants[token].worker == call.Arg("worker")
  }

  /** The lease length a call asks for; Snowcat's own default is not part of this model. */
  function Seconds(call: Call): int {
    if call.args.Some? && "leaseSeconds" in call.args.value && call.args.value["leaseSeconds"].Number?
    then call.args.value["leaseSeconds"].number else 0
  }

  /** A claim is granted on an item without a live grant, under a token never seen before. */
  predicate Claimable(grants: Grants, now: int, item: string) {
    item != "" && forall t <- grants :: grants[t].item == item ==> !Live(grants[t], now)
  }

  /** What processing a call does to the grants; `item` and `token` are Snowcat's choice for a claim. */
  function Processed(grants: Grants, now: int, call: Call, item: string, token: string): (Grants, Option<Item>) {
    match call.tool
    case ClaimWork =>
      if Claimable(grants, now, item) && token != "" && token !in grants then
        (grants[token := Grant(item, call.Arg("worker"), now + Seconds(call), false)],
         Some(Item(item, token, Some(now + Seconds(call)))))
      else (grants, None)
    case HeartbeatWork =>
      var t := call.Arg("leaseToken");
      if Accepts(grants, now, call) then
        (grants[t := grants[t].(expiresAt := now + Seconds(call))],
         Some(Item(grants[t].item, t, Some(now + Seconds(call)))))
      else (grants, None)
    case OtherTool(_) => (grants, None)
    case _ =>
      var t := call.Arg("leaseToken");
      if Accepts(grants, now, call) then
        (grants[t := grants[t].(ended := true)], Some(Item(grants[t].item, t, Some(grants[t].expiresAt))))
      else (grants, None)
  }

  // ---- The whole system ----------------------------------------------------------------------------

  /** A message the relay sent; `answer` is set once Snowcat has processed it. */
  datatype Message = Message(call: Call, answer: Option<Option<Item>>)

  /** The lifecycle call holding the relay's lock: the k-th message, a renewal of `current` or a provider's. */
  datatype Pending = Pending(k: nat, renewal: Option<Lease>)

  datatype Sys = Sys(
    relay: State, running: bool, pending: Option<Pending>,
    messages: seq<Message>, grants: Grants, now: int)

  datatype Event =
    | Ask(call: Call, wrote: bool)                            // the provider calls a tool
    | Beat                                                    // the renewal tick
    | Serve(k: nat, item: string, token: string)              // Snowcat processes a message, perhaps late
    | Deliver(wrote: bool)                                    // the pending call's answer arrives
    | Fail(bodyless: bool, wrote: bool)                       // it does not arrive, or without a body
    | Foreign(call: Call, item: string, token: string)          // another client's call
    | Pass(now: int)                                          // time
    | Quit(wrote: bool)                                       // the provider closes its end
    | Break(cause: Cause)                                     // the relay gives up

  /** What ends a relay besides its lifecycle calls; a renewal under way is broken off first. */
  datatype Cause =
    | RequestUnreached                                        // any other request cannot reach Snowcat
    | RequestInvalid                                          // the provider's line is not JSON-RPC
    | ReplyUnwritten
    | InputUnread

  predicate Enabled(s: Sys, worker: string, e: Event) {
    match e
    case Ask(call, _) => s.running && (IsLifecycle(call.tool) ==> s.pending.None?)
    case Beat => s.running && s.pending.None?
    case Serve(k, _, _) => k < |s.messages| && s.messages[k].answer.None?
    case Deliver(_) => s.running && s.pending.Some? && s.pending.value.k < |s.messages|
      && s.messages[s.pending.value.k].answer.Some?
    case Fail(_, _) => s.running && s.pending.Some?
    case Foreign(call, _, _) => call.Arg("worker") != worker
    case Pass(now) => s.now <= now
    case Quit(_) => s.running && s.pending.None?
    case Break(_) => s.running && s.pending.None?
  }

  function Step(s: Sys, worker: string, e: Event): Sys
    requires Enabled(s, worker, e)
  {
    match e
    case Ask(call, wrote) =>
      var (relay, d) := Begin(s.relay, worker, call, wrote);
      if d.Crash? then s.(relay := relay, running := false)
      else if d.Refuse? then s.(relay := relay)
      else
        s.(relay := relay, messages := s.messages + [Message(d.call, None)],
           pending := if IsLifecycle(call.tool) then Some(Pending(|s.messages|, None)) else s.pending)
    case Beat =>
      if NeedsRenewal(s.relay) then
        s.(messages := s.messages + [Message(Renewal(s.relay.active.value), None)],
           pending := Some(Pending(|s.messages|, Some(s.relay.active.value))))
      else s
    case Serve(k, item, token) =>
      var (grants, answer) := Processed(s.grants, s.now, s.messages[k].call, item, token);
      s.(grants := grants, messages := s.messages[k := Message(s.messages[k].call, Some(answer))])
    case Deliver(wrote) =>
      var p := s.pending.value;
      var m := s.messages[p.k];
      s.(pending := None,
         relay := if p.renewal.Some? then Renewed(s.relay, p.renewal.value, Answer(m.answer.value), s.now, wrote)
                  else Observed(s.relay, worker, m.call, m.answer.value, wrote))
    case Fail(bodyless, wrote) =>
      var p := s.pending.value;
      s.(pending := None,
         relay := if p.renewal.Some? then Renewed(s.relay, p.renewal.value, if bodyless then NoBody else Unreachable,
                                                  s.now, wrote)
                  else s.relay,
         running := bodyless || p.renewal.Some?)
    case Foreign(call, item, token) => s.(grants := Processed(s.grants, s.now, call, item, token).0)
    case Pass(now) => s.(now := now)
    case Quit(wrote) => s.(relay := ProviderGone(s.relay, wrote), running := false)
    case Break(_) => s.(running := false)
  }

  ghost predicate Possible(s: Sys, worker: string, events: seq<Event>)
    decreases |events|, 0
  {
    events == [] || (Possible(s, worker, Front(events)) && Enabled(Run(s, worker, Front(events)), worker, Last(events)))
  }

  ghost function Run(s: Sys, worker: string, events: seq<Event>): Sys
    requires Possible(s, worker, events)
    decreases |events|, 1
  {
    if events == [] then s else Step(Run(s, worker, Front(events)), worker, Last(events))
  }

  /** Any state of Snowcat to start from, a relay that holds nothing. */
  predicate Fresh(s: Sys, worker: string) {
    && s.relay == INITIAL && s.running && s.pending.None? && s.messages == []
    && worker != "" && (forall t <- s.grants :: s.grants[t].worker != worker) && ItemsAreExclusive(s.grants, s.now)
  }

  // ---- What every step keeps --------------------------------------------------------------------------

  /** No item has two live grants. */
  predicate ItemsAreExclusive(grants: Grants, now: int) {
    forall t, u | t in grants && u in grants && t != u :: grants[t].item == grants[u].item ==>
      !Live(grants[t], now)
      || !Live(grants[u], now)
  }

  /** The relay's own flags. */
  predicate Coherent(r: State) {
    && !(r.lost && r.terminal)
    && (r.lost ==> r.active.Some?)
    && (r.acknowledged ==> r.attempted)
    && (r.marker.Some? ==> (r.marker.value.status == LeaseLost ==> r.lost)
                           && (r.marker.value.acknowledged ==> r.marker.value.attempted && r.acknowledged)
                           && (r.marker.value.status == Completed ==> r.acknowledged))
  }

  /** Snowcat accepted this call, which ends the lease under `token`. */
  predicate Ends(m: Message, token: string) {
    IsTerminal(m.call.tool) && m.call.Arg("leaseToken") == token && m.answer.Some? && m.answer.value.Some?
  }

  /** Snowcat has accepted a call of this relay that ends the lease under `token`. */
  predicate EndTook(s: Sys, token: string) {
    exists m <- s.messages :: Ends(m, token)
  }

  predicate Asks120(call: Call) {
    call.tool == ClaimWork || call.tool == HeartbeatWork ==> Seconds(call) == LEASE_SECONDS
  }

  /** This worker's grants: never more than 120 seconds ahead, and ended only by a call of this relay. */
  predicate GrantsFollow(s: Sys, worker: string) {
    forall t <- s.grants :: s.grants[t].worker == worker ==>
      s.grants[t].expiresAt <= s.now + LEASE_SECONDS && (s.grants[t].ended ==> EndTook(s, t))
  }

  /** An answer was true when it was given, and this worker's grants only grow. */
  predicate AnswerHolds(s: Sys, worker: string, m: Message) {
    && Asks120(m.call)
    && (m.answer.Some? && m.answer.value.Some? && IsTerminal(m.call.tool) ==>
          var t := m.call.Arg("leaseToken");
          t in s.grants && s.grants[t].ended)
    && (m.answer.Some? && m.answer.value.Some? && (m.call.tool == ClaimWork || m.call.tool == HeartbeatWork) ==>
          var i := m.answer.value.value;
          && i.token in s.grants && s.grants[i.token].item == i.id
          && i.expiresAt.Some?
          && (s.grants[i.token].worker == worker ==> i.expiresAt.value <= s.grants[i.token].expiresAt)
          && s.grants[i.token].worker == m.call.Arg("worker")
          && (m.call.tool == ClaimWork ==> i.id != "" && i.token != "")
          && (m.call.tool == HeartbeatWork ==> i.token == m.call.Arg("leaseToken") && i.id == m.call.Arg("id")))
  }

  /** The lease on record is one of Snowcat's grants, and expires no later there. */
  predicate LeaseHolds(s: Sys, worker: string) {
    s.relay.active.Some? ==>
      var l := s.relay.active.value;
      && l.worker == worker && l.token in s.grants && l.item != ""
      && s.grants[l.token].item == l.item && s.grants[l.token].worker == worker
      && l.expiresAt <= s.grants[l.token].expiresAt
  }

  /** The pending call: what it carries, and what a refusal already given says about the lease. */
  predicate PendingFits(s: Sys, worker: string) {
    s.pending.Some? ==>
      var p := s.pending.value;
      && p.k < |s.messages| && IsLifecycle(s.messages[p.k].call.tool)
      && var m := s.messages[p.k];
      && (m.call.tool == ClaimWork ==> p.renewal.None? && m.call.Arg("worker") == worker
                                       && (s.relay.active.None? || s.relay.terminal))
      && (p.renewal.Some? ==> m.call == Renewal(p.renewal.value) && s.relay.active == p.renewal
                              && NeedsRenewal(s.relay))
      && !s.relay.lost && (m.call.tool == CompleteWork ==> s.relay.attempted)
      && (m.call.tool == HeartbeatWork && s.relay.active.Some? && m.call.Arg("id") == s.relay.active.value.item ==>
            && m.call.Arg("leaseToken") == s.relay.active.value.token && m.call.Arg("worker") == worker
            && (m.answer == Some(None) ==>
                  s.now >= s.relay.active.value.expiresAt || EndTook(s, s.relay.active.value.token)))
  }

  ghost predicate Inv(s: Sys, worker: string) {
    && worker != ""
    && Coherent(s.relay)
    && ItemsAreExclusive(s.grants, s.now)
    && GrantsFollow(s, worker)
    && (forall m <- s.messages :: AnswerHolds(s, worker, m))
    && LeaseHolds(s, worker)
    && PendingFits(s, worker)
  }

  // ---- Serving a call -------------------------------------------------------------------------------

  /** Grants only gain tokens, keep their item and worker, and stay ended; this worker's also keep growing. */
  predicate GrantsGrow(g: Grants, g': Grants, worker: string) {
    forall t <- g :: t in g' && g'[t].item == g[t].item && g'[t].worker == g[t].worker && (g[t].ended ==> g'[t].ended)
                     && (g[t].worker == worker ==> g[t].expiresAt <= g'[t].expiresAt)
  }

  lemma ProcessingKeepsItemsExclusive(grants: Grants, now: int, call: Call, item: string, token: string)
    requires ItemsAreExclusive(grants, now)
    ensures ItemsAreExclusive(Processed(grants, now, call, item, token).0, now)
  {
  }

  lemma GrantsOnlyGrow(s: Sys, worker: string, call: Call, item: string, token: string)
    requires GrantsFollow(s, worker) && (call.Arg("worker") == worker ==> Asks120(call))
    ensures GrantsGrow(s.grants, Processed(s.grants, s.now, call, item, token).0, worker)
  {
  }

  lemma AnswersStillHold(s: Sys, s': Sys, worker: string)
    requires forall m <- s.messages :: AnswerHolds(s, worker, m)
    requires GrantsGrow(s.grants, s'.grants, worker)
    ensures forall m <- s.messages :: AnswerHolds(s', worker, m)
  {
  }

  lemma ForeignGrantsFollow(s: Sys, worker: string, call: Call, item: string, token: string)
    requires GrantsFollow(s, worker) && call.Arg("worker") != worker
    ensures GrantsFollow(Step(s, worker, Foreign(call, item, token)), worker)
  {
    SameEnds(s, Step(s, worker, Foreign(call, item, token)));
  }

  lemma ForeignKeepsInv(s: Sys, worker: string, call: Call, item: string, token: string)
    requires Inv(s, worker) && call.Arg("worker") != worker
    ensures Inv(Step(s, worker, Foreign(call, item, token)), worker)
  {
    var s' := Step(s, worker, Foreign(call, item, token));
    GrantsOnlyGrow(s, worker, call, item, token);
    ProcessingKeepsItemsExclusive(s.grants, s.now, call, item, token);
    AnswersStillHold(s, s', worker);
    ForeignGrantsFollow(s, worker, call, item, token);
    SameEnds(s, s');
    hide Processed, GrantsFollow, AnswerHolds, ItemsAreExclusive, Coherent, EndTook;
  }

  lemma ServedAnswerHolds(s: Sys, worker: string, k: nat, item: string, token: string)
    requires GrantsFollow(s, worker) && k < |s.messages| && AnswerHolds(s, worker, s.messages[k])
    requires Enabled(s, worker, Serve(k, item, token))
    ensures var s' := Step(s, worker, Serve(k, item, token)); AnswerHolds(s', worker, s'.messages[k])
  {
  }

  /** A grant is ended only by a call that asks for it. */
  lemma ServedGrantsFollow(s: Sys, worker: string, k: nat, item: string, token: string)
    requires GrantsFollow(s, worker) && Enabled(s, worker, Serve(k, item, token)) && Asks120(s.messages[k].call)
    ensures GrantsFollow(Step(s, worker, Serve(k, item, token)), worker)
  {
    var s' := Step(s, worker, Serve(k, item, token));
    SameEnds(s, s');
    assert s.messages[k] in s.messages && s'.messages[k] in s'.messages;
  }

  /** A refusal of the held lease means that it has expired or that Snowcat accepted a call that ends it. */
  lemma RefusedOnlyWhenOver(s: Sys, worker: string, call: Call, item: string, token: string)
    requires LeaseHolds(s, worker) && GrantsFollow(s, worker) && s.relay.active.Some?
    requires call.tool == HeartbeatWork && call.Arg("id") == s.relay.active.value.item
    requires call.Arg("leaseToken") == s.relay.active.value.token && call.Arg("worker") == worker
    requires Processed(s.grants, s.now, call, item, token).1 == None
    ensures s.now >= s.relay.active.value.expiresAt || EndTook(s, s.relay.active.value.token)
  {
  }

  lemma ServedPendingFits(s: Sys, worker: string, k: nat, item: string, token: string)
    requires LeaseHolds(s, worker) && GrantsFollow(s, worker) && PendingFits(s, worker)
    requires Enabled(s, worker, Serve(k, item, token))
    ensures PendingFits(Step(s, worker, Serve(k, item, token)), worker)
  {
    var s' := Step(s, worker, Serve(k, item, token));
    SameEnds(s, s');
    var call := s.messages[k].call;
    if s.pending.Some? && s.pending.value.k == k && call.tool == HeartbeatWork && s.relay.active.Some?
       && call.Arg("id") == s.relay.active.value.item && Processed(s.grants, s.now, call, item, token).1 == None {
      RefusedOnlyWhenOver(s, worker, call, item, token);
    }
    hide Processed, EndTook;
  }

  lemma ServeKeepsInv(s: Sys, worker: string, k: nat, item: string, token: string)
    requires Inv(s, worker) && Enabled(s, worker, Serve(k, item, token))
    ensures Inv(Step(s, worker, Serve(k, item, token)), worker)
  {
    var call := s.messages[k].call;
    var s' := Step(s, worker, Serve(k, item, token));
    assert AnswerHolds(s, worker, s.messages[k]);
    GrantsOnlyGrow(s, worker, call, item, token);
    ProcessingKeepsItemsExclusive(s.grants, s.now, call, item, token);
    AnswersStillHold(s, s', worker);
    ServedAnswerHolds(s, worker, k, item, token);
    ServedGrantsFollow(s, worker, k, item, token);
    ServedPendingFits(s, worker, k, item, token);
    hide Processed, PendingFits, GrantsFollow, AnswerHolds, ItemsAreExclusive, Coherent;
  }

  /** What ended stays ended: calls and answers are never taken back. */
  lemma SameEnds(s: Sys, s': Sys)
    requires |s.messages| <= |s'.messages|
    requires forall k :: 0 <= k < |s.messages| ==>
               s'.messages[k].call == s.messages[k].call
               && (s.messages[k].answer.Some? ==> s'.messages[k].answer == s.messages[k].answer)
    ensures forall token :: EndTook(s, token) ==> EndTook(s', token)
  {
    forall token | EndTook(s, token) ensures EndTook(s', token) {
      var m :| m in s.messages && Ends(m, token);
      var k :| 0 <= k < |s.messages| && s.messages[k] == m;
      assert s'.messages[k] in s'.messages;
    }
  }

  lemma PassKeepsInv(s: Sys, worker: string, now: int)
    requires Inv(s, worker) && s.now <= now
    ensures Inv(Step(s, worker, Pass(now)), worker)
  {
    SameEnds(s, Step(s, worker, Pass(now)));
    AnswersStillHold(s, Step(s, worker, Pass(now)), worker);
  }

  /** Before anything is sent only the completion attempt and the marker can change. */
  lemma BeginChangesLittle(r: State, worker: string, call: Call, wrote: bool)
    requires Coherent(r)
    ensures var (r', d) := Begin(r, worker, call, wrote);
            && Coherent(r') && r'.active == r.active && r'.lost == r.lost && r'.terminal == r.terminal
            && (r.attempted ==> r'.attempted)
            && (d.Forward? ==> d.call.tool == call.tool && Asks120(d.call)
                               && (call.tool == CompleteWork ==> r'.attempted))
            && (d.Forward? && call.tool == ClaimWork ==> d.call.Arg("worker") == worker
                                                         && (r.active.None? || r.terminal))
            && (d.Forward? && call.tool != ClaimWork ==> !r.lost)
            && (d.Forward? && call.tool == HeartbeatWork && r.active.Some? && d.call.Arg("id") == r.active.value.item
                && r.active.value.item != "" ==>
                  d.call.Arg("leaseToken") == r.active.value.token && d.call.Arg("worker") == worker)
  {
  }

  lemma MessagesWith(s: Sys, s': Sys, worker: string, m: Message)
    requires forall x <- s.messages :: AnswerHolds(s, worker, x)
    requires s'.grants == s.grants && s'.messages == s.messages + [m] && AnswerHolds(s', worker, m)
    ensures forall x <- s'.messages :: AnswerHolds(s', worker, x)
  {
    AnswersStillHold(s, s', worker);
  }

  lemma GrantsStillFollow(s: Sys, s': Sys, worker: string)
    requires GrantsFollow(s, worker) && s'.grants == s.grants && s.now <= s'.now
    requires s.messages <= s'.messages
    ensures GrantsFollow(s', worker)
  {
    SameEnds(s, s');
  }

  /** What a provider's call can change, and what it sends. */
  ghost predicate AskedFor(s: Sys, s': Sys, worker: string) {
    && s' == s.(relay := s'.relay, running := s'.running, pending := s'.pending, messages := s'.messages)
    && Coherent(s'.relay) && s'.relay.active == s.relay.active
    && (s'.messages == s.messages
        || (s.messages <= s'.messages && |s'.messages| == |s.messages| + 1
            && Last(s'.messages).answer.None? && Asks120(Last(s'.messages).call)))
  }

  lemma AskShape(s: Sys, worker: string, call: Call, wrote: bool)
    requires Coherent(s.relay) && LeaseHolds(s, worker) && PendingFits(s, worker)
             && Enabled(s, worker, Ask(call, wrote))
    ensures AskedFor(s, Step(s, worker, Ask(call, wrote)), worker)
  {
    hide Begin, Coherent, EndTook, Renewal, PendingFits, LeaseHolds;
    BeginChangesLittle(s.relay, worker, call, wrote);
    var (r, d) := Begin(s.relay, worker, call, wrote);
    var s' := Step(s, worker, Ask(call, wrote));
    if d.Forward? {
      assert s'.messages == s.messages + [Message(d.call, None)];
    } else {
      assert s'.messages == s.messages;
    }
  }

  /** A lifecycle call that goes out becomes the pending one, and carries what it must. */
  lemma NewPendingFits(s: Sys, worker: string, call: Call, wrote: bool)
    requires Coherent(s.relay) && LeaseHolds(s, worker) && s.pending.None? && IsLifecycle(call.tool)
    requires Enabled(s, worker, Ask(call, wrote))
    ensures PendingFits(Step(s, worker, Ask(call, wrote)), worker)
  {
    BeginChangesLittle(s.relay, worker, call, wrote);
    assert s.relay.active.Some? ==> s.relay.active.value.item != "";
    hide Begin, EndTook, Renewal, Asks120, LeaseHolds, Coherent, NeedsRenewal;
    var s' := Step(s, worker, Ask(call, wrote));
    var d := Begin(s.relay, worker, call, wrote).1;
    assert if d.Forward? then s'.pending == Some(Pending(|s.messages|, None))
           && s'.messages[|s.messages|] == Message(d.call, None)
           else s'.pending.None?;
  }

  /** Any other call leaves the pending one as it is. */
  lemma OldPendingFits(s: Sys, worker: string, call: Call, wrote: bool)
    requires Coherent(s.relay) && PendingFits(s, worker) && !IsLifecycle(call.tool)
    requires Enabled(s, worker, Ask(call, wrote))
    ensures PendingFits(Step(s, worker, Ask(call, wrote)), worker)
  {
    var s' := Step(s, worker, Ask(call, wrote));
    SameEnds(s, s');
    hide EndTook, Renewal, Coherent;
    assert s'.relay == s.relay && s'.pending == s.pending;
  }

  lemma AskPendingFits(s: Sys, worker: string, call: Call, wrote: bool)
    requires Coherent(s.relay) && LeaseHolds(s, worker) && PendingFits(s, worker)
             && Enabled(s, worker, Ask(call, wrote))
    ensures PendingFits(Step(s, worker, Ask(call, wrote)), worker)
  {
    hide PendingFits, Step, Coherent, LeaseHolds;
    if IsLifecycle(call.tool) {
      NewPendingFits(s, worker, call, wrote);
    } else {
      OldPendingFits(s, worker, call, wrote);
    }
  }

  lemma AskKeepsInv(s: Sys, worker: string, call: Call, wrote: bool)
    requires Inv(s, worker) && Enabled(s, worker, Ask(call, wrote))
    ensures Inv(Step(s, worker, Ask(call, wrote)), worker)
  {
    hide EndTook, ItemsAreExclusive, AnswerHolds, Renewal, GrantsFollow, PendingFits, Step, Begin, Coherent;
    var s' := Step(s, worker, Ask(call, wrote));
    AskShape(s, worker, call, wrote);
    AskPendingFits(s, worker, call, wrote);
    GrantsStillFollow(s, s', worker);
    if s'.messages == s.messages {
      AnswersStillHold(s, s', worker);
    } else {
      var m := Last(s'.messages);
      Unanswered(s', worker, m);
      assert s'.messages == s.messages + [m];
      MessagesWith(s, s', worker, m);
    }
  }

  lemma Unanswered(s: Sys, worker: string, m: Message)
    requires Asks120(m.call) && m.answer.None?
    ensures AnswerHolds(s, worker, m)
  {
  }

  lemma BeatKeepsInv(s: Sys, worker: string)
    requires Inv(s, worker) && Enabled(s, worker, Beat)
    ensures Inv(Step(s, worker, Beat), worker)
  {
    var s' := Step(s, worker, Beat);
    SameEnds(s, s');
    AnswersStillHold(s, s', worker);
  }

  /** Renewed or observed, the lease on record stays one of Snowcat's grants. */
  lemma ObservingKeepsLease(s: Sys, worker: string, m: Message, wrote: bool)
    requires LeaseHolds(s, worker) && Coherent(s.relay) && AnswerHolds(s, worker, m) && m.answer.Some?
    requires m.call.tool == CompleteWork ==> s.relay.attempted
    requires m.call.tool == ClaimWork ==> s.relay.active.None? || s.relay.terminal
    requires !s.relay.lost
    requires m.call.tool == HeartbeatWork && s.relay.active.Some? && m.call.Arg("id") == s.relay.active.value.item ==>
               m.call.Arg("leaseToken") == s.relay.active.value.token
    ensures var r := Observed(s.relay, worker, m.call, m.answer.value, wrote);
            Coherent(r) && LeaseHolds(s.(relay := r), worker)
  {
    var r := Observed(s.relay, worker, m.call, m.answer.value, wrote);
    if m.answer.value.None? {
      assert LeaseHolds(s.(relay := r), worker);
    } else if m.call.tool == ClaimWork || m.call.tool == HeartbeatWork {
      assert m.answer.value.value.token in s.grants;
    }
  }

  lemma RenewingKeepsLease(s: Sys, worker: string, current: Lease, m: Message, wrote: bool)
    requires LeaseHolds(s, worker) && Coherent(s.relay) && AnswerHolds(s, worker, m) && m.answer.Some?
    requires m.call == Renewal(current) && s.relay.active == Some(current)
    ensures var r := Renewed(s.relay, current, Answer(m.answer.value), s.now, wrote);
            Coherent(r) && LeaseHolds(s.(relay := r), worker)
  {
    assert m.call.Arg("leaseToken") == current.token;
  }

  lemma DeliverKeepsInv(s: Sys, worker: string, wrote: bool)
    requires Inv(s, worker) && Enabled(s, worker, Deliver(wrote))
    ensures Inv(Step(s, worker, Deliver(wrote)), worker)
  {
    var s' := Step(s, worker, Deliver(wrote));
    var p := s.pending.value;
    assert AnswerHolds(s, worker, s.messages[p.k]);
    if p.renewal.Some? {
      RenewingKeepsLease(s, worker, p.renewal.value, s.messages[p.k], wrote);
    } else {
      ObservingKeepsLease(s, worker, s.messages[p.k], wrote);
    }
    SameEnds(s, s');
    AnswersStillHold(s, s', worker);
    hide Coherent, EndTook, ItemsAreExclusive, AnswerHolds, Observed, Renewed;
  }

  lemma FailKeepsInv(s: Sys, worker: string, bodyless: bool, wrote: bool)
    requires Inv(s, worker) && Enabled(s, worker, Fail(bodyless, wrote))
    ensures Inv(Step(s, worker, Fail(bodyless, wrote)), worker)
  {
    var s' := Step(s, worker, Fail(bodyless, wrote));
    SameEnds(s, s');
    AnswersStillHold(s, s', worker);
  }

  lemma QuitKeepsInv(s: Sys, worker: string, wrote: bool)
    requires Inv(s, worker) && Enabled(s, worker, Quit(wrote))
    ensures Inv(Step(s, worker, Quit(wrote)), worker)
  {
    var s' := Step(s, worker, Quit(wrote));
    SameEnds(s, s');
    AnswersStillHold(s, s', worker);
  }

  lemma BreakKeepsInv(s: Sys, worker: string, cause: Cause)
    requires Inv(s, worker) && Enabled(s, worker, Break(cause))
    ensures Inv(Step(s, worker, Break(cause)), worker)
  {
    var s' := Step(s, worker, Break(cause));
    SameEnds(s, s');
    AnswersStillHold(s, s', worker);
  }

  lemma StepKeepsInv(s: Sys, worker: string, e: Event)
    requires Inv(s, worker) && Enabled(s, worker, e)
    ensures Inv(Step(s, worker, e), worker)
  {
    hide Step, Inv, Enabled;
    match e
    case Ask(call, wrote) => AskKeepsInv(s, worker, call, wrote);
    case Beat => BeatKeepsInv(s, worker);
    case Serve(k, item, token) => ServeKeepsInv(s, worker, k, item, token);
    case Deliver(wrote) => DeliverKeepsInv(s, worker, wrote);
    case Fail(bodyless, wrote) => FailKeepsInv(s, worker, bodyless, wrote);
    case Foreign(call, item, token) =>
      OnlyOthers(s, worker, e);
      ForeignKeepsInv(s, worker, call, item, token);
    case Pass(now) =>
      OnlyOthers(s, worker, e);
      PassKeepsInv(s, worker, now);
    case Quit(wrote) => QuitKeepsInv(s, worker, wrote);
    case Break(cause) => BreakKeepsInv(s, worker, cause);
  }

  lemma OnlyOthers(s: Sys, worker: string, e: Event)
    requires Enabled(s, worker, e)
    ensures e.Foreign? ==> e.call.Arg("worker") != worker
    ensures e.Pass? ==> s.now <= e.now
  {
  }

  lemma {:induction false} EveryRunKeepsInv(s: Sys, worker: string, events: seq<Event>)
    requires Fresh(s, worker) && Possible(s, worker, events)
    ensures Inv(Run(s, worker, events), worker)
    decreases |events|
  {
    if events != [] {
      EveryRunKeepsInv(s, worker, Front(events));
      StepKeepsInv(Run(s, worker, Front(events)), worker, Last(events));
    }
  }

  // ---- When every answer to an ending call is heard ---------------------------------------------------------

  /** The event loses the answer to a provider's ending call. */
  predicate Unheard(s: Sys, e: Event) {
    e.Fail? && PendingEnds(s)
  }

  /** The pending call is one that would end a lease. */
  predicate PendingEnds(s: Sys) {
    s.pending.Some? && s.pending.value.k < |s.messages| && IsTerminal(s.messages[s.pending.value.k].call.tool)
  }

  /** No answer to an ending call was lost. */
  ghost predicate HeardAll(s: Sys, worker: string, events: seq<Event>)
    requires Possible(s, worker, events)
    decreases |events|
  {
    events == [] || (HeardAll(s, worker, Front(events)) && !Unheard(Run(s, worker, Front(events)), Last(events)))
  }

  predicate IsPending(s: Sys, k: nat) { s.pending.Some? && s.pending.value.k == k }

  /**
   Only the pending call's end may be unknown to the relay: every other ending call has its answer, a
   success among them for the held token means that the relay counts the lease as ended, and a lease about
   to be claimed has not been ended.
   */
  predicate Heard(s: Sys) {
    && (forall k :: 0 <= k < |s.messages| && IsTerminal(s.messages[k].call.tool) && s.messages[k].answer.None? ==>
        IsPending(s, k))
    && (s.relay.active.Some? ==>
          forall k :: 0 <= k < |s.messages| && Ends(s.messages[k], s.relay.active.value.token) ==>
            s.relay.terminal
            || IsPending(s, k))
    && (s.pending.Some? && s.pending.value.k < |s.messages| ==>
          var m := s.messages[s.pending.value.k];
          m.call.tool == ClaimWork && m.answer.Some? && m.answer.value.Some? ==>
            !EndTook(s, m.answer.value.value.token))
  }

  lemma NewIsNotEnded(s: Sys, worker: string, token: string)
    requires (forall m <- s.messages :: AnswerHolds(s, worker, m)) && token !in s.grants
    ensures !EndTook(s, token)
  {
    forall m <- s.messages ensures !Ends(m, token) {
      assert AnswerHolds(s, worker, m);
    }
  }

  lemma ServeStaysHeard(s: Sys, worker: string, k: nat, item: string, token: string)
    requires Inv(s, worker) && Heard(s) && Enabled(s, worker, Serve(k, item, token))
    ensures Heard(Step(s, worker, Serve(k, item, token)))
  {
    var s' := Step(s, worker, Serve(k, item, token));
    var call := s.messages[k].call;
    if s'.pending.Some? && s.messages[s.pending.value.k].call.tool == ClaimWork {
      var m := s'.messages[s.pending.value.k];
      if m.answer.Some? && m.answer.value.Some? {
        var t := m.answer.value.value.token;
        if k == s.pending.value.k {
          NewIsNotEnded(s, worker, t);
        }
        forall x <- s'.messages ensures !Ends(x, t) {
          var j :| 0 <= j < |s'.messages| && s'.messages[j] == x;
          if j != k {
            assert s.messages[j] in s.messages;
          }
        }
      }
    }
    hide Processed, Inv;
  }

  lemma DeliverStaysHeard(s: Sys, worker: string, wrote: bool)
    requires Inv(s, worker) && Heard(s) && Enabled(s, worker, Deliver(wrote))
    ensures Heard(Step(s, worker, Deliver(wrote)))
  {
    var s' := Step(s, worker, Deliver(wrote));
    var p := s.pending.value;
    var m := s.messages[p.k];
    DeliveredLease(s, worker, wrote);
    hide Step, Observed, Renewed, Inv;
    if s'.relay.active.Some? {
      forall k | 0 <= k < |s'.messages| && Ends(s'.messages[k], s'.relay.active.value.token) ensures s'.relay.terminal {
        assert s.messages[k] in s.messages;
      }
    }
  }

  /** What a delivery makes of the held lease: a claim's own token, or the token held before. */
  lemma DeliveredLease(s: Sys, worker: string, wrote: bool)
    requires Inv(s, worker) && Enabled(s, worker, Deliver(wrote))
    ensures var s' := Step(s, worker, Deliver(wrote));
            var m := s.messages[s.pending.value.k];
            && s'.messages == s.messages && s'.pending.None?
            && (m.call.tool != ClaimWork ==>
                  && (s'.relay.active.Some? <==> s.relay.active.Some?)
                  && (s.relay.active.Some? ==> s'.relay.active.value.token == s.relay.active.value.token)
                  && (s.relay.terminal ==> s'.relay.terminal)
                  && (IsTerminal(m.call.tool) && m.answer.value.Some? ==> s'.relay.terminal))
            && (m.call.tool == ClaimWork ==>
                  || (s'.relay.active == s.relay.active && (s.relay.terminal ==> s'.relay.terminal))
                  || (m.answer.value.Some? && s'.relay.active.Some?
                      && s'.relay.active.value.token == m.answer.value.value.token))
  {
  }

  /** A call leaves the lease alone; what it sends is unanswered, and pending if it is a lifecycle call. */
  predicate Sends(s: Sys, s': Sys, tool: Tool) {
    && s'.relay.active == s.relay.active && s'.relay.terminal == s.relay.terminal
    && if |s'.messages| == |s.messages| then s'.messages == s.messages && s'.pending == s.pending
       else
         && |s'.messages| == |s.messages| + 1 && s.messages <= s'.messages
         && Last(s'.messages).answer.None? && Last(s'.messages).call.tool == tool
         && (if IsLifecycle(tool) then s.pending.None? && IsPending(s', |s.messages|) else s'.pending == s.pending)
  }

  lemma AskSends(s: Sys, worker: string, call: Call, wrote: bool)
    requires Coherent(s.relay) && Enabled(s, worker, Ask(call, wrote))
    ensures Sends(s, Step(s, worker, Ask(call, wrote)), call.tool)
  {
    hide Begin, Coherent, Asks120;
    BeginChangesLittle(s.relay, worker, call, wrote);
    var (r, d) := Begin(s.relay, worker, call, wrote);
    var s' := Step(s, worker, Ask(call, wrote));
    if d.Forward? {
      assert s'.messages == s.messages + [Message(d.call, None)];
    }
  }

  lemma SendingStaysHeard(s: Sys, s': Sys, tool: Tool)
    requires Heard(s) && Sends(s, s', tool) && (s.pending.Some? ==> s.pending.value.k < |s.messages|)
    ensures Heard(s')
  {
    assert forall m <- s'.messages :: m in s.messages || m.answer.None?;
    assert forall t :: EndTook(s', t) ==> EndTook(s, t);
  }

  lemma StepStaysHeard(s: Sys, worker: string, e: Event)
    requires Inv(s, worker) && Enabled(s, worker, e) && !Unheard(s, e) && (s.running ==> Heard(s))
    ensures Step(s, worker, e).running ==> Heard(Step(s, worker, e))
  {
    if s.running {
      match e
      case Ask(call, wrote) =>
        AskSends(s, worker, call, wrote);
        SendingStaysHeard(s, Step(s, worker, e), call.tool);
      case Serve(k, item, token) => ServeStaysHeard(s, worker, k, item, token);
      case Deliver(wrote) => DeliverStaysHeard(s, worker, wrote);
      case Beat =>
        SendingStaysHeard(s, Step(s, worker, e), HeartbeatWork);
      case Fail(_, _) =>
      case Foreign(_, _, _) =>
      case Pass(_) =>
      case Quit(_) =>
      case Break(_) =>
    }
  }

  lemma {:induction false} EveryHeardRunStaysHeard(s: Sys, worker: string, events: seq<Event>)
    requires Fresh(s, worker) && Possible(s, worker, events) && HeardAll(s, worker, events)
    ensures Run(s, worker, events).running ==> Heard(Run(s, worker, events))
    decreases |events|
  {
    if events != [] {
      EveryHeardRunStaysHeard(s, worker, Front(events));
      EveryRunKeepsInv(s, worker, Front(events));
      StepStaysHeard(Run(s, worker, Front(events)), worker, Last(events));
    }
  }

  // ---- What every run guarantees ------------------------------------------------------------------------

  /**
   In every run the recorded expiry is no later than Snowcat's. While it lies ahead, Snowcat still holds the
   lease for this worker, and holds the item for nobody else, unless Snowcat has accepted a call of this
   relay that ends it.
   */
  lemma LeaseIsReallyHeld(s: Sys, worker: string, events: seq<Event>)
    requires Fresh(s, worker) && Possible(s, worker, events)
    ensures var z := Run(s, worker, events);
            z.relay.active.Some? ==>
              var l := z.relay.active.value;
              && l.token in z.grants && z.grants[l.token].item == l.item && z.grants[l.token].worker == worker
              && l.expiresAt <= z.grants[l.token].expiresAt
              && (z.grants[l.token].ended <==> EndTook(z, l.token))
              && (z.now < l.expiresAt && !EndTook(z, l.token) ==> HeldAlone(z, l))
  {
    EveryRunKeepsInv(s, worker, events);
    var z := Run(s, worker, events);
    if z.relay.active.Some? && EndTook(z, z.relay.active.value.token) {
      var m :| m in z.messages && Ends(m, z.relay.active.value.token);
      assert AnswerHolds(z, worker, m);
    }
  }

  /** Snowcat holds this lease, and no other on its item. */
  predicate HeldAlone(z: Sys, l: Lease) {
    && l.token in z.grants && Live(z.grants[l.token], z.now)
    && forall t <- z.grants :: t != l.token && z.grants[t].item == l.item ==> !Live(z.grants[t], z.now)
  }

  /**
   What the relay knows is enough: while it runs and has heard every answer to an ending call, a lease it
   counts as not ended, with no ending call pending and the recorded expiry ahead, is held by Snowcat for
   this worker alone.
   */
  lemma UnendedLeaseIsHeld(s: Sys, worker: string, events: seq<Event>)
    requires Fresh(s, worker) && Possible(s, worker, events) && HeardAll(s, worker, events)
    ensures var z := Run(s, worker, events);
            z.running && z.relay.active.Some? && !z.relay.terminal && !PendingEnds(z) ==>
              && !EndTook(z, z.relay.active.value.token)
              && (z.now < z.relay.active.value.expiresAt ==> HeldAlone(z, z.relay.active.value))
  {
    EveryRunKeepsInv(s, worker, events);
    EveryHeardRunStaysHeard(s, worker, events);
    LeaseIsReallyHeld(s, worker, events);
    var z := Run(s, worker, events);
    if z.running && z.relay.active.Some? && !z.relay.terminal && !PendingEnds(z) {
      HeardNotEnded(z);
    }
  }

  lemma HeardNotEnded(z: Sys)
    requires Heard(z) && z.relay.active.Some? && !z.relay.terminal && !PendingEnds(z)
    ensures !EndTook(z, z.relay.active.value.token)
  {
    forall m <- z.messages ensures !Ends(m, z.relay.active.value.token) {
      var k :| 0 <= k < |z.messages| && z.messages[k] == m;
    }
  }

  /**
   The lease is never declared lost before its recorded expiry, unless Snowcat has accepted a call of this
   relay that ends it; and never, if the relay heard every answer to such a call.
   */
  lemma NeverLostEarly(s: Sys, worker: string, events: seq<Event>)
    requires Fresh(s, worker) && events != [] && Possible(s, worker, events)
    ensures var before, after := Run(s, worker, Front(events)), Run(s, worker, events);
            !before.relay.lost && after.relay.lost ==>
              && before.relay.active.Some?
              && (before.now >= before.relay.active.value.expiresAt
                  || (EndTook(before, before.relay.active.value.token) && !HeardAll(s, worker, Front(events))))
  {
    EveryRunKeepsInv(s, worker, Front(events));
    var before := Run(s, worker, Front(events));
    if !before.relay.lost && Run(s, worker, events).relay.lost {
      LossStep(before, worker, Last(events));
      if HeardAll(s, worker, Front(events)) && before.now < before.relay.active.value.expiresAt {
        EveryHeardRunStaysHeard(s, worker, Front(events));
        LossIsOfAnUnendedLease(before, worker, Last(events));
        HeardNotEnded(before);
        assert false;
      }
    }
  }

  /** Only a renewal or a heartbeat can find the lease lost, and only while it counts as not ended. */
  lemma LossIsOfAnUnendedLease(s: Sys, worker: string, e: Event)
    requires Inv(s, worker) && Enabled(s, worker, e) && !s.relay.lost && Step(s, worker, e).relay.lost
    ensures s.running && !s.relay.terminal && !PendingEnds(s)
  {
    if e.Ask? {
      BeginChangesLittle(s.relay, worker, e.call, e.wrote);
    }
    hide GrantsFollow, ItemsAreExclusive, EndTook, AnswerHolds;
  }

  lemma LossStep(s: Sys, worker: string, e: Event)
    requires Inv(s, worker) && Enabled(s, worker, e) && !s.relay.lost && Step(s, worker, e).relay.lost
    ensures s.relay.active.Some?
    ensures s.now >= s.relay.active.value.expiresAt || EndTook(s, s.relay.active.value.token)
  {
    match e
    case Ask(call, wrote) => assert false by { BeginChangesLittle(s.relay, worker, call, wrote); }
    case Deliver(wrote) => DeliveredLoss(s, worker, wrote);
    case _ => hide GrantsFollow, ItemsAreExclusive, EndTook, AnswerHolds, Coherent;
  }

  /** A delivered answer loses the lease only when it refuses the held lease. */
  lemma DeliveredLoss(s: Sys, worker: string, wrote: bool)
    requires Inv(s, worker) && Enabled(s, worker, Deliver(wrote))
    requires !s.relay.lost && Step(s, worker, Deliver(wrote)).relay.lost
    ensures s.relay.active.Some?
    ensures s.now >= s.relay.active.value.expiresAt || EndTook(s, s.relay.active.value.token)
  {
    hide GrantsFollow, ItemsAreExclusive, EndTook, Coherent;
    var m := s.messages[s.pending.value.k];
    assert AnswerHolds(s, worker, m);
    if s.pending.value.renewal.Some? {
      assert m.call.Arg("id") == s.relay.active.value.item;
    }
  }

  lemma LostStepsChangeNothing(s: Sys, worker: string, e: Event)
    requires Inv(s, worker) && Enabled(s, worker, e) && s.relay.lost
    ensures Step(s, worker, e).relay == s.relay && |Step(s, worker, e).messages| == |s.messages|
  {
  }

  /**
   In every run, a lifecycle call the provider makes for the held item, or for none, while the lease is not
   lost, goes out under a lease that Snowcat granted this worker on that very item; a heartbeat asks for 120
   seconds, whatever the provider asked for.
   */
  lemma EveryCallCarriesTheLease(s: Sys, worker: string, events: seq<Event>)
    requires Fresh(s, worker) && events != [] && Possible(s, worker, events) && Last(events).Ask?
    requires var call := Last(events).call; IsLifecycle(call.tool) && call.tool != ClaimWork
    requires var r := Run(s, worker, Front(events)).relay;
             && r.active.Some? && !r.lost
             && (Last(events).call.Arg("id") == "" || Last(events).call.Arg("id") == r.active.value.item)
    ensures var before, after := Run(s, worker, Front(events)), Run(s, worker, events);
            && |after.messages| == |before.messages| + 1
            && var sent := Last(after.messages).call;
            && sent.tool == Last(events).call.tool
            && sent.Arg("leaseToken") in after.grants && sent.Arg("worker") == worker
            && after.grants[sent.Arg("leaseToken")].worker == worker
            && after.grants[sent.Arg("leaseToken")].item == sent.Arg("id") == before.relay.active.value.item
            && (sent.tool == HeartbeatWork ==> Seconds(sent) == LEASE_SECONDS)
  {
    EveryRunKeepsInv(s, worker, Front(events));
    var before, e := Run(s, worker, Front(events)), Last(events);
    HeldLeaseIsCarried(before.relay, worker, e.call, e.wrote);
    if e.call.tool == HeartbeatWork {
      LengthIsForced(before.relay, worker, e.call, e.wrote);
    }
    hide Begin, GrantsFollow, AnswerHolds, PendingFits, ItemsAreExclusive, Coherent;
    var d := Begin(before.relay, worker, e.call, e.wrote).1;
    assert Run(s, worker, events).messages == before.messages + [Message(d.call, None)];
  }

  // ---- Before the first claim, and after the end ----------------------------------------------------------

  /** The answer to a claim arrives and grants a lease. */
  predicate BringsLease(s: Sys, e: Event) {
    e.Deliver? && s.pending.Some? && s.pending.value.k < |s.messages| &&
    var m := s.messages[s.pending.value.k];
    m.call.tool == ClaimWork && m.answer.Some? && m.answer.value.Some?
    && m.answer.value.value.id != "" && m.answer.value.value.token != ""
  }

  /** The relay has been given a lease, whatever became of it since. */
  ghost predicate EverHeld(s: Sys, worker: string, events: seq<Event>)
    requires Possible(s, worker, events)
    decreases |events|
  {
    events != [] && (EverHeld(s, worker, Front(events)) || BringsLease(Run(s, worker, Front(events)), Last(events)))
  }

  lemma HoldingStep(s: Sys, worker: string, e: Event)
    requires Inv(s, worker) && Enabled(s, worker, e)
    ensures Step(s, worker, e).relay.active.Some? <==> s.relay.active.Some? || BringsLease(s, e)
  {
    match e
    case Ask(call, wrote) =>
      BeginChangesLittle(s.relay, worker, call, wrote);
      hide Begin, Inv;
    case Deliver(wrote) => DeliveredHolding(s, worker, wrote);
    case _ => hide Inv;
  }

  lemma DeliveredHolding(s: Sys, worker: string, wrote: bool)
    requires Inv(s, worker) && Enabled(s, worker, Deliver(wrote))
    ensures Step(s, worker, Deliver(wrote)).relay.active.Some? <==>
              s.relay.active.Some? || BringsLease(s, Deliver(wrote))
  {
    hide GrantsFollow, ItemsAreExclusive, Coherent, LeaseHolds;
    assert AnswerHolds(s, worker, s.messages[s.pending.value.k]);
  }

  lemma {:induction false} HeldOnceClaimed(s: Sys, worker: string, events: seq<Event>)
    requires Fresh(s, worker) && Possible(s, worker, events)
    ensures Run(s, worker, events).relay.active.Some? <==> EverHeld(s, worker, events)
    decreases |events|
  {
    if events != [] {
      HeldOnceClaimed(s, worker, Front(events));
      EveryRunKeepsInv(s, worker, Front(events));
      HoldingStep(Run(s, worker, Front(events)), worker, Last(events));
    }
  }

  /**
   The one way in which a provider's call crashes the relay, in every run: a heartbeat without arguments,
   before any claim of the run has brought a lease. Once one has, ended and lost leases included, it never
   happens.
   */
  lemma CrashesExactlyBeforeAnyClaim(s: Sys, worker: string, events: seq<Event>)
    requires Fresh(s, worker) && events != [] && Possible(s, worker, events) && Last(events).Ask?
    ensures !Run(s, worker, events).running <==>
              Last(events).call.tool == HeartbeatWork && Last(events).call.args.None?
              && !EverHeld(s, worker, Front(events))
  {
    HeldOnceClaimed(s, worker, Front(events));
    EveryRunKeepsInv(s, worker, Front(events));
    var before, e := Run(s, worker, Front(events)), Last(events);
    CrashesExactlyWhen(before.relay, worker, e.call, e.wrote);
    hide Begin;
  }

  /** The provider closed its end while it held a lease neither ended nor lost, and that was written down. */
  ghost predicate ExitNoted(s: Sys, worker: string, events: seq<Event>)
    requires Possible(s, worker, events)
    decreases |events|
  {
    events != [] &&
    (ExitNoted(s, worker, Front(events))
     || (Last(events).Quit? && Last(events).wrote && NeedsRenewal(Run(s, worker, Front(events)).relay)))
  }

  predicate SaysExited(r: State) { r.marker.Some? && r.marker.value.status == ProviderExited }

  lemma ExitStep(s: Sys, worker: string, e: Event)
    requires Enabled(s, worker, e) && (SaysExited(s.relay) ==> !s.running)
    ensures SaysExited(Step(s, worker, e).relay) <==>
              SaysExited(s.relay) || (e.Quit? && e.wrote && NeedsRenewal(s.relay))
    ensures SaysExited(Step(s, worker, e).relay) ==> !Step(s, worker, e).running
  {
    match e
    case Ask(call, wrote) => BeginSaysNoExit(s.relay, worker, call, wrote); hide Begin;
    case _ => hide Processed;
  }

  lemma BeginSaysNoExit(r: State, worker: string, call: Call, wrote: bool)
    ensures SaysExited(Begin(r, worker, call, wrote).0) ==> SaysExited(r)
  {
  }

  /**
   The marker says that the provider exited exactly when it closed its end under a live lease and that was
   written. A relay that breaks off, crashes or cannot reach Snowcat never says so.
   */
  lemma {:induction false} ExitIsNotedExactlyWhen(s: Sys, worker: string, events: seq<Event>)
    requires Fresh(s, worker) && Possible(s, worker, events)
    ensures var z := Run(s, worker, events);
            && (SaysExited(z.relay) <==> ExitNoted(s, worker, events))
            && (SaysExited(z.relay) ==> !z.running)
    decreases |events|
  {
    if events != [] {
      ExitIsNotedExactlyWhen(s, worker, Front(events));
      ExitStep(Run(s, worker, Front(events)), worker, Last(events));
    }
  }

  /** Every prefix of a possible run is possible. */
  lemma {:induction false} PrefixIsPossible(s: Sys, worker: string, events: seq<Event>, n: nat)
    requires Possible(s, worker, events) && n <= |events|
    ensures Possible(s, worker, events[..n])
    decreases |events|
  {
    if n == |events| {
      assert events[..n] == events;
    } else {
      assert Front(events)[..n] == events[..n];
      PrefixIsPossible(s, worker, Front(events), n);
    }
  }

  /**
   Once lost, a lease stays lost: whatever happens afterwards, nothing more of the provider's is
   forwarded, claims included, no renewal is sent, and the lifecycle marker is not written again.
   */
  lemma {:induction false} LossIsFinal(s: Sys, worker: string, events: seq<Event>, n: nat)
    requires Fresh(s, worker) && Possible(s, worker, events) && n <= |events|
    ensures Possible(s, worker, events[..n])
    ensures var before, after := Run(s, worker, events[..n]), Run(s, worker, events);
            before.relay.lost ==> after.relay == before.relay && |after.messages| == |before.messages|
    decreases |events|
  {
    if n == |events| {
      assert events[..n] == events;
    } else {
      PrefixIsPossible(s, worker, events, n);
      assert Front(events)[..n] == events[..n];
      LossIsFinal(s, worker, Front(events), n);
      EveryRunKeepsInv(s, worker, Front(events));
      if Run(s, worker, events[..n]).relay.lost {
        LostStepsChangeNothing(Run(s, worker, Front(events)), worker, Last(events));
      }
    }
  }

  /**
   In every run: never both lost and ended; only a held lease is lost; a completion is acknowledged only
   after one was attempted; a lease-lost marker means the lease is lost, a completed one that Snowcat
   acknowledged a completion.
   */
  lemma FlagsAgree(s: Sys, worker: string, events: seq<Event>)
    requires Fresh(s, worker) && Possible(s, worker, events)
    ensures Coherent(Run(s, worker, events).relay)
  {
    EveryRunKeepsInv(s, worker, events);
  }

  // ---- Concrete runs ----------------------------------------------------------------------------------------

  lemma RunMore(s: Sys, worker: string, events: seq<Event>, e: Event)
    requires Possible(s, worker, events) && Enabled(Run(s, worker, events), worker, e)
    ensures Possible(s, worker, events + [e]) && Run(s, worker, events + [e]) == Step(Run(s, worker, events), worker, e)
  {
    assert Front(events + [e]) == events && Last(events + [e]) == e;
  }

  function Start(): Sys { Sys(INITIAL, true, None, [], map[], 0) }

  /** A heartbeat without arguments, sent before anything is claimed, ends the relay. */
  lemma HeartbeatCanCrash(worker: string)
    requires worker != ""
    ensures var events := [Ask(Call(HeartbeatWork, None), true)];
            Fresh(Start(), worker) && Possible(Start(), worker, events) && !Run(Start(), worker, events).running
  {
    RunMore(Start(), worker, [], Ask(Call(HeartbeatWork, None), true));
    assert [] + [Ask(Call(HeartbeatWork, None), true)] == [Ask(Call(HeartbeatWork, None), true)];
  }

  function ClaimCall(worker: string): Call { Call(ClaimWork, Some(map["worker" := Text(worker)])) }

  function Held(worker: string): Lease { Lease("item", "token", worker, LEASE_SECONDS) }

  predicate Ready(z: Sys) { !z.relay.terminal && !z.relay.lost && z.running && z.pending.None? && z.now == 0 }

  /** A claim is granted, in three events. */
  function Claiming(worker: string): seq<Event> {
    [] + [Ask(ClaimCall(worker), true)] + [Serve(0, "item", "token")] + [Deliver(true)]
  }

  lemma ClaimIsGranted(worker: string)
    requires worker != ""
    ensures Possible(Start(), worker, Claiming(worker))
    ensures var z := Run(Start(), worker, Claiming(worker));
            && z.relay.active == Some(Held(worker)) && Ready(z)
            && |z.messages| == 1 && z.messages[0].call.tool == ClaimWork
            && z.grants == map["token" := Grant("item", worker, LEASE_SECONDS, false)]
  {
    var e0, e1, e2 := Ask(ClaimCall(worker), true), Serve(0, "item", "token"), Deliver(true);
    RunMore(Start(), worker, [], e0);
    RunMore(Start(), worker, [] + [e0], e1);
    var s2 := Run(Start(), worker, [] + [e0] + [e1]);
    assert s2.messages[0].answer == Some(Some(Item("item", "token", Some(LEASE_SECONDS))));
    RunMore(Start(), worker, [] + [e0] + [e1], e2);
  }

  function Releasing(): seq<Event> {
    [] + [Ask(Call(ReleaseWork, None), true)] + [Serve(1, "", "")] + [Fail(true, true)]
  }

  /** From there the lease is released, but the answer arrives without a body. */
  lemma ReleaseIsUnheard(worker: string, events: seq<Event>)
    requires Possible(Start(), worker, events)
    requires var z := Run(Start(), worker, events);
            && z.relay.active == Some(Held(worker)) && Ready(z)
            && |z.messages| == 1 && z.messages[0].call.tool == ClaimWork
            && z.grants == map["token" := Grant("item", worker, LEASE_SECONDS, false)]
    ensures Possible(Start(), worker, events + Releasing())
    ensures var z := Run(Start(), worker, events + Releasing());
            && z.relay.active == Some(Held(worker)) && Ready(z)
            && |z.messages| == 2 && EndTook(z, "token")
            && z.grants == map["token" := Grant("item", worker, LEASE_SECONDS, true)]
  {
    var e3, e4, e5 := Ask(Call(ReleaseWork, None), true), Serve(1, "", ""), Fail(true, true);
    RunMore(Start(), worker, events, e3);
    var s3 := Run(Start(), worker, events + [e3]);
    assert s3.messages[1].call.Arg("leaseToken") == "token" && s3.messages[1].call.Arg("id") == "item";
    RunMore(Start(), worker, events + [e3], e4);
    RunMore(Start(), worker, events + [e3] + [e4], e5);
    var s5 := Run(Start(), worker, events + [e3] + [e4] + [e5]);
    assert Ends(s5.messages[1], "token") && s5.messages[1] in s5.messages;
    assert events + Releasing() == events + [e3] + [e4] + [e5];
  }

  function Renewing(): seq<Event> { [] + [Beat] + [Serve(2, "", "")] + [Deliver(true)] }

  /** The next renewal is refused, and the lease declared lost with two minutes to go. */
  lemma RenewalIsRefused(worker: string, events: seq<Event>)
    requires Possible(Start(), worker, events)
    requires var z := Run(Start(), worker, events);
            && z.relay.active == Some(Held(worker)) && Ready(z)
            && |z.messages| == 2
            && z.grants == map["token" := Grant("item", worker, LEASE_SECONDS, true)]
    ensures Possible(Start(), worker, events + Renewing())
    ensures var z := Run(Start(), worker, events + Renewing());
            z.relay.lost && z.relay.active == Some(Held(worker)) && z.now == 0
  {
    var e6, e7, e8 := Beat, Serve(2, "", ""), Deliver(true);
    RunMore(Start(), worker, events, e6);
    RunMore(Start(), worker, events + [e6], e7);
    RunMore(Start(), worker, events + [e6] + [e7], e8);
    assert events + Renewing() == events + [e6] + [e7] + [e8];
  }

  /** A run that loses its lease before the recorded expiry, because it did not hear its own release. */
  lemma UnheardEndLosesEarly(worker: string)
    requires worker != ""
    ensures var events := Claiming(worker) + Releasing() + Renewing();
            && Fresh(Start(), worker) && Possible(Start(), worker, events)
            && var z := Run(Start(), worker, events);
            z.relay.lost && z.relay.active.Some? && z.now < z.relay.active.value.expiresAt
  {
    ClaimIsGranted(worker);
    ReleaseIsUnheard(worker, Claiming(worker));
    RenewalIsRefused(worker, Claiming(worker) + Releasing());
  }
}
