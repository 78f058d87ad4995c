/**
 What a relay has been told, as a history of the answers delivered to it, and that this is all the relay
 believes, forwards, renews and writes down.
 */
module LeaseStory {
  import opened Prelude
  import opened LeaseRelay
  import opened LeaseSystem

  /** The lease of the last claim granted, with the last expiry answered for it, and what became of it. */
  datatype Story = Story(lease: Option<Lease>, ended: bool, lost: bool)

  predicate IsAbout(t: Story, item: string) { t.lease.Some? && t.lease.value.item == item }

  /**
   A success tells of a new lease, of a new expiry or of the end; a heartbeat refused for the held item, or an
   expiry that cannot be read, that the lease is lost.
   */
  function Told(t: Story, worker: string, call: Call, answer: Option<Item>): Story {
    var renews := call.tool.ClaimWork? || call.tool.HeartbeatWork?;
    if answer.Some? && (call.tool.CompleteWork? || call.tool.BlockWork? || call.tool.ReleaseWork?)
      then t.(ended := true)
    else if answer.Some? && renews && answer.value.expiresAt.Some? then
      var (id, token, expiresAt) := (answer.value.id, answer.value.token, answer.value.expiresAt.value);
      if call.tool.ClaimWork? then Story(Some(Lease(id, token, worker, expiresAt)), false, false)
      else if IsAbout(t, id) then t.(lease := Some(t.lease.value.(expiresAt := expiresAt)))
      else t
    else if (answer.Some? && renews) || (call.tool.HeartbeatWork? && IsAbout(t, call.Arg("id"))) then
      if t.lease.Some? && !t.ended then t.(lost := true) else t
    else t
  }

  /** The story goes on when an answer arrives, or when a renewal gets none and the answered expiry is past. */
  function Onward(t: Story, s: Sys, worker: string, e: Event): Story
    requires Enabled(s, worker, e)
  {
    match e
    case Deliver(_) => Told(t, worker, s.messages[s.pending.value.k].call, s.messages[s.pending.value.k].answer.value)
    case Fail(_, _) =>
      if s.pending.value.renewal.Some? && t.lease.Some? && s.now >= t.lease.value.expiresAt then t.(lost := true) else t
    case _ => t
  }

  ghost function StoryOf(s: Sys, worker: string, events: seq<Event>): Story
    requires Possible(s, worker, events)
    decreases |events|
  {
    if events == [] then Story(None, false, false)
    else Onward(StoryOf(s, worker, Front(events)), Run(s, worker, Front(events)), worker, Last(events))
  }

  predicate Believes(r: State, t: Story) { r.active == t.lease && r.terminal == t.ended && r.lost == t.lost }

  lemma DeliveredStory(s: Sys, worker: string, wrote: bool, t: Story)
    requires Inv(s, worker) && Enabled(s, worker, Deliver(wrote)) && Believes(s.relay, t)
    ensures Believes(Step(s, worker, Deliver(wrote)).relay, Onward(t, s, worker, Deliver(wrote)))
  {
    hide GrantsFollow, ItemsAreExclusive, EndTook;
    var p := s.pending.value;
    var m := s.messages[p.k];
    assert AnswerHolds(s, worker, m);
    if m.answer.value.Some? && (m.call.tool == ClaimWork || m.call.tool == HeartbeatWork) {
      assert m.answer.value.value.token in s.grants;
    }
  }

  lemma FailedStory(s: Sys, worker: string, bodyless: bool, wrote: bool, t: Story)
    requires Inv(s, worker) && Enabled(s, worker, Fail(bodyless, wrote)) && Believes(s.relay, t)
    ensures Believes(Step(s, worker, Fail(bodyless, wrote)).relay, Onward(t, s, worker, Fail(bodyless, wrote)))
  {
    hide GrantsFollow, ItemsAreExclusive, EndTook, AnswerHolds;
  }

  lemma StoryStep(s: Sys, worker: string, e: Event, t: Story)
    requires Inv(s, worker) && Enabled(s, worker, e) && Believes(s.relay, t)
    ensures Believes(Step(s, worker, e).relay, Onward(t, s, worker, e))
  {
    match e
    case Deliver(wrote) => DeliveredStory(s, worker, wrote, t);
    case Fail(bodyless, wrote) => FailedStory(s, worker, bodyless, wrote, t);
    case Ask(call, wrote) =>
      BeginChangesLittle(s.relay, worker, call, wrote);
      hide Inv, Begin;
    case _ => hide Inv, Processed;
  }

  /**
   In every run the relay believes exactly what it has been told: the lease of the last granted claim with the
   expiry last answered for it, ended once an ending call was accepted, lost once a heartbeat for it was
   refused or a renewal went unanswered past that expiry. So it never loses a lease without such an answer,
   and never misses one.
   */
  lemma {:induction false} RelayBelievesWhatItWasTold(s: Sys, worker: string, events: seq<Event>)
    requires Fresh(s, worker) && Possible(s, worker, events)
    ensures Believes(Run(s, worker, events).relay, StoryOf(s, worker, events))
    decreases |events|
  {
    if events != [] {
      RelayBelievesWhatItWasTold(s, worker, Front(events));
      EveryRunKeepsInv(s, worker, Front(events));
      StoryStep(Run(s, worker, Front(events)), worker, Last(events), StoryOf(s, worker, Front(events)));
    }
  }

  // ---- The recorded expiry ----------------------------------------------------------------------

  /** The expiry that the event delivers for this item, with a granted claim or an accepted heartbeat. */
  function Delivers(s: Sys, worker: string, e: Event, item: string): Option<int>
    requires Enabled(s, worker, e)
  {
    if !e.Deliver? then None
    else
      var m := s.messages[s.pending.value.k];
      if (m.call.tool.ClaimWork? || m.call.tool.HeartbeatWork?) && m.answer.value.Some?
        && m.answer.value.value.id == item
      then m.answer.value.value.expiresAt else None
  }

  /** The `n`-th event of a run, at the state it finds. */
  ghost function DeliversAt(s: Sys, worker: string, events: seq<Event>, n: nat, item: string): Option<int>
    requires Possible(s, worker, events) && n < |events|
  {
    PrefixIsPossible(s, worker, events, n);
    PrefixIsPossible(s, worker, events, n + 1);
    assert Front(events[..n + 1]) == events[..n] && Last(events[..n + 1]) == events[n];
    Delivers(Run(s, worker, events[..n]), worker, events[n], item)
  }

  /** The `n`-th event delivered this expiry for the item, and no later one delivered any. */
  ghost predicate LastDelivered(s: Sys, worker: string, events: seq<Event>, n: nat, item: string, expiresAt: int)
    requires Possible(s, worker, events)
  {
    && n < |events| && DeliversAt(s, worker, events, n, item) == Some(expiresAt)
    && forall k: nat | n < k < |events| :: DeliversAt(s, worker, events, k, item) == None
  }

  lemma FrontDelivers(s: Sys, worker: string, events: seq<Event>, n: nat, item: string)
    requires Possible(s, worker, events) && n < |events| - 1
    ensures DeliversAt(s, worker, Front(events), n, item) == DeliversAt(s, worker, events, n, item)
  {
    assert Front(events)[..n] == events[..n];
  }

  /** While a lease is on record, its expiry is the one last delivered for its item, by a claim or a heartbeat. */
  lemma {:induction false} RecordedExpiryIsTheLastDelivered(s: Sys, worker: string, events: seq<Event>)
    requires Fresh(s, worker) && Possible(s, worker, events)
    ensures var r := Run(s, worker, events).relay;
            r.active.Some? ==>
              exists n: nat :: LastDelivered(s, worker, events, n, r.active.value.item, r.active.value.expiresAt)
    decreases |events|
  {
    if events != [] {
      RecordedExpiryIsTheLastDelivered(s, worker, Front(events));
      RelayBelievesWhatItWasTold(s, worker, Front(events));
      RelayBelievesWhatItWasTold(s, worker, events);
      EveryRunKeepsInv(s, worker, Front(events));
      var before, after, k := Run(s, worker, Front(events)), Run(s, worker, events), |events| - 1;
      assert events[..k] == Front(events);
      if after.relay.active.Some? {
        var l := after.relay.active.value;
        DeliveredIsRecorded(before, worker, Last(events), StoryOf(s, worker, Front(events)), l);
        if Delivers(before, worker, Last(events), l.item).Some? {
          assert LastDelivered(s, worker, events, k, l.item, l.expiresAt);
        } else {
          var n: nat :| LastDelivered(s, worker, Front(events), n, l.item, l.expiresAt);
          forall j: nat | n <= j < k ensures DeliversAt(s, worker, events, j, l.item)
                                             == DeliversAt(s, worker, Front(events), j, l.item) {
            FrontDelivers(s, worker, events, j, l.item);
          }
          assert LastDelivered(s, worker, events, n, l.item, l.expiresAt);
        }
      }
    }
  }

  lemma DeliveredIsRecorded(s: Sys, worker: string, e: Event, t: Story, l: Lease)
    requires Inv(s, worker) && Enabled(s, worker, e) && Believes(s.relay, t) && Onward(t, s, worker, e).lease == Some(l)
    ensures Delivers(s, worker, e, l.item) == Some(l.expiresAt)
            || (Delivers(s, worker, e, l.item) == None && t.lease == Some(l))
  {
    hide GrantsFollow, ItemsAreExclusive, EndTook, LeaseHolds, Coherent;
    if e.Deliver? {
      assert AnswerHolds(s, worker, s.messages[s.pending.value.k]);
    }
  }

  /** So no lease is declared lost before the expiry last delivered for it, unless its end went unheard. */
  lemma NoLossBeforeTheDeliveredExpiry(s: Sys, worker: string, events: seq<Event>)
    requires Fresh(s, worker) && events != [] && Possible(s, worker, events)
    requires !Run(s, worker, Front(events)).relay.lost && Run(s, worker, events).relay.lost
    ensures var before := Run(s, worker, Front(events));
            && before.relay.active.Some?
            && exists n: nat, expiresAt: int ::
                 && LastDelivered(s, worker, Front(events), n, before.relay.active.value.item, expiresAt)
                 && (before.now >= expiresAt
                     || (EndTook(before, before.relay.active.value.token) && !HeardAll(s, worker, Front(events))))
  {
    NeverLostEarly(s, worker, events);
    RecordedExpiryIsTheLastDelivered(s, worker, Front(events));
  }

  // ---- What goes out -----------------------------------------------------------------------------

  function Value(call: Call, key: string): Option<Json> {
    if call.args.Some? && key in call.args.value then Some(call.args.value[key]) else None
  }

  /** A lifecycle call that names the held item, or none. */
  predicate CarriesLease(t: Story, call: Call) {
    && (call.tool.HeartbeatWork? || call.tool.CompleteWork? || call.tool.BlockWork? || call.tool.ReleaseWork?)
    && t.lease.Some?
    && (call.Arg("id") == "" || call.Arg("id") == t.lease.value.item)
  }

  /** What is sent for a call: the lease where it is due, 120 seconds where a lease is asked for, all else as it was. */
  ghost predicate SentFor(t: Story, worker: string, call: Call, sent: Call) {
    var asks := call.tool.ClaimWork? || call.tool.HeartbeatWork?;
    && sent.tool == call.tool
    && (CarriesLease(t, call) ==>
          && Value(sent, "id") == Some(Text(t.lease.value.item)) && Value(sent, "worker") == Some(Text(worker))
          && Value(sent, "leaseToken") == Some(Text(t.lease.value.token)))
    && (asks ==> Value(sent, "leaseSeconds") == Some(Number(120)))
    && forall key: string ::
         (CarriesLease(t, call) && key in {"id", "leaseToken", "worker"}) || (asks && key == "leaseSeconds")
         || Value(sent, key) == Value(call, key)
  }

  /** Claims are refused to a foreign worker or while a lease is held, every other call once the lease is lost. */
  predicate Refused(t: Story, worker: string, call: Call) {
    if call.tool.ClaimWork? then call.Arg("worker") != worker || (t.lease.Some? && !t.ended) else t.lost
  }

  predicate Crashes(t: Story, call: Call) { call.tool.HeartbeatWork? && call.args.None? && t.lease.None? && !t.lost }

  lemma BeginAsTold(r: State, worker: string, call: Call, wrote: bool, t: Story)
    requires Believes(r, t) && worker != ""
    ensures var d := Begin(r, worker, call, wrote).1;
            && (d.Refuse? <==> Refused(t, worker, call)) && (d.Crash? <==> Crashes(t, call))
            && (d.Forward? ==> SentFor(t, worker, call, d.call))
  {
  }

  /**
   In every run a provider's call is refused, ends the relay, or goes out exactly as the story says; when it
   goes out, exactly one message does, with the lease where it is due and everything else untouched.
   */
  lemma CallsGoOutExactlyWhen(s: Sys, worker: string, events: seq<Event>)
    requires Fresh(s, worker) && events != [] && Possible(s, worker, events) && Last(events).Ask?
    ensures var before, after := Run(s, worker, Front(events)), Run(s, worker, events);
            var t, call := StoryOf(s, worker, Front(events)), Last(events).call;
            && (after.running <==> !Crashes(t, call))
            && (if Refused(t, worker, call) || Crashes(t, call) then after.messages == before.messages
                else
                  && |after.messages| == |before.messages| + 1 && before.messages <= after.messages
                  && Last(after.messages).answer.None? && SentFor(t, worker, call, Last(after.messages).call))
  {
    RelayBelievesWhatItWasTold(s, worker, Front(events));
    var before, call, wrote := Run(s, worker, Front(events)), Last(events).call, Last(events).wrote;
    BeginAsTold(before.relay, worker, call, wrote, StoryOf(s, worker, Front(events)));
    hide Begin, SentFor, Refused, Crashes;
    var d := Begin(before.relay, worker, call, wrote).1;
    if d.Forward? {
      assert Run(s, worker, events).messages == before.messages + [Message(d.call, None)];
    }
  }

  /** A renewal tick sends one heartbeat for the lease while it is held, neither ended nor lost, and nothing else. */
  lemma RenewsExactlyWhileHeld(s: Sys, worker: string, events: seq<Event>)
    requires Fresh(s, worker) && events != [] && Possible(s, worker, events) && Last(events).Beat?
    ensures var before, after := Run(s, worker, Front(events)), Run(s, worker, events);
            var t := StoryOf(s, worker, Front(events));
            after.messages == before.messages
            + if t.lease.Some? && !t.ended && !t.lost then
                [Message(Call(HeartbeatWork, Some(map["id" := Text(t.lease.value.item), "worker" := Text(worker),
                                                      "leaseToken" := Text(t.lease.value.token),
                                                      "leaseSeconds" := Number(120)])), None)]
              else []
  {
    RelayBelievesWhatItWasTold(s, worker, Front(events));
    EveryRunKeepsInv(s, worker, Front(events));
    var before, t := Run(s, worker, Front(events)), StoryOf(s, worker, Front(events));
    hide GrantsFollow, ItemsAreExclusive, AnswerHolds, PendingFits;
    if t.lease.Some? {
      var beat := map["id" := Text(t.lease.value.item), "worker" := Text(worker),
                      "leaseToken" := Text(t.lease.value.token), "leaseSeconds" := Number(120)];
      assert Renewal(t.lease.value).args.value == beat;
    }
    assert Run(s, worker, events) == Step(before, worker, Beat);
  }

  // ---- The lifecycle marker ----------------------------------------------------------------------

  /** What an event gives the relay to write down, and whether that write succeeded. */
  function News(t: Story, s: Sys, worker: string, e: Event): Option<(MarkerStatus, bool)>
    requires Enabled(s, worker, e)
  {
    match e
    case Ask(call, wrote) => if call.tool.CompleteWork? && !t.lost then Some((Claimed, wrote)) else None
    case Deliver(wrote) =>
      var m := s.messages[s.pending.value.k];
      if Onward(t, s, worker, e).lost && !t.lost then Some((LeaseLost, wrote))
      else if m.answer.value.None? then None
      else if m.call.tool.ClaimWork? then Some((Claimed, wrote))
      else if m.call.tool.CompleteWork? then Some((Completed, wrote))
      else if m.call.tool.BlockWork? then Some((Blocked, wrote))
      else if m.call.tool.ReleaseWork? then Some((Released, wrote))
      else None
    case Fail(_, wrote) => if Onward(t, s, worker, e).lost && !t.lost then Some((LeaseLost, wrote)) else None
    case Quit(wrote) => if !t.ended && !t.lost then Some((ProviderExited, wrote)) else None
    case _ => None
  }

  /** A completion went out. */
  ghost predicate Attempted(s: Sys, worker: string, events: seq<Event>)
    requires Possible(s, worker, events)
    decreases |events|
  {
    events != [] &&
    (Attempted(s, worker, Front(events))
     || (Last(events).Ask? && Last(events).call.tool.CompleteWork? && !StoryOf(s, worker, Front(events)).lost))
  }

  /** The answer to an accepted completion arrived. */
  ghost predicate Acknowledged(s: Sys, worker: string, events: seq<Event>)
    requires Possible(s, worker, events)
    decreases |events|
  {
    events != [] &&
    var before := Run(s, worker, Front(events));
    Acknowledged(s, worker, Front(events))
    || (Last(events).Deliver? && var m := before.messages[before.pending.value.k];
        m.call.tool.CompleteWork? && m.answer.value.Some?)
  }

  /** The last news that was written down while there was a lease, about that lease. */
  ghost function MarkerOf(s: Sys, worker: string, events: seq<Event>): Option<Marker>
    requires Possible(s, worker, events)
    decreases |events|
  {
    if events == [] then None
    else
      var news := News(StoryOf(s, worker, Front(events)), Run(s, worker, Front(events)), worker, Last(events));
      var t := StoryOf(s, worker, events);
      if news.Some? && news.value.1 && t.lease.Some? then
        Some(Marker(t.lease.value.item, news.value.0, Attempted(s, worker, events), Acknowledged(s, worker, events)))
      else MarkerOf(s, worker, Front(events))
  }

  /** The relay's flags and marker after one event. */
  predicate Noted(r: State, r': State, t': Story, news: Option<(MarkerStatus, bool)>, attempts: bool, acks: bool) {
    && (r'.attempted <==> r.attempted || attempts) && (r'.acknowledged <==> r.acknowledged || acks)
    && r'.marker == (if news.Some? && news.value.1 && t'.lease.Some?
                     then Some(Marker(t'.lease.value.item, news.value.0, r'.attempted, r'.acknowledged))
                     else r.marker)
  }

  lemma AskedNote(r: State, worker: string, call: Call, wrote: bool, t: Story)
    requires Believes(r, t)
    ensures var attempts := call.tool.CompleteWork? && !t.lost;
            Noted(r, Begin(r, worker, call, wrote).0, t, if attempts then Some((Claimed, wrote)) else None, attempts,
                  false)
  {
  }

  lemma DeliveredNote(s: Sys, worker: string, wrote: bool, t: Story)
    requires Inv(s, worker) && Enabled(s, worker, Deliver(wrote)) && Believes(s.relay, t)
    ensures var m := s.messages[s.pending.value.k];
            Noted(s.relay, Step(s, worker, Deliver(wrote)).relay, Onward(t, s, worker, Deliver(wrote)),
                  News(t, s, worker, Deliver(wrote)), false, m.call.tool.CompleteWork? && m.answer.value.Some?)
  {
    hide GrantsFollow, ItemsAreExclusive, EndTook;
    var m := s.messages[s.pending.value.k];
    assert AnswerHolds(s, worker, m);
    if m.answer.value.Some? && (m.call.tool == ClaimWork || m.call.tool == HeartbeatWork) {
      assert m.answer.value.value.token in s.grants;
    }
  }

  lemma NoteStep(s: Sys, worker: string, e: Event, t: Story)
    requires Inv(s, worker) && Enabled(s, worker, e) && Believes(s.relay, t)
    ensures Noted(s.relay, Step(s, worker, e).relay, Onward(t, s, worker, e), News(t, s, worker, e),
                  e.Ask? && e.call.tool.CompleteWork? && !t.lost,
                  e.Deliver? && var m := s.messages[s.pending.value.k];
                  m.call.tool.CompleteWork? && m.answer.value.Some?)
  {
    match e
    case Deliver(wrote) => DeliveredNote(s, worker, wrote, t);
    case Ask(call, wrote) =>
      AskedNote(s.relay, worker, call, wrote, t);
      hide Inv, Begin;
    case _ => hide Processed, GrantsFollow, ItemsAreExclusive, EndTook, AnswerHolds;
  }

  /**
   In every run the marker is the last news that could be written: a claim granted or a completion sent out
   (claimed), the accepted ending calls by name, a loss, the provider's exit under a live lease; with whether
   a completion was ever sent out and ever acknowledged.
   */
  lemma {:induction false} MarkerTellsTheLastNews(s: Sys, worker: string, events: seq<Event>)
    requires Fresh(s, worker) && Possible(s, worker, events)
    ensures var r := Run(s, worker, events).relay;
            && r.marker == MarkerOf(s, worker, events)
            && (r.attempted <==> Attempted(s, worker, events))
            && (r.acknowledged <==> Acknowledged(s, worker, events))
    decreases |events|
  {
    if events != [] {
      MarkerTellsTheLastNews(s, worker, Front(events));
      RelayBelievesWhatItWasTold(s, worker, Front(events));
      EveryRunKeepsInv(s, worker, Front(events));
      NoteStep(Run(s, worker, Front(events)), worker, Last(events), StoryOf(s, worker, Front(events)));
      hide Inv, Step, News, Onward;
    }
  }
}
