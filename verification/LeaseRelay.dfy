/**
 The worker lease relay: it stands between a provider and Snowcat, holds the lease a claim granted,
 and rewrites lifecycle calls so that they carry it.
 */
module LeaseRelay {
  import opened Prelude

  const LEASE_SECONDS := 120

  datatype Tool = ClaimWork | HeartbeatWork | CompleteWork | BlockWork | ReleaseWork | OtherTool(name: string)

  predicate IsLifecycle(t: Tool) { !t.OtherTool? }

  predicate IsTerminal(t: Tool) { t.CompleteWork? || t.BlockWork? || t.ReleaseWork? }

  /** A JSON value, as far as the relay looks into it. */
  datatype Json = Text(text: string) | Number(number: int) | Other

  type Args = map<string, Json>

  /** A `tools/call` request. The arguments may be missing. */
  datatype Call = Call(tool: Tool, args: Option<Args>) {
    /** A string argument; missing and non-string ones read as empty. */
    function Arg(key: string): string {
      if args.Some? && key in args.value && args.value[key].Text? then args.value[key].text else ""
    }
  }

  /** The work item of a successful tool result; an unreadable expiry is None. */
  datatype Item = Item(id: string, token: string, expiresAt: Option<int>)

  /** What came back: no connection, an accepted call without a body, or a result that is or is not a work item. */
  datatype Reply = Unreachable | NoBody | Answer(item: Option<Item>)

  datatype Lease = Lease(item: string, token: string, worker: string, expiresAt: int)

  datatype MarkerStatus = Claimed | Completed | Blocked | Released | LeaseLost | ProviderExited

  datatype Marker = Marker(item: string, status: MarkerStatus, attempted: bool, acknowledged: bool)

  datatype State = State(
    active: Option<Lease>, lost: bool, terminal: bool,
    attempted: bool, acknowledged: bool, marker: Option<Marker>)

  const INITIAL := State(None, false, false, false, false, None)

  datatype Decision = Refuse(reason: string) | Crash | Forward(call: Call)

  // ---- What each step means ----------------------------------------------------------------

  /** The marker write; it may fail and then changes nothing. */
  function Mark(s: State, status: MarkerStatus, wrote: bool): State {
    if s.active.None? || !wrote then s
    else s.(marker := Some(Marker(s.active.value.item, status, s.attempted, s.acknowledged)))
  }

  function Lose(s: State, wrote: bool): State {
    if s.lost || s.terminal || s.active.None? then s else Mark(s.(lost := true), LeaseLost, wrote)
  }

  /** The held lease goes into a call that names the held item, or none; any other call stays as it is. */
  function Bind(s: State, worker: string, call: Call): Call {
    if s.active.None? then call
    else
      var args := if call.args.None? then map[] else call.args.value;
      if call.Arg("id") != "" && call.Arg("id") != s.active.value.item then Call(call.tool, Some(args))
      else
        var bound := args["id" := Text(s.active.value.item)]["leaseToken" := Text(s.active.value.token)];
        Call(call.tool, Some(bound["worker" := Text(worker)]))
  }

  function WithLeaseSeconds(call: Call): Call
    requires call.args.Some?
  {
    Call(call.tool, Some(call.args.value["leaseSeconds" := Number(LEASE_SECONDS)]))
  }

  /** The first half of a provider's call, before anything is sent. */
  function Begin(s: State, worker: string, call: Call, wrote: bool): (State, Decision) {
    match call.tool
    case ClaimWork =>
      if call.Arg("worker") != worker || call.args.None? then
        (s, Refuse("claim_work worker does not match the bound Cockpit worker"))
      else if s.active.Some? && !s.terminal then (s, Refuse("cockpit worker already owns one lease"))
      else (s, Forward(WithLeaseSeconds(call)))
    case OtherTool(_) =>
      if s.lost then (s, Refuse("SNOWCAT_COCKPIT_LEASE_LOST")) else (s, Forward(call))
    case HeartbeatWork =>
      if s.lost then (s, Refuse("SNOWCAT_COCKPIT_LEASE_LOST"))
      else if Bind(s, worker, call).args.None? then (s, Crash)
      else (s, Forward(WithLeaseSeconds(Bind(s, worker, call))))
    case CompleteWork =>
      if s.lost then (s, Refuse("SNOWCAT_COCKPIT_LEASE_LOST"))
      else (Mark(s.(attempted := true), Claimed, wrote), Forward(Bind(s, worker, call)))
    case BlockWork =>
      if s.lost then (s, Refuse("SNOWCAT_COCKPIT_LEASE_LOST")) else (s, Forward(Bind(s, worker, call)))
    case ReleaseWork =>
      if s.lost then (s, Refuse("SNOWCAT_COCKPIT_LEASE_LOST")) else (s, Forward(Bind(s, worker, call)))
  }

  /** What a call's answer means. */
  function Observed(s: State, worker: string, call: Call, item: Option<Item>, wrote: bool): State {
    if item.None? then
      if call.tool == HeartbeatWork && s.active.Some? && call.Arg("id") == s.active.value.item then Lose(s, wrote)
        else s
    else
      match call.tool
      case ClaimWork =>
        if item.value.id == "" || item.value.token == "" || call.Arg("worker") != worker then s
        else if item.value.expiresAt.None? then Lose(s, wrote)
        else
          Mark(s.(active := Some(Lease(item.value.id, item.value.token, call.Arg("worker"),
                                       item.value.expiresAt.value)),
                  lost := false, terminal := false), Claimed, wrote)
      case HeartbeatWork =>
        if item.value.expiresAt.None? then Lose(s, wrote)
        else if s.active.Some? && s.active.value.item == item.value.id then
          s.(active := Some(s.active.value.(expiresAt := item.value.expiresAt.value)))
        else s
      case CompleteWork => Mark(s.(terminal := true, acknowledged := true), Completed, wrote)
      case BlockWork => Mark(s.(terminal := true), Blocked, wrote)
      case ReleaseWork => Mark(s.(terminal := true), Released, wrote)
      case OtherTool(_) => s
  }

  /** The relay's own heartbeat. */
  function Renewal(lease: Lease): Call {
    Call(HeartbeatWork, Some(map["id" := Text(lease.item), "leaseToken" := Text(lease.token),
                                 "worker" := Text(lease.worker),
                                 "leaseSeconds" := Number(LEASE_SECONDS)]))
  }

  predicate NeedsRenewal(s: State) { s.active.Some? && !s.terminal && !s.lost }

  /** What came of the relay's own heartbeat for `current`, at time `now`. */
  function Renewed(s: State, current: Lease, reply: Reply, now: int, wrote: bool): State {
    match reply
    case Unreachable => if now >= current.expiresAt then Lose(s, wrote) else s
    case NoBody => if now >= current.expiresAt then Lose(s, wrote) else s
    case Answer(item) =>
      if item.None? || item.value.expiresAt.None? || item.value.id != current.item then Lose(s, wrote)
      else if s.active.Some? && s.active.value.item == current.item then
        s.(active := Some(s.active.value.(expiresAt := item.value.expiresAt.value)))
      else s
  }

  /** The provider ended: note it unless the lease is over or lost. */
  function ProviderGone(s: State, wrote: bool): State {
    if s.active.None? || s.terminal || s.lost then s else Mark(s, ProviderExited, wrote)
  }

  // ---- The relay ---------------------------------------------------------------------------

  /** Snowcat as the relay sees it: any reply can come back. */
  class Network {
    ghost var sent: seq<Call>

    method Send(call: Call) returns (reply: Reply)
      modifies this
      ensures sent == old(sent) + [call]
    {
      sent := sent + [call];
      reply := *;
    }
  }

  class Relay {
    const workerId: string
    const net: Network
    var active: Option<Lease>
    var lost: bool
    var terminal: bool
    var completeAttempted: bool
    var completeAcknowledged: bool
    var marker: Option<Marker>

    ghost function Value(): State
      reads this
    {
      State(active, lost, terminal, completeAttempted, completeAcknowledged, marker)
    }

    constructor (workerId: string, net: Network)
      ensures Value() == INITIAL && this.workerId == workerId && this.net == net
    {
      this.workerId, this.net := workerId, net;
      active, lost, terminal, completeAttempted, completeAcknowledged, marker := None, false, false, false, false, None;
    }

    method WriteMarker(status: MarkerStatus) returns (wrote: bool)
      modifies `marker
      ensures Value() == Mark(old(Value()), status, wrote)
    {
      wrote := *;
      if active.Some? && wrote {
        marker := Some(Marker(active.value.item, status, completeAttempted, completeAcknowledged));
      }
    }

    method LoseLease() returns (wrote: bool)
      modifies this
      ensures Value() == Lose(old(Value()), wrote)
    {
      wrote := false;
      if lost || terminal || active.None? {
        return;
      }
      lost := true;
      wrote := WriteMarker(LeaseLost);
    }

    method BindLease(call: Call) returns (bound: Call)
      ensures bound == Bind(Value(), workerId, call)
    {
      bound := call;
      if active.None? {
        return;
      }
      if bound.args.None? {
        bound := Call(bound.tool, Some(map[]));
      }
      var id := bound.Arg("id");
      if id != "" && id != active.value.item {
        return;
      }
      bound := Call(bound.tool, Some(bound.args.value["id" := Text(active.value.item)]));
      bound := Call(bound.tool, Some(bound.args.value["leaseToken" := Text(active.value.token)]));
      bound := Call(bound.tool, Some(bound.args.value["worker" := Text(workerId)]));
    }

    /** The checks and rewrites before a call is sent. */
    method Prepare(call: Call) returns (d: Decision, ghost wrote: bool)
      requires workerId != ""
      modifies this
      ensures (Value(), d) == Begin(old(Value()), workerId, call, wrote)
    {
      wrote := false;
      var sent := call;
      if call.tool == ClaimWork {
        if call.Arg("worker") != workerId {
          return Refuse("claim_work worker does not match the bound Cockpit worker"), wrote;
        }
        if active.Some? && !terminal {
          return Refuse("cockpit worker already owns one lease"), wrote;
        }
        return Forward(Call(call.tool, Some(call.args.value["leaseSeconds" := Number(LEASE_SECONDS)]))), wrote;
      }
      if lost {
        return Refuse("SNOWCAT_COCKPIT_LEASE_LOST"), wrote;
      }
      if IsLifecycle(call.tool) {
        sent := BindLease(call);
      }
      if call.tool == HeartbeatWork {
        if sent.args.None? {
          return Crash, wrote;
        }
        sent := Call(sent.tool, Some(sent.args.value["leaseSeconds" := Number(LEASE_SECONDS)]));
      }
      if call.tool == CompleteWork {
        completeAttempted := true;
        var w := WriteMarker(Claimed);
        wrote := w;
      }
      d := Forward(sent);
    }

    method Observe(call: Call, item: Option<Item>) returns (ghost wrote: bool)
      modifies this
      ensures Value() == Observed(old(Value()), workerId, call, item, wrote)
    {
      wrote := false;
      var w;
      match item {
        case None =>
          if call.tool == HeartbeatWork && active.Some? && active.value.item == call.Arg("id") {
            w := LoseLease();
            wrote := w;
          }
        case Some(i) =>
          match call.tool {
            case ClaimWork =>
              if i.id == "" || i.token == "" || call.Arg("worker") != workerId {
                return;
              }
              if i.expiresAt.None? {
                w := LoseLease();
                return w;
              }
              active := Some(Lease(i.id, i.token, call.Arg("worker"), i.expiresAt.value));
              lost, terminal := false, false;
              w := WriteMarker(Claimed);
              wrote := w;
            case HeartbeatWork =>
              if i.expiresAt.None? {
                w := LoseLease();
                return w;
              }
              if active.Some? && active.value.item == i.id {
                active := Some(active.value.(expiresAt := i.expiresAt.value));
              }
            case CompleteWork => w := Finish(Completed); wrote := w;
            case BlockWork => w := Finish(Blocked); wrote := w;
            case ReleaseWork => w := Finish(Released); wrote := w;
            case OtherTool(_) =>
          }
      }
    }

    method Finish(status: MarkerStatus) returns (wrote: bool)
      modifies this
      ensures Value() == Mark(old(Value()).(terminal := true, acknowledged := old(completeAcknowledged)
                                            || status == Completed), status, wrote)
    {
      terminal := true;
      if status == Completed {
        completeAcknowledged := true;
      }
      wrote := WriteMarker(status);
    }

    /** One provider call from start to end. A call that cannot reach Snowcat ends the relay. */
    method Handle(call: Call) returns (d: Decision, reply: Reply, ends: bool, ghost wrote: bool, ghost wrote': bool)
      requires workerId != ""
      modifies this, net
      ensures d == Begin(old(Value()), workerId, call, wrote).1
      ensures var s := Begin(old(Value()), workerId, call, wrote).0;
              Value() == if d.Forward? && reply.Answer? then Observed(s, workerId, d.call, reply.item, wrote') else s
      ensures net.sent == if d.Forward? then old(net.sent) + [d.call] else old(net.sent)
      ensures ends <==> d.Crash? || (d.Forward? && reply.Unreachable?)
    {
      reply, wrote' := NoBody, false;
      d, wrote := Prepare(call);
      ends := d.Crash?;
      if d.Forward? {
        reply := net.Send(d.call);
        ends := reply.Unreachable?;
        if reply.Answer? {
          wrote' := Observe(d.call, reply.item);
        }
      }
    }

    /** One renewal tick. A renewal that cannot reach Snowcat costs the lease only once it has expired. */
    method Renew(clock: int) returns (reply: Reply, ghost wrote: bool)
      modifies this, net
      ensures if NeedsRenewal(old(Value()))
              then Value() == Renewed(old(Value()), old(active).value, reply, clock, wrote)
                   && net.sent == old(net.sent) + [Renewal(old(active).value)]
              else Value() == old(Value()) && net.sent == old(net.sent)
    {
      reply, wrote := NoBody, false;
      if active.None? || terminal || lost {
        return;
      }
      var current := active.value;
      var heartbeat := Renewal(current);
      reply := net.Send(heartbeat);
      var w;
      if !reply.Answer? {
        if clock >= current.expiresAt {
          w := LoseLease();
          wrote := w;
        }
        return;
      }
      if reply.item.None? || reply.item.value.expiresAt.None? || reply.item.value.id != current.item {
        w := LoseLease();
        wrote := w;
        return;
      }
      if active.Some? && active.value.item == current.item {
        active := Some(active.value.(expiresAt := reply.item.value.expiresAt.value));
      }
    }

    method MarkProviderExit() returns (wrote: bool)
      modifies this
      ensures Value() == ProviderGone(old(Value()), wrote)
    {
      wrote := false;
      if active.None? || terminal || lost {
        return;
      }
      wrote := WriteMarker(ProviderExited);
    }
  }

  // ---- What one call carries -----------------------------------------------------------------

  /**
   A lifecycle call other than a claim, made while a lease is held: with the held ID, or none, it goes
   out carrying exactly the held item, token and worker; with any other ID nothing but a heartbeat's
   length is changed.
   */
  lemma HeldLeaseIsCarried(s: State, worker: string, call: Call, wrote: bool)
    requires s.active.Some? && IsLifecycle(call.tool) && call.tool != ClaimWork && !s.lost
    ensures var d := Begin(s, worker, call, wrote).1;
            && d.Forward? && d.call.tool == call.tool
            && (if call.Arg("id") == "" || call.Arg("id") == s.active.value.item
                then d.call.Arg("id") == s.active.value.item && d.call.Arg("leaseToken") == s.active.value.token
                     && d.call.Arg("worker") == worker
                else forall key :: key != "leaseSeconds" ==> d.call.Arg(key) == call.Arg(key))
  {
  }

  /** Every claim and heartbeat that goes out asks for 120 seconds, whatever the provider asked for. */
  lemma LengthIsForced(s: State, worker: string, call: Call, wrote: bool)
    requires Begin(s, worker, call, wrote).1.Forward? && (call.tool == ClaimWork || call.tool == HeartbeatWork)
    ensures var sent := Begin(s, worker, call, wrote).1.call;
            sent.args.Some? && "leaseSeconds" in sent.args.value
              && sent.args.value["leaseSeconds"] == Number(LEASE_SECONDS)
  {
  }

  /** The relay crashes exactly on a heartbeat without arguments while it holds no lease and lost none. */
  lemma CrashesExactlyWhen(s: State, worker: string, call: Call, wrote: bool)
    ensures Begin(s, worker, call, wrote).1 == Crash
            <==> call.tool == HeartbeatWork && call.args.None? && s.active.None? && !s.lost
  {
  }
}
